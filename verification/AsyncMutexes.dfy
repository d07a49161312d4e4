/**
 The two kinds of mutex and the condition variables of the asynchronous client, in every
 interleaving and at any depth of re-entry from listeners and delivery_complete().

 No thread ever holds the client's mutex and a token's mutex together, the user's code runs with
 neither, and so no cycle of threads waiting for mutexes can form.  No thread sleeps through the
 completion of its token, and sleepers are signalled only after the listener has returned.
 */
module AsyncMutexes {
  import opened Common
  import opened AsyncThreads
  import opened AsyncLedger

  // ---- Mutexes ----

  // Only the callee of a thread can hold a mutex; only a blocked wait() can be asleep.
  ghost predicate CallersHoldNothing(s: State) {
    && (forall t, i :: 0 <= t < |s.threads| && 0 <= i < |s.threads[t]| - 1 ==> Holds(s.threads[t][i]) == None)
    && (forall t :: t in s.sleeping ==> Busy(s, t) && Top(s, t).Wait? && Top(s, t).phase.Blocked?)
  }

  // A mutex has one holder.
  ghost predicate Exclusive(s: State) {
    forall t, u | 0 <= t < |s.threads| && 0 <= u < |s.threads| && Busy(s, t) && Busy(s, u) ::
      Holds(Top(s, t)).Some? && Holds(Top(s, t)) == Holds(Top(s, u)) ==> t == u
  }

  ghost predicate MutexInv(s: State) {
    CallersHoldNothing(s) && Exclusive(s)
  }

  // What an advancing frame leaves behind: callers that hold nothing, and a callee that holds no
  // mutex but the one the frame was about to take.
  lemma NextHolds(s: State, f: Frame)
    ensures |Next(s, f)| <= 2
    ensures |Next(s, f)| == 2 ==> Holds(Next(s, f)[0]) == None && Holds(Next(s, f)[1]) == None
    ensures |Next(s, f)| == 1 && !Asking(f) ==> Holds(Next(s, f)[0]) == Takes(f)
    ensures Takes(f).Some? ==> Holds(f) == None && |Next(s, f)| == 1
  {
  }

  lemma EffectOnSleeping(s: State, t: nat, f: Frame, u: nat)
    requires u in Effect(s, t, f).sleeping
    ensures u in s.sleeping || (u == t && f.Wait? && f.phase.Testing? && Next(s, f) == [Wait(f.tok, Blocked)])
  {
  }

  lemma StepKeepsCallersHoldNothing(s: State, e: Event)
    requires CallersHoldNothing(s) && Enabled(s, e)
    ensures CallersHoldNothing(Apply(s, e))
  {
    if e.Advance? {
      var t := e.t;
      NextHolds(s, Top(s, t));
      forall u | u in Apply(s, e).sleeping
        ensures Busy(Apply(s, e), u) && Top(Apply(s, e), u).Wait? && Top(Apply(s, e), u).phase.Blocked?
      {
        EffectOnSleeping(s, t, Top(s, t), u);
      }
    } else {
      OtherStepsHoldNothing(s, e);
    }
  }

  // Steps that push or replace a frame put nothing on the stack that holds a mutex.
  lemma OtherFramesHoldNothing(s: State, e: Event)
    requires Enabled(s, e) && !e.Advance?
    ensures |NewFrames(s, e)| <= 1
    ensures |NewFrames(s, e)| == 1 ==> Holds(NewFrames(s, e)[0]) == None
    ensures Data(s, e).sleeping <= s.sleeping
    ensures e.WakeUp? || e.Drop? || (Replaces(e) ==> !(Top(s, e.t).Wait? && Top(s, e.t).phase.Blocked?))
  {
  }

  lemma OtherStepsHoldNothing(s: State, e: Event)
    requires CallersHoldNothing(s) && Enabled(s, e) && !e.Advance?
    ensures CallersHoldNothing(Apply(s, e))
  {
    OtherFramesHoldNothing(s, e);
    var s' := Apply(s, e);
    if !(e.WakeUp? || e.Drop?) {
      CallerHoldsNothing(s, e);
    }
  }

  lemma CallerHoldsNothing(s: State, e: Event)
    requires CallersHoldNothing(s) && Enabled(s, e) && !e.Advance? && !e.WakeUp? && !e.Drop?
    ensures |NewFrames(s, e)| <= 1
    ensures forall i :: 0 <= i < |Stacks(s, e)[e.t]| - 1 ==> Holds(Stacks(s, e)[e.t][i]) == None
  {
    OtherFramesHoldNothing(s, e);
    var fs, fs' := s.threads[e.t], Stacks(s, e)[e.t];
    forall i | 0 <= i < |fs'| - 1 ensures Holds(fs'[i]) == None {
      assert fs'[i] == fs[i];
      // the code that calls into the client holds nothing
      assert i == |fs| - 1 ==> InUserCode(s, e.t);
    }
  }

  // A callee that holds a mutex after the step held it before, or has just found it free.
  lemma HolderAfterStep(s: State, e: Event, t: nat)
    requires CallersHoldNothing(s) && Enabled(s, e) && Busy(Apply(s, e), t) && Holds(Top(Apply(s, e), t)).Some?
    ensures || (Busy(s, t) && Top(s, t) == Top(Apply(s, e), t))
            || (e.Advance? && t == e.t && Frees(s, Holds(Top(Apply(s, e), t)).value))
  {
    if e.Advance? {
      NextHolds(s, Top(s, e.t));
    } else {
      OtherFramesHoldNothing(s, e);
    }
  }

  lemma StepKeepsExclusive(s: State, e: Event)
    requires MutexInv(s) && Enabled(s, e)
    ensures Exclusive(Apply(s, e))
  {
    var s' := Apply(s, e);
    forall t, u | 0 <= t < |s'.threads| && 0 <= u < |s'.threads| && Busy(s', t) && Busy(s', u)
      && Holds(Top(s', t)).Some? && Holds(Top(s', t)) == Holds(Top(s', u))
      ensures t == u
    {
      HolderAfterStep(s, e, t);
      HolderAfterStep(s, e, u);
    }
  }

  lemma {:induction false} RunsKeepMutexInv(s: State, es: seq<Event>)
    requires MutexInv(s) && Runs(s, es)
    ensures MutexInv(After(s, es))
    decreases |es|
  {
    if es != [] {
      StepKeepsCallersHoldNothing(s, es[0]);
      StepKeepsExclusive(s, es[0]);
      RunsKeepMutexInv(Apply(s, es[0]), es[1..]);
    }
  }

  lemma MutexInvHolds(s: State)
    requires Reachable(s)
    ensures MutexInv(s)
  {
    var n: nat, es :| Runs(Start(n), es) && After(Start(n), es) == s;
    RunsKeepMutexInv(Start(n), es);
  }

  // In every run: a thread holds at most one mutex, the client's or one token's, and none at all
  // while it runs the user's code, a listener or delivery_complete() included.
  lemma AtMostOneMutexEach(s: State, t: nat, i: nat, j: nat)
    requires Reachable(s) && t < |s.threads| && i < |s.threads[t]| && j < |s.threads[t]|
    ensures Holds(s.threads[t][i]).Some? && Holds(s.threads[t][j]).Some? ==> i == j
    ensures InUserCode(s, t) ==> Holds(s.threads[t][i]) == None
  {
    MutexInvHolds(s);
    OnlyCalleeHolds(s, t, i);
    OnlyCalleeHolds(s, t, j);
  }

  lemma OnlyCalleeHolds(s: State, t: nat, i: nat)
    requires MutexInv(s) && t < |s.threads| && i < |s.threads[t]|
    ensures Holds(s.threads[t][i]).Some? ==> i == |s.threads[t]| - 1 && !InUserCode(s, t)
  {
  }

  // A thread that only a mutex keeps from advancing.
  ghost predicate Waits(s: State, t: nat, m: Mutex) {
    Busy(s, t) && t !in s.sleeping && Takes(Top(s, t)) == Some(m) && !Frees(s, m)
  }

  lemma WaitsForHolder(s: State, t: nat, m: Mutex) returns (u: nat)
    requires MutexInv(s) && Waits(s, t, m)
    ensures u != t && Busy(s, u) && Holds(Top(s, u)) == Some(m) && Takes(Top(s, u)) == None
  {
    var i: int;
    u, i :| 0 <= u < |s.threads| && 0 <= i < |s.threads[u]| && Holds(s.threads[u][i]) == Some(m);
  }

  // In every run: whoever holds a mutex can go on and release it without taking another, so a
  // thread that waits for a mutex never waits for a cycle of threads.
  lemma HolderCanAlwaysAdvance(s: State, t: nat, m: Mutex) returns (u: nat)
    requires Reachable(s) && Waits(s, t, m)
    ensures u != t && Busy(s, u) && Holds(Top(s, u)) == Some(m) && Takes(Top(s, u)) == None
    ensures Enabled(s, Advance(u)) && Frees(Apply(s, Advance(u)), m)
  {
    MutexInvHolds(s);
    u := WaitsForHolder(s, t, m);
    ReleasesMutex(s, u, m);
  }

  lemma ReleasesMutex(s: State, u: nat, m: Mutex)
    requires MutexInv(s) && Busy(s, u) && Holds(Top(s, u)) == Some(m)
    ensures Enabled(s, Advance(u)) && Frees(Apply(s, Advance(u)), m)
  {
    NextHolds(s, Top(s, u));
    var s' := Apply(s, Advance(u));
    forall v, j | 0 <= v < |s'.threads| && 0 <= j < |s'.threads[v]|
      ensures Holds(s'.threads[v][j]) != Some(m)
    {
      if v == u {
        if j < |s.threads[u]| - 1 {
          assert s'.threads[v][j] == s.threads[v][j];
        } else {
          assert s'.threads[v][j] in Next(s, Top(s, u));
        }
      } else if j == |s.threads[v]| - 1 {
        assert s'.threads[v][j] == Top(s, v);
      }
    }
  }

  // ---- Waiters ----

  // A callback for x that has set complete_ and has not called notify_all() yet.
  predicate MustNotify(f: Frame, x: Token) {
    f == Completion(x, InListener) || f == Completion(x, AtNotify)
  }

  function MustNotifyOf(x: Token): Weight {
    (f: Frame) => if MustNotify(f, x) then 1 else 0
  }

  predicate SleepsOn(s: State, t: nat, x: Token) {
    t in s.sleeping && Busy(s, t) && Top(s, t) == Wait(x, Blocked)
  }

  ghost predicate WaiterInv(s: State, x: Token) {
    forall t :: SleepsOn(s, t, x) && x in s.complete ==> SumAll(MustNotifyOf(x), s.threads) >= 1
  }

  lemma NextNotifies(s: State, t: nat, f: Frame, x: Token)
    ensures |Next(s, f)| <= 2
    ensures var few, s' := SumFew(MustNotifyOf(x), Next(s, f)), Effect(s, t, f);
      && (f == Completion(x, AtNotify) ==> s'.sleeping == s.sleeping - SleepersOn(s, x))
      && (f != Completion(x, AtNotify) ==> few >= MustNotifyOf(x)(f))
      && (x in s'.complete && x !in s.complete ==> few == 1 && MustNotifyOf(x)(f) == 0)
      && (t in s'.sleeping && t !in s.sleeping && Next(s, f) == [Wait(x, Blocked)] ==> x !in s'.complete)
  {
  }

  // Whoever sleeps on x after the step slept on it before, or has just found it incomplete.
  lemma SleptBefore(s: State, e: Event, t: nat, x: Token)
    requires CallersHoldNothing(s) && Enabled(s, e) && SleepsOn(Apply(s, e), t, x)
    ensures SleepsOn(s, t, x) || (e == Advance(t) && x !in Apply(s, e).complete)
  {
    if e.Advance? {
      EffectOnSleeping(s, e.t, Top(s, e.t), t);
      NextNotifies(s, e.t, Top(s, e.t), x);
    } else {
      OtherFramesHoldNothing(s, e);
    }
  }

  // While somebody sleeps on x, a step that leaves x complete leaves a callback to notify.
  lemma NotifierRemains(s: State, e: Event, t: nat, x: Token)
    requires CallersHoldNothing(s) && Enabled(s, e)
    requires SleepsOn(s, t, x) && SleepsOn(Apply(s, e), t, x) && x in Apply(s, e).complete
    requires x in s.complete ==> SumAll(MustNotifyOf(x), s.threads) >= 1
    ensures SumAll(MustNotifyOf(x), Stacks(s, e)) >= 1
  {
    SumStep(MustNotifyOf(x), s, e);
    if e.Advance? {
      NextNotifies(s, e.t, Top(s, e.t), x);
    } else {
      assert Data(s, e).complete == s.complete;
      assert Replaces(e) ==> !Top(s, e.t).Completion?;
    }
  }

  lemma StepKeepsWaiterInv(s: State, e: Event, x: Token)
    requires CallersHoldNothing(s) && WaiterInv(s, x) && Enabled(s, e)
    ensures WaiterInv(Apply(s, e), x)
  {
    var s' := Apply(s, e);
    forall t | SleepsOn(s', t, x) && x in s'.complete
      ensures SumAll(MustNotifyOf(x), s'.threads) >= 1
    {
      SleptBefore(s, e, t, x);
      NotifierRemains(s, e, t, x);
    }
  }

  lemma {:induction false} RunsKeepWaiterInv(s: State, es: seq<Event>, x: Token)
    requires CallersHoldNothing(s) && WaiterInv(s, x) && Runs(s, es)
    ensures WaiterInv(After(s, es), x)
    decreases |es|
  {
    if es != [] {
      StepKeepsCallersHoldNothing(s, es[0]);
      StepKeepsWaiterInv(s, es[0], x);
      RunsKeepWaiterInv(Apply(s, es[0]), es[1..], x);
    }
  }

  // In every run, over any mix of waiters, completions and resets: while a thread sleeps on a
  // complete token, some callback for that token has still to call notify_all().
  lemma NoWaiterIsLost(s: State, t: nat, x: Token)
    requires Reachable(s) && SleepsOn(s, t, x) && x in s.complete
    ensures exists u, i :: 0 <= u < |s.threads| && 0 <= i < |s.threads[u]| && MustNotify(s.threads[u][i], x)
  {
    var n: nat, es :| Runs(Start(n), es) && After(Start(n), es) == s;
    RunsKeepWaiterInv(Start(n), es, x);
    if forall u, i :: 0 <= u < |s.threads| && 0 <= i < |s.threads[u]| ==> !MustNotify(s.threads[u][i], x) {
      SumOfNone(MustNotifyOf(x), s.threads);
    }
  }

  // A sleeper stops sleeping only by a wake-up of its own or by the notify_all() of a callback
  // for its token.
  lemma SleeperStays(s: State, e: Event, t: nat, x: Token)
    requires CallersHoldNothing(s) && Enabled(s, e) && SleepsOn(s, t, x) && !SleepsOn(Apply(s, e), t, x)
    ensures e == WakeUp(t) || (e.Advance? && Top(s, e.t) == Completion(x, AtNotify))
  {
    if e.Advance? {
      assert t != e.t;
      OnlyNotifyEndsSleep(s, e.t, Top(s, e.t), t);
    } else {
      OtherFramesHoldNothing(s, e);
    }
  }

  lemma OnlyNotifyEndsSleep(s: State, t: nat, f: Frame, u: nat)
    requires u in s.sleeping && u !in Effect(s, t, f).sleeping
    ensures f.Completion? && f.step.AtNotify? && u in SleepersOn(s, f.tok)
  {
  }

  // A callback for x that has not called notify_all() yet.
  predicate Early(f: Frame, x: Token) {
    f.Completion? && f.tok == x && (f.step.AtComplete? || f.step.Completing? || f.step.InListener? || f.step.AtNotify?)
  }

  function EarlyOf(x: Token): Weight {
    (f: Frame) => if Early(f, x) then 1 else 0
  }

  // The one callback for x is still to notify whoever sleeps, or has done so.
  ghost predicate Guarded(s: State, t: nat, x: Token) {
    SumAll(EarlyOf(x), s.threads) <= 1 && (SleepsOn(s, t, x) || SumAll(EarlyOf(x), s.threads) == 0)
  }

  // The sleeper is not woken spuriously, and no other callback for its token begins.
  predicate Undisturbed(e: Event, t: nat, x: Token) {
    e != WakeUp(t) && !(e.LibraryCompletes? && e.tok == x)
  }

  lemma StepEarly(s: State, e: Event, x: Token)
    requires Enabled(s, e) && !(e.LibraryCompletes? && e.tok == x)
    ensures SumAll(EarlyOf(x), Stacks(s, e)) <= SumAll(EarlyOf(x), s.threads)
    ensures e.Advance? && Top(s, e.t) == Completion(x, AtNotify) ==>
      SumAll(EarlyOf(x), Stacks(s, e)) < SumAll(EarlyOf(x), s.threads)
  {
    SumStep(EarlyOf(x), s, e);
    if e.Advance? {
      NextEarly(s, Top(s, e.t), x);
    } else {
      OtherEarly(s, e, x);
    }
  }

  lemma NextEarly(s: State, f: Frame, x: Token)
    ensures |Next(s, f)| <= 2
    ensures SumFew(EarlyOf(x), Next(s, f)) == if f == Completion(x, AtNotify) then 0 else EarlyOf(x)(f)
  {
  }

  lemma OtherEarly(s: State, e: Event, x: Token)
    requires Enabled(s, e) && !e.Advance? && !(e.LibraryCompletes? && e.tok == x)
    ensures |NewFrames(s, e)| <= 2 && SumFew(EarlyOf(x), NewFrames(s, e)) == 0
    ensures Replaces(e) ==> EarlyOf(x)(Top(s, e.t)) == 0
  {
  }

  lemma StepKeepsGuarded(s: State, e: Event, t: nat, x: Token)
    requires CallersHoldNothing(s) && Guarded(s, t, x) && Enabled(s, e) && Undisturbed(e, t, x)
    ensures Guarded(Apply(s, e), t, x)
  {
    StepEarly(s, e, x);
    if SleepsOn(s, t, x) && !SleepsOn(Apply(s, e), t, x) {
      SleeperStays(s, e, t, x);
    }
  }

  // A thread sleeps in wait() and the one callback for its token has begun.  However the run goes
  // on, as long as the thread is not woken spuriously and no other callback for the token begins,
  // it sleeps until that callback's listener has returned and notify_all() has been called.
  lemma SignalledOnlyAfterListener(s: State, es: seq<Event>, t: nat, x: Token)
    requires Reachable(s) && Runs(s, es) && SleepsOn(s, t, x) && SumAll(EarlyOf(x), s.threads) == 1
    requires forall i :: 0 <= i < |es| ==> Undisturbed(es[i], t, x)
    ensures var s' := After(s, es);
      || SleepsOn(s', t, x)
      || forall u, i :: 0 <= u < |s'.threads| && 0 <= i < |s'.threads[u]| ==> !Early(s'.threads[u][i], x)
  {
    MutexInvHolds(s);
    RunsKeepGuarded(s, es, t, x);
    var s' := After(s, es);
    if !SleepsOn(s', t, x) {
      forall u, i | 0 <= u < |s'.threads| && 0 <= i < |s'.threads[u]| ensures !Early(s'.threads[u][i], x) {
        SumHas(EarlyOf(x), s'.threads, u, i);
      }
    }
  }

  lemma {:induction false} RunsKeepGuarded(s: State, es: seq<Event>, t: nat, x: Token)
    requires CallersHoldNothing(s) && Guarded(s, t, x) && Runs(s, es)
    requires forall i :: 0 <= i < |es| ==> Undisturbed(es[i], t, x)
    ensures Guarded(After(s, es), t, x)
    decreases |es|
  {
    if es != [] {
      StepKeepsGuarded(s, es[0], t, x);
      StepKeepsCallersHoldNothing(s, es[0]);
      RunsKeepGuarded(Apply(s, es[0]), es[1..], t, x);
    }
  }

  lemma {:induction false} RunsAppend(s: State, es: seq<Event>, e: Event)
    requires Runs(s, es) && Enabled(After(s, es), e)
    ensures Runs(s, es + [e]) && After(s, es + [e]) == Apply(After(s, es), e)
    decreases |es|
  {
    if es != [] {
      RunsAppend(Apply(s, es[0]), es[1..], e);
      assert (es + [e])[1..] == es[1..] + [e];
    }
  }

  // A run of two threads that ends in the state s.
  ghost predicate EndsIn(es: seq<Event>, s: State) {
    Runs(Start(2), es) && After(Start(2), es) == s
  }

  // With nothing but at most one frame on each of the two stacks.
  ghost predicate TwoThreads(s: State, f: seq<Frame>, g: seq<Frame>) {
    |f| <= 1 && |g| <= 1 && s.threads == [f, g] && s.sleeping == {}
  }

  lemma StaysSmall(s: State, e: Event, f: seq<Frame>, g: seq<Frame>)
    requires TwoThreads(s, f, g) && Enabled(s, e) && !e.Drop? && !e.WakeUp?
    requires |NewFrames(s, e)| <= 1 && Data(s, e).sleeping == {}
    requires e.t < 2 && (s.threads[e.t] == [] || Replaces(e))
    ensures var s' := Apply(s, e);
      if e.t == 0 then TwoThreads(s', NewFrames(s, e), g) else TwoThreads(s', f, NewFrames(s, e))
  {
    assert Stacks(s, e)[e.t] == NewFrames(s, e);
  }

  lemma Go(es: seq<Event>, s: State, e: Event, f: seq<Frame>, g: seq<Frame>) returns (es': seq<Event>, s': State)
    requires EndsIn(es, s) && TwoThreads(s, f, g) && Enabled(s, e) && !e.Drop? && !e.WakeUp?
    requires |NewFrames(s, e)| <= 1 && Data(s, e).sleeping == {}
    requires e.t < 2 && (s.threads[e.t] == [] || Replaces(e))
    ensures es' == es + [e] && s' == Apply(s, e) && EndsIn(es', s')
    ensures if e.t == 0 then TwoThreads(s', NewFrames(s, e), g) else TwoThreads(s', f, NewFrames(s, e))
  {
    RunsAppend(Start(2), es, e);
    es', s' := es + [e], Apply(s, e);
    StaysSmall(s, e, f, g);
  }

  // Thread 0 submits a request and adds its token.
  lemma SubmitAdded(x: Token) returns (es: seq<Event>, s: State)
    requires x.Plain?
    ensures EndsIn(es, s) && TwoThreads(s, [Submit(x, Other, Adding)], []) && s.complete == {}
  {
    es, s := [], Start(2);
    es, s := Go(es, s, BeginSubmit(0, Other, x), [], []);
    es, s := Go(es, s, Advance(0), [Submit(x, Other, AtAdd)], []);
  }

  // The library accepts it, and the function returns the token.
  lemma SubmitReturning(x: Token) returns (es: seq<Event>, s: State)
    requires x.Plain?
    ensures EndsIn(es, s) && TwoThreads(s, [Submit(x, Other, Returning)], []) && x in s.inFlight && s.complete == {}
  {
    es, s := SubmitAdded(x);
    es, s := Go(es, s, Advance(0), [Submit(x, Other, Adding)], []);
    es, s := Go(es, s, Verdict(0, true), [Submit(x, Other, Added)], []);
  }

  lemma SubmitAccepted(x: Token) returns (es: seq<Event>, s: State)
    requires x.Plain?
    ensures EndsIn(es, s) && TwoThreads(s, [], []) && x in s.inFlight && x in s.userRefs && s.complete == {}
  {
    es, s := SubmitReturning(x);
    es, s := Go(es, s, Advance(0), [Submit(x, Other, Returning)], []);
  }

  lemma CallbackLocked(x: Token) returns (es: seq<Event>, s: State)
    requires x.Plain?
    ensures EndsIn(es, s) && TwoThreads(s, [Completion(x, Completing)], []) && x in s.userRefs
  {
    es, s := SubmitAccepted(x);
    es, s := Go(es, s, LibraryCompletes(0, x), [], []);
    es, s := Go(es, s, Advance(0), [Completion(x, AtComplete)], []);
  }

  lemma CallbackInListener(x: Token) returns (es: seq<Event>, s: State)
    requires x.Plain?
    ensures EndsIn(es, s) && TwoThreads(s, [Completion(x, InListener)], []) && x in s.userRefs && x in s.complete
  {
    es, s := CallbackLocked(x);
    es, s := Go(es, s, Advance(0), [Completion(x, Completing)], []);
  }

  // Another thread comes to test the token while the listener is running.
  lemma LateWaiterTests(x: Token) returns (es: seq<Event>, s: State)
    requires x.Plain?
    ensures EndsIn(es, s) && TwoThreads(s, [Completion(x, InListener)], [Wait(x, Testing)]) && x in s.complete
  {
    es, s := CallbackInListener(x);
    es, s := Go(es, s, BeginWait(1, x), [Completion(x, InListener)], []);
    es, s := Go(es, s, Advance(1), [Completion(x, InListener)], [Wait(x, AtWait)]);
  }

  // A thread that is not asleep yet has no such guarantee: complete_ is set before the listener
  // runs, so a wait() that begins then returns while the listener is still running.
  lemma LateWaiterOvertakesListener(x: Token) returns (es: seq<Event>, before: State, after: State)
    requires x.Plain?
    ensures EndsIn(es, before) && TwoThreads(before, [Completion(x, InListener)], [Wait(x, Testing)])
    ensures EndsIn(es + [Advance(1)], after) && TwoThreads(after, [Completion(x, InListener)], [])
  {
    es, before := LateWaiterTests(x);
    var es';
    es', after := Go(es, before, Advance(1), [Completion(x, InListener)], [Wait(x, Testing)]);
  }
}
