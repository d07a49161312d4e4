/**
 One attempt, one completion.  A token is submitted again by reconnect(), and by a connect() that
 finds it in connTok_.  When may they begin so that no token is ever completed twice without a
 reset in between, and wait() never reports the outcome of an earlier attempt?

 This module proves what is enough.  A reconnect() must not begin while another completion of its
 token is on the way; one whose callback has come to set complete_ already does no harm, nor does
 one whose listener runs or that is still in the pending list.  A connect() must not begin while
 another has still to read in connTok_ what it hands to the library.  `AsyncAttemptRuns` proves
 that less is not enough.
 */
module AsyncAttempts {
  import opened Common
  import opened AsyncThreads
  import opened AsyncLedger
  import opened AsyncMutexes
  import opened AsyncPolicies

  // ---- The condition ----

  // A reconnect() that has still to reset the token.
  predicate ToReset(f: Frame, x: Token) {
    f.Submit? && f.tok == x && (f.at.AtReset? || f.at.Resetting?)
  }

  // A submission that the library has still to answer, or a callback that has still to take the mutex.
  predicate Coming(f: Frame, x: Token) {
    match f
    case Submit(tok, _, at) => tok == x && (at.AtAdd? || at.Adding? || at.Added?)
    case Connect(seen, pc) => seen == Some(x) && pc.Handed?
    case Completion(tok, step) => tok == x && step.AtComplete?
    case _ => false
  }

  // A connect() that has still to read in connTok_ what it hands to the library.
  predicate BeforeHand(f: Frame) {
    f.Connect? && (f.pc.Made? || f.pc.ToList? || f.pc.Listing? || f.pc.ToHand?)
  }

  ghost predicate SomeBeforeHand(s: State) {
    exists t, i :: 0 <= t < |s.threads| && 0 <= i < |s.threads[t]| && BeforeHand(s.threads[t][i])
  }

  // Another completion of the token in connTok_ is on the way.
  predicate Awaits(f: Frame, x: Token) {
    ToReset(f, x) || Coming(f, x) || BeforeHand(f)
  }

  ghost predicate Due(s: State, x: Token) {
    || x in s.inFlight
    || exists t, i :: 0 <= t < |s.threads| && 0 <= i < |s.threads[t]| && Awaits(s.threads[t][i], x)
  }

  ghost predicate TooEarly(s: State, e: Event)
    requires Enabled(s, e)
  {
    (e.BeginConnect? && SomeBeforeHand(s)) || (e.BeginReconnect? && Due(s, s.connTok.value))
  }

  ghost predicate NeverTooEarly(p: Policy, n: nat) {
    forall s, e | MayBegin(p, n, s, e) :: !TooEarly(s, e)
  }

  // ---- What is still to be completed ----

  // How often x has been completed since its construction or its last reset.
  function CompletionsSince(marks: seq<Mark>, x: Token): nat {
    if marks == [] then 0
    else
      var last := marks[|marks| - 1];
      if last == WasReset(x) then 0
      else CompletionsSince(marks[..|marks| - 1], x) + if last == WasCompleted(x) then 1 else 0
  }

  function ToResetOf(x: Token): Weight {
    (f: Frame) => if ToReset(f, x) then 1 else 0
  }

  function ComingOf(x: Token): Weight {
    (f: Frame) => if Coming(f, x) then 1 else 0
  }

  function CompletingOf(x: Token): Weight {
    (f: Frame) => if f == Completion(x, Completing) then 1 else 0
  }

  function BeforeHandOf(): Weight {
    (f: Frame) => if BeforeHand(f) then 1 else 0
  }

  // What connect() will hand over is whatever connTok_ holds.
  ghost function Live(s: State, x: Token): nat {
    s.inFlight[x] + SumAll(ComingOf(x), s.threads)
    + if s.connTok == Some(x) then SumAll(BeforeHandOf(), s.threads) else 0
  }

  ghost predicate OneAttempt(s: State, x: Token) {
    && SumAll(ToResetOf(x), s.threads) + Live(s, x) <= 1
    && CompletionsSince(s.marks, x) + SumAll(CompletingOf(x), s.threads) + Live(s, x) <= 1
    && (x !in s.created ==> CompletionsSince(s.marks, x) == 0)
  }

  lemma MarkAdded(marks: seq<Mark>, m: Mark, x: Token)
    ensures CompletionsSince(marks + [m], x) ==
      if m == WasReset(x) then 0 else CompletionsSince(marks, x) + if m == WasCompleted(x) then 1 else 0
  {
    assert (marks + [m])[..|marks|] == marks;
  }

  // ---- A frame advances ----

  function If(b: bool): nat {
    if b then 1 else 0
  }

  predicate Resets(f: Frame, x: Token) {
    f.Submit? && f.tok == x && f.at.Resetting?
  }

  lemma NextLive(s: State, f: Frame, x: Token)
    requires !Asking(f)
    ensures |Next(s, f)| <= 2
    ensures var hand := if s.connTok == Some(x) then BeforeHandOf()(f) else 0;
      var hand' := if s.connTok == Some(x) then SumFew(BeforeHandOf(), Next(s, f)) else 0;
      SumFew(ComingOf(x), Next(s, f)) + hand' + If(f == Completion(x, AtComplete))
      == ComingOf(x)(f) + hand + If(Resets(f, x))
  {
  }

  lemma NextOthers(s: State, f: Frame, x: Token)
    requires !Asking(f)
    ensures |Next(s, f)| <= 2
    ensures SumFew(ToResetOf(x), Next(s, f)) + If(Resets(f, x)) == ToResetOf(x)(f)
    ensures SumFew(CompletingOf(x), Next(s, f)) + If(f == Completion(x, Completing))
         == If(f == Completion(x, AtComplete)) + CompletingOf(x)(f)
    ensures SumFew(BeforeHandOf(), Next(s, f)) <= BeforeHandOf()(f)
  {
  }

  lemma EffectOnMarks(s: State, t: nat, f: Frame, x: Token)
    ensures var s' := Effect(s, t, f);
      && s'.inFlight == s.inFlight && s'.created == s.created && (s'.connTok == s.connTok || s'.connTok == None)
      && CompletionsSince(s'.marks, x) ==
           if Resets(f, x) then 0 else CompletionsSince(s.marks, x) + If(f == Completion(x, Completing))
  {
    match f
    case Submit(tok, _, Resetting) => MarkAdded(s.marks, WasReset(tok), x);
    case Completion(tok, Completing) => MarkAdded(s.marks, WasCompleted(tok), x);
    case _ =>
  }

  lemma OneHolder(s: State, m: Mutex, t: nat, v: nat, j: nat)
    requires MutexInv(s) && Busy(s, t) && Holds(Top(s, t)) == Some(m)
    requires v < |s.threads| && j < |s.threads[v]| && Holds(s.threads[v][j]) == Some(m)
    ensures v == t && s.threads[v][j] == Top(s, t)
  {
    assert Busy(s, v) && s.threads[v][j] == Top(s, v);
  }

  // While a token is being reset no callback is setting its complete_.
  lemma ResettingAlone(s: State, t: nat, x: Token)
    requires MutexInv(s) && Busy(s, t) && Resets(Top(s, t), x)
    ensures SumAll(CompletingOf(x), s.threads) == 0
  {
    forall v, j | 0 <= v < |s.threads| && 0 <= j < |s.threads[v]|
      ensures CompletingOf(x)(s.threads[v][j]) == 0
    {
      if s.threads[v][j] == Completion(x, Completing) {
        OneHolder(s, TokenMutex(x), t, v, j);
        assert false;
      }
    }
    SumOfNone(CompletingOf(x), s.threads);
  }

  lemma AdvanceLive(s: State, t: nat, x: Token)
    requires Enabled(s, Advance(t))
    ensures Live(Apply(s, Advance(t)), x) + If(Top(s, t) == Completion(x, AtComplete))
         <= Live(s, x) + If(Resets(Top(s, t), x))
  {
    var f := Top(s, t);
    SumStep(ComingOf(x), s, Advance(t));
    SumStep(BeforeHandOf(), s, Advance(t));
    NextLive(s, f, x);
    NextOthers(s, f, x);
    EffectOnMarks(s, t, f, x);
  }

  lemma AdvanceKeepsOneAttempt(s: State, t: nat, x: Token)
    requires OneAttempt(s, x) && MutexInv(s) && AllMade(s) && Enabled(s, Advance(t))
    ensures OneAttempt(Apply(s, Advance(t)), x)
  {
    var f := Top(s, t);
    assert TokenOf(f).Some? ==> TokenOf(f).value in s.created;
    AdvanceLive(s, t, x);
    SumStep(ToResetOf(x), s, Advance(t));
    SumStep(CompletingOf(x), s, Advance(t));
    NextOthers(s, f, x);
    EffectOnMarks(s, t, f, x);
    if Resets(f, x) {
      ResettingAlone(s, t, x);
      SumHas(ToResetOf(x), s.threads, t, |s.threads[t]| - 1);
    }
  }

  // ---- The other steps ----

  // Nothing is on the way for a token that has not been made.
  lemma UnmadeIsIdle(s: State, x: Token)
    requires AllMade(s) && x !in s.created
    ensures SumAll(ToResetOf(x), s.threads) == 0 && Live(s, x) == 0 && SumAll(CompletingOf(x), s.threads) == 0
  {
    assert !Spoken(s, x);
    forall t, i | 0 <= t < |s.threads| && 0 <= i < |s.threads[t]| ensures TokenOf(s.threads[t][i]) != Some(x) {
      assert TokenOf(s.threads[t][i]).Some? ==> TokenOf(s.threads[t][i]).value in s.created;
    }
    SumOfNone(ToResetOf(x), s.threads);
    SumOfNone(ComingOf(x), s.threads);
    SumOfNone(CompletingOf(x), s.threads);
  }

  lemma NotDueIsIdle(s: State, x: Token)
    requires !Due(s, x)
    ensures SumAll(ToResetOf(x), s.threads) == 0 && Live(s, x) == 0
  {
    SumOfNone(ToResetOf(x), s.threads);
    SumOfNone(ComingOf(x), s.threads);
    SumOfNone(BeforeHandOf(), s.threads);
  }

  lemma SubmitKeepsOneAttempt(s: State, e: Event, x: Token)
    requires OneAttempt(s, x) && AllMade(s) && Enabled(s, e) && e.BeginSubmit?
    ensures OneAttempt(Apply(s, e), x)
  {
    SumStep(ToResetOf(x), s, e);
    SumStep(ComingOf(x), s, e);
    SumStep(CompletingOf(x), s, e);
    SumStep(BeforeHandOf(), s, e);
    if x !in s.created {
      UnmadeIsIdle(s, x);
    }
  }

  lemma ConnectKeepsOneAttempt(s: State, e: Event, x: Token)
    requires OneAttempt(s, x) && AllMade(s) && Enabled(s, e) && e.BeginConnect? && !SomeBeforeHand(s)
    ensures OneAttempt(Apply(s, e), x)
  {
    SumStep(ToResetOf(x), s, e);
    SumStep(ComingOf(x), s, e);
    SumStep(CompletingOf(x), s, e);
    SumStep(BeforeHandOf(), s, e);
    SumOfNone(BeforeHandOf(), s.threads);
    if x !in s.created {
      UnmadeIsIdle(s, x);
    }
  }

  lemma ReconnectKeepsOneAttempt(s: State, e: Event, x: Token)
    requires OneAttempt(s, x) && Enabled(s, e) && e.BeginReconnect? && !Due(s, s.connTok.value)
    ensures OneAttempt(Apply(s, e), x)
  {
    SumStep(ToResetOf(x), s, e);
    SumStep(ComingOf(x), s, e);
    SumStep(CompletingOf(x), s, e);
    SumStep(BeforeHandOf(), s, e);
    if s.connTok == Some(x) {
      NotDueIsIdle(s, x);
    }
  }

  lemma VerdictLive(s: State, t: nat, accepted: bool, x: Token)
    requires Enabled(s, Verdict(t, accepted))
    ensures var e := Verdict(t, accepted);
      && |NewFrames(s, e)| <= 2
      && SumFew(ToResetOf(x), NewFrames(s, e)) == SumFew(CompletingOf(x), NewFrames(s, e)) == 0
      && SumFew(BeforeHandOf(), NewFrames(s, e)) == 0
      && Data(s, e).inFlight[x] + SumFew(ComingOf(x), NewFrames(s, e)) <= s.inFlight[x] + ComingOf(x)(Top(s, t))
  {
  }

  // A callback begins, or a step that has nothing to do with completions.
  lemma QuietLive(s: State, e: Event, x: Token)
    requires Enabled(s, e) && !e.Advance? && !e.Verdict? && !e.BeginSubmit? && !e.BeginConnect? && !e.BeginReconnect?
    ensures |NewFrames(s, e)| <= 2
    ensures SumFew(ToResetOf(x), NewFrames(s, e)) == SumFew(CompletingOf(x), NewFrames(s, e)) == 0
    ensures SumFew(BeforeHandOf(), NewFrames(s, e)) == 0
    ensures Replaces(e) ==> ComingOf(x)(Top(s, e.t)) == 0
    ensures Data(s, e).inFlight[x] + SumFew(ComingOf(x), NewFrames(s, e)) <= s.inFlight[x]
  {
  }

  lemma OtherData(s: State, e: Event)
    requires Enabled(s, e) && !e.Advance? && !e.BeginConnect?
    ensures Data(s, e).marks == s.marks && Data(s, e).connTok == s.connTok && s.created <= Data(s, e).created
  {
  }

  lemma OtherKeepsOneAttempt(s: State, e: Event, x: Token)
    requires OneAttempt(s, x) && AllMade(s) && Enabled(s, e) && !TooEarly(s, e) && !e.Advance?
    ensures OneAttempt(Apply(s, e), x)
  {
    if e.BeginSubmit? {
      SubmitKeepsOneAttempt(s, e, x);
    } else if e.BeginConnect? {
      ConnectKeepsOneAttempt(s, e, x);
    } else if e.BeginReconnect? {
      ReconnectKeepsOneAttempt(s, e, x);
    } else {
      SumStep(ToResetOf(x), s, e);
      SumStep(ComingOf(x), s, e);
      SumStep(CompletingOf(x), s, e);
      SumStep(BeforeHandOf(), s, e);
      OtherData(s, e);
      if e.Verdict? {
        VerdictLive(s, e.t, e.accepted, x);
      } else {
        QuietLive(s, e, x);
      }
    }
  }

  // ---- Every step and every run under such a policy ----

  ghost predicate AttemptInv(s: State) {
    Sound(s) && forall x :: OneAttempt(s, x)
  }

  lemma StepKeepsAttemptInv(s: State, e: Event)
    requires AttemptInv(s) && Enabled(s, e) && !TooEarly(s, e)
    ensures AttemptInv(Apply(s, e))
  {
    StepKeepsSound(s, e);
    forall x ensures OneAttempt(Apply(s, e), x) {
      assert OneAttempt(s, x);
      if e.Advance? {
        AdvanceKeepsOneAttempt(s, e.t, x);
      } else {
        OtherKeepsOneAttempt(s, e, x);
      }
    }
  }

  lemma {:induction false} RunsKeepAttemptInv(p: Policy, n: nat, s: State, es: seq<Event>)
    requires NeverTooEarly(p, n) && ReachableUnder(p, n, s) && RunsUnder(p, s, es) && AttemptInv(s)
    ensures AttemptInv(After(s, es))
    decreases |es|
  {
    if es != [] {
      assert es[0].BeginConnect? || es[0].BeginReconnect? ==> MayBegin(p, n, s, es[0]);
      StepKeepsAttemptInv(s, es[0]);
      var s' := Proceeds(p, n, s, es[0]);
      RunsKeepAttemptInv(p, n, s', es[1..]);
    }
  }

  lemma StartsOneAttempt(n: nat, x: Token)
    ensures OneAttempt(Start(n), x)
  {
    SumOfNone(ToResetOf(x), Start(n).threads);
    SumOfNone(ComingOf(x), Start(n).threads);
    SumOfNone(CompletingOf(x), Start(n).threads);
    SumOfNone(BeforeHandOf(), Start(n).threads);
  }

  lemma OneAttemptHolds(p: Policy, n: nat, s: State, x: Token)
    requires NeverTooEarly(p, n) && ReachableUnder(p, n, s)
    ensures OneAttempt(s, x)
  {
    var es :| RunsUnder(p, Start(n), es) && After(Start(n), es) == s;
    forall y ensures OneAttempt(Start(n), y) {
      StartsOneAttempt(n, y);
    }
    StartsSound(n);
    StartReachable(p, n);
    RunsKeepAttemptInv(p, n, Start(n), es);
  }

  // Under such a policy a token has been completed at most once since its construction or its last
  // reset, and not at all while its submission is in flight.
  lemma OneCompletionPerAttempt(p: Policy, n: nat, s: State, x: Token)
    requires NeverTooEarly(p, n) && ReachableUnder(p, n, s)
    ensures CompletionsSince(s.marks, x) <= 1
    ensures x in s.inFlight ==> CompletionsSince(s.marks, x) == 0
  {
    OneAttemptHolds(p, n, s, x);
  }

  // complete_ says whether there has been such a completion, in every run.
  lemma {:induction false} CompleteMeansCompleted(s: State, es: seq<Event>, x: Token)
    requires Runs(s, es) && (x in s.complete <==> CompletionsSince(s.marks, x) > 0)
    ensures x in After(s, es).complete <==> CompletionsSince(After(s, es).marks, x) > 0
    decreases |es|
  {
    if es != [] {
      var e := es[0];
      if e.Advance? {
        EffectOnMarks(s, e.t, Top(s, e.t), x);
        EffectOnComplete(s, e.t, Top(s, e.t), x);
      }
      CompleteMeansCompleted(Apply(s, e), es[1..], x);
    }
  }

  lemma EffectOnComplete(s: State, t: nat, f: Frame, x: Token)
    ensures x in Effect(s, t, f).complete <==>
      if Resets(f, x) then false else x in s.complete || f == Completion(x, Completing)
  {
  }

  lemma CompletedAtLeastOnce(p: Policy, n: nat, s: State, x: Token)
    requires ReachableUnder(p, n, s) && x in s.complete
    ensures CompletionsSince(s.marks, x) > 0
  {
    var es :| RunsUnder(p, Start(n), es) && After(Start(n), es) == s;
    CompleteMeansCompleted(Start(n), es, x);
  }

  // So the condition is easy to keep to: once the token of connect() is complete, as it is when a
  // wait() has returned and in the listener of its callback, a reconnect() is not too early, unless
  // another reconnect() is about to reset it.
  lemma CompleteMayReconnect(p: Policy, n: nat, s: State, x: Token)
    requires NeverTooEarly(p, n) && ReachableUnder(p, n, s) && s.connTok == Some(x) && x in s.complete
    requires forall t, i :: 0 <= t < |s.threads| && 0 <= i < |s.threads[t]| ==> !ToReset(s.threads[t][i], x)
    ensures !Due(s, x)
  {
    OneAttemptHolds(p, n, s, x);
    CompletedAtLeastOnce(p, n, s, x);
    forall t, i | 0 <= t < |s.threads| && 0 <= i < |s.threads[t]| ensures !Awaits(s.threads[t][i], x) {
      SumHas(ComingOf(x), s.threads, t, i);
      SumHas(BeforeHandOf(), s.threads, t, i);
    }
  }
}
