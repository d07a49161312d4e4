/**
 What wait() promises its caller, and what keeps the shared data of the client and of a token
 consistent: wait() returns only when the token has been completed, a thread that finds it incomplete
 sleeps, and nobody touches shared data without the mutex that goes with it.
 */
module AsyncWaits {
  import opened Common
  import opened AsyncThreads
  import opened AsyncLedger
  import opened AsyncMutexes

  // ---- wait() returns only when the token is complete ----

  predicate WaitsAt(s: State, t: nat, k: nat, x: Token) {
    t < |s.threads| && k < |s.threads[t]| && s.threads[t][k].Wait? && s.threads[t][k].tok == x
  }

  // x is complete in some state of the run.
  ghost predicate CompleteSometime(s: State, es: seq<Event>, x: Token)
    requires Runs(s, es)
    decreases |es|
  {
    x in s.complete || (es != [] && CompleteSometime(Apply(s, es[0]), es[1..], x))
  }

  lemma StepKeepsWaiting(s: State, e: Event, t: nat, k: nat, x: Token)
    requires Enabled(s, e) && e != GiveUp(t) && WaitsAt(s, t, k, x) && x !in s.complete
    ensures WaitsAt(Apply(s, e), t, k, x)
  {
    if !(e.WakeUp? || e.Drop?) && e.t == t && Replaces(e) {
      if k == |s.threads[t]| - 1 {
        assert Top(s, t) == s.threads[t][k];
        assert e.Advance? && NextOfWait(s, Top(s, t)) != [];
        assert Stacks(s, e)[t][k] == NextOfWait(s, Top(s, t))[0];
      } else {
        assert Stacks(s, e)[t][k] == s.threads[t][k];
      }
    }
  }

  // A wait() that is over, and has not given up after its time, has seen the token complete: over
  // every run it was complete at some moment while the wait() was going on.
  lemma {:induction false} WaitEndsComplete(s: State, es: seq<Event>, t: nat, k: nat, x: Token)
    requires Runs(s, es) && WaitsAt(s, t, k, x) && !WaitsAt(After(s, es), t, k, x)
    requires GiveUp(t) !in es
    ensures CompleteSometime(s, es, x)
    decreases |es|
  {
    if x !in s.complete {
      StepKeepsWaiting(s, es[0], t, k, x);
      WaitEndsComplete(Apply(s, es[0]), es[1..], t, k, x);
    }
  }

  // A timed wait gives up only on an incomplete token, after looking at it.
  lemma GivesUpIncomplete(s: State, t: nat)
    requires Enabled(s, GiveUp(t))
    ensures exists x :: Top(s, t) == Wait(x, Testing) && x !in s.complete && Holds(Top(s, t)) == Some(TokenMutex(x))
  {
    assert Top(s, t) == Wait(Top(s, t).tok, Testing);
  }

  // ---- Sleeping and waking ----

  // Whoever finds the token incomplete goes to sleep, and whoever finds it complete returns.
  lemma TestDecides(s: State, t: nat, x: Token)
    requires Enabled(s, Advance(t)) && Top(s, t) == Wait(x, Testing)
    ensures x !in s.complete ==> SleepsOn(Apply(s, Advance(t)), t, x)
    ensures x in s.complete ==> Apply(s, Advance(t)).threads[t] == s.threads[t][..|s.threads[t]| - 1]
  {
    assert Stacks(s, Advance(t))[t] == s.threads[t][..|s.threads[t]| - 1] + NextOfWait(s, Top(s, t));
  }

  // notify_all() wakes everybody who sleeps on the token, and nobody else.
  lemma NotifyWakesAll(s: State, u: nat, x: Token, t: nat)
    requires Enabled(s, Advance(u)) && Top(s, u) == Completion(x, AtNotify) && t in s.sleeping && Busy(s, t)
    ensures t in Apply(s, Advance(u)).sleeping <==> !SleepsOn(s, t, x)
  {
  }

  // One who is woken looks again, and sleeps again when the token is still incomplete.
  lemma WokenLooksAgain(s: State, t: nat, x: Token) returns (s': State)
    requires CallersHoldNothing(s) && SleepsOn(s, t, x) && Frees(s, TokenMutex(x)) && x !in s.complete
    ensures var es := [WakeUp(t), Advance(t), Advance(t)];
      Runs(s, es) && After(s, es) == s' && SleepsOn(s', t, x) && s'.threads == s.threads
  {
    var s1 := Apply(s, WakeUp(t));
    assert Frees(s1, TokenMutex(x)) && Top(s1, t) == Wait(x, Blocked);
    var s2 := Apply(s1, Advance(t));
    assert s2.threads[t] == s.threads[t][..|s.threads[t]| - 1] + [Wait(x, Testing)];
    assert Top(s2, t) == Wait(x, Testing);
    s' := Apply(s2, Advance(t));
    TestDecides(s2, t, x);
    assert s'.threads[t] == s.threads[t];
    RunsOfThree(s, WakeUp(t), Advance(t), Advance(t));
  }

  // Or gives up, when its time is up, and then leaves everything as it is.
  lemma TimeIsUp(s: State, t: nat, x: Token) returns (s': State)
    requires CallersHoldNothing(s) && SleepsOn(s, t, x) && Frees(s, TokenMutex(x)) && x !in s.complete
    ensures var es := [WakeUp(t), Advance(t), GiveUp(t)]; Runs(s, es) && After(s, es) == s'
    ensures s' == s.(sleeping := s.sleeping - {t}, threads := s.threads[t := s.threads[t][..|s.threads[t]| - 1]])
  {
    var s1 := Apply(s, WakeUp(t));
    assert Frees(s1, TokenMutex(x)) && Top(s1, t) == Wait(x, Blocked);
    var s2 := Apply(s1, Advance(t));
    assert s2.threads[t] == s.threads[t][..|s.threads[t]| - 1] + [Wait(x, Testing)];
    assert Top(s2, t) == Wait(x, Testing);
    s' := Apply(s2, GiveUp(t));
    assert s'.threads[t] == s.threads[t][..|s.threads[t]| - 1];
    RunsOfThree(s, WakeUp(t), Advance(t), GiveUp(t));
  }

  lemma RunsOfThree(s: State, a: Event, b: Event, c: Event)
    requires Enabled(s, a) && Enabled(Apply(s, a), b) && Enabled(Apply(Apply(s, a), b), c)
    ensures Runs(s, [a, b, c]) && After(s, [a, b, c]) == Apply(Apply(Apply(s, a), b), c)
  {
    RunsAppend(s, [], a);
    RunsAppend(s, [a], b);
    RunsAppend(s, [a, b], c);
    assert [] + [a] == [a] && [a] + [b] == [a, b] && [a, b] + [c] == [a, b, c];
  }

  lemma EarlyWaiterTests(x: Token) returns (es: seq<Event>, s: State)
    requires x.Plain?
    ensures EndsIn(es, s) && TwoThreads(s, [], [Wait(x, Testing)]) && x in s.inFlight && x !in s.complete
  {
    es, s := SubmitAccepted(x);
    es, s := Go(es, s, BeginWait(1, x), [], []);
    es, s := Go(es, s, Advance(1), [], [Wait(x, AtWait)]);
  }

  // And somebody can come to sleep: thread 1 waits for what thread 0 has submitted.
  lemma SomebodySleeps(x: Token) returns (es: seq<Event>, s: State)
    requires x.Plain?
    ensures EndsIn(es, s) && SleepsOn(s, 1, x) && x in s.inFlight && x !in s.complete
  {
    es, s := EarlyWaiterTests(x);
    assert Top(s, 1) == Wait(x, Testing);
    TestDecides(s, 1, x);
    RunsAppend(Start(2), es, Advance(1));
    es, s := es + [Advance(1)], Apply(s, Advance(1));
  }

  // ---- No data without its mutex ----

  // A step that reads or writes the pending lists or userCallback_.
  predicate UsesClientData(f: Frame) {
    match f
    case Submit(_, _, at) => at.Adding?
    case Connect(_, pc) => pc.Listing?
    case Remove(_, stage) => stage.Erasing?
    case Query(holding) => holding
    case SetCallback(_, holding) => holding
    case _ => false
  }

  // A step that reads or writes complete_, or another field, of x.
  predicate UsesToken(f: Frame, x: Token) {
    match f
    case Submit(tok, _, at) => tok == x && (at.Resetting? || at.SettingId?)
    case Completion(tok, step) => tok == x && step.Completing?
    case Wait(tok, phase) => tok == x && phase.Testing?
    case _ => false
  }

  // What a step changes of them is changed by such a frame.
  lemma OnlyUsersChange(s: State, e: Event, x: Token)
    requires Enabled(s, e)
    ensures var s' := Apply(s, e);
      && (s'.pending != s.pending || s'.pendingDelivery != s.pendingDelivery || s'.callback != s.callback ==>
            e.Advance? && UsesClientData(Top(s, e.t)))
      && ((x in s'.complete <==> x !in s.complete) ==> e.Advance? && UsesToken(Top(s, e.t), x))
  {
  }

  // In every run no two threads are at the client's data, nor at those of one token.
  lemma NoRaces(s: State, t: nat, u: nat, x: Token)
    requires Reachable(s) && Busy(s, t) && Busy(s, u)
    requires (UsesClientData(Top(s, t)) && UsesClientData(Top(s, u)))
             || (UsesToken(Top(s, t), x) && UsesToken(Top(s, u), x))
    ensures t == u
  {
    MutexInvHolds(s);
  }

  // ---- What the user has set, and what the user holds ----

  // set_callback() comes to its end, the mutex still held.
  predicate Sets(s: State, e: Event)
    requires Enabled(s, e)
  {
    e.Advance? && Top(s, e.t).SetCallback? && Top(s, e.t).holding
  }

  // userCallback_ after a run, read off these steps.
  function LastSet(s: State, es: seq<Event>, atFirst: bool): bool
    requires Runs(s, es)
    decreases |es|
  {
    if es == [] then atFirst
    else LastSet(Apply(s, es[0]), es[1..], if Sets(s, es[0]) then Top(s, es[0].t).on else atFirst)
  }

  lemma StepSets(s: State, e: Event)
    requires Enabled(s, e)
    ensures Apply(s, e).callback == if Sets(s, e) then Top(s, e.t).on else s.callback
  {
  }

  // In every run the callback is the one that was set last.
  lemma {:induction false} CallbackIsTheLastSet(s: State, es: seq<Event>)
    requires Runs(s, es)
    ensures After(s, es).callback == LastSet(s, es, s.callback)
    decreases |es|
  {
    if es != [] {
      StepSets(s, es[0]);
      CallbackIsTheLastSet(Apply(s, es[0]), es[1..]);
    }
  }

  // A function returns x to its caller.
  predicate HandsBack(s: State, e: Event, x: Token)
    requires Enabled(s, e)
  {
    e.Advance? &&
    match Top(s, e.t)
    case Submit(tok, _, at) => at.Returning? && tok == x
    case Connect(_, pc) => pc.Granted? && s.connTok == Some(x)
    case _ => false
  }

  // Whether the user has a pointer to x after a run: the last thing that has happened to it is that a
  // function returned it, and not that the user gave it up.
  function LastReturned(s: State, es: seq<Event>, x: Token, atFirst: bool): bool
    requires Runs(s, es)
    decreases |es|
  {
    if es == [] then atFirst
    else
      var e := es[0];
      LastReturned(Apply(s, e), es[1..], x, (atFirst || HandsBack(s, e, x)) && e != Drop(x))
  }

  lemma EffectHandsBack(s: State, t: nat, x: Token)
    requires Enabled(s, Advance(t))
    ensures x in Effect(s, t, Top(s, t)).userRefs <==> x in s.userRefs || HandsBack(s, Advance(t), x)
  {
  }

  lemma StepHandsBack(s: State, e: Event, x: Token)
    requires Enabled(s, e)
    ensures x in Apply(s, e).userRefs <==> (x in s.userRefs || HandsBack(s, e, x)) && e != Drop(x)
  {
    if e.Advance? {
      EffectHandsBack(s, e.t, x);
    }
  }

  // In every run the user has exactly the pointers that were returned and not given up since.
  lemma {:induction false} UserHoldsWhatWasReturned(s: State, es: seq<Event>, x: Token)
    requires Runs(s, es)
    ensures x in After(s, es).userRefs <==> LastReturned(s, es, x, x in s.userRefs)
    decreases |es|
  {
    if es != [] {
      StepHandsBack(s, es[0], x);
      UserHoldsWhatWasReturned(Apply(s, es[0]), es[1..], x);
    }
  }
}
