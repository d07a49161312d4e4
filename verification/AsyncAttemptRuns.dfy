/**
 The runs in which a token is completed twice without a reset in between, from any state in which a
 policy lets a reconnect() or a connect() begin too early, and with any number of other threads at
 work; and so the exact conditions for wait() to report the outcome of the attempt that it is for.
 */
module AsyncAttemptRuns {
  import opened Common
  import opened AsyncThreads
  import opened AsyncLedger
  import opened AsyncMutexes
  import opened AsyncPolicies
  import opened AsyncAttempts
  import T = Tokens

  // No other thread holds the mutex.
  predicate Unopposed(s: State, t: nat, m: Mutex) {
    forall v, i :: 0 <= v < |s.threads| && v != t && 0 <= i < |s.threads[v]| ==> Holds(s.threads[v][i]) != Some(m)
  }

  // The two mutexes that the functions which submit or complete x take are free.
  predicate Quiet(s: State, x: Token) {
    Frees(s, ClientMutex) && Frees(s, TokenMutex(x))
  }

  // s' differs from s, as far as the stacks are concerned, in that of thread t.
  predicate OnlyMoves(s: State, t: nat, s': State) {
    |s'.threads| == |s.threads| && forall v :: 0 <= v < |s.threads| && v != t ==> s'.threads[v] == s.threads[v]
  }

  lemma UnopposedIsEnabled(s: State, t: nat)
    requires Placed(s) && Busy(s, t) && t !in s.sleeping && !Asking(Top(s, t))
    requires Takes(Top(s, t)).Some? ==> Unopposed(s, t, Takes(Top(s, t)).value)
    ensures Enabled(s, Advance(t))
  {
    var f := Top(s, t);
    if Takes(f).Some? {
      forall v, i | 0 <= v < |s.threads| && 0 <= i < |s.threads[v]| ensures Holds(s.threads[v][i]) != Takes(f) {
        if v == t && i < |s.threads[t]| - 1 {
          assert PlacedIn(s.threads[t], i);
        }
      }
    }
  }

  // ---- A thread goes back to the library ----

  // Returning from the user's code, from remove_token(), or about to call it.
  predicate Leaving(f: Frame) {
    Calling(f) || f.Remove? || (f.Completion? && (f.step.AtNotify? || f.step.AtRemove?))
  }

  function StepsLeft(f: Frame): nat {
    match f
    case Completion(_, step) =>
      if step.InListener? then 8 else if step.AtNotify? then 7 else if step.AtRemove? then 6 else 1
    case Remove(_, stage) =>
      if stage.AtErase? then 4 else if stage.Erasing? then 3 else if stage.AtDeliver? then 2 else 1
    case _ => 1
  }

  ghost predicate OnWayOut(s: State, t: nat) {
    && t < |s.threads| && t !in s.sleeping
    && forall i :: 0 <= i < |s.threads[t]| ==> Leaving(s.threads[t][i])
  }

  lemma NextLeaves(s: State, t: nat, f: Frame)
    requires Leaving(f)
    ensures |Next(s, f)| <= 2 && SumFew(StepsLeft, Next(s, f)) < StepsLeft(f)
    ensures forall i :: 0 <= i < |Next(s, f)| ==> Leaving(Next(s, f)[i])
    ensures var s' := Effect(s, t, f);
      s'.marks == s.marks && s'.inFlight == s.inFlight && s'.created == s.created && s'.sleeping <= s.sleeping
    ensures !Asking(f) && (Takes(f).Some? ==> Takes(f) == Some(ClientMutex))
  {
  }

  lemma StepOut(p: Policy, n: nat, s: State, t: nat) returns (s': State)
    requires ReachableUnder(p, n, s) && OnWayOut(s, t) && s.threads[t] != [] && Unopposed(s, t, ClientMutex)
    ensures ReachableUnder(p, n, s') && OnWayOut(s', t) && OnlyMoves(s, t, s')
    ensures s'.marks == s.marks && s'.inFlight == s.inFlight
    ensures SumStack(StepsLeft, s'.threads[t]) < SumStack(StepsLeft, s.threads[t])
  {
    ReachableIsSound(p, n, s);
    var f := Top(s, t);
    NextLeaves(s, t, f);
    UnopposedIsEnabled(s, t);
    s' := Advances(p, n, s, t);
    SumConcat(StepsLeft, Below(s, t), Next(s, f));
    SumFewIsSum(StepsLeft, Next(s, f));
    assert SumStack(StepsLeft, s.threads[t]) == SumStack(StepsLeft, Below(s, t)) + StepsLeft(f);
  }

  lemma {:induction false} GoesOut(p: Policy, n: nat, s: State, t: nat) returns (s': State)
    requires ReachableUnder(p, n, s) && OnWayOut(s, t) && Unopposed(s, t, ClientMutex)
    ensures ReachableUnder(p, n, s') && OnlyMoves(s, t, s') && s'.threads[t] == []
    ensures s'.marks == s.marks && s'.inFlight == s.inFlight
    decreases SumStack(StepsLeft, s.threads[t])
  {
    s' := s;
    if s.threads[t] != [] {
      s' := StepOut(p, n, s, t);
      s' := GoesOut(p, n, s', t);
    }
  }

  // Whoever is in the user's code, or has just come back there, is on the way out.
  lemma UserCodeIsOnWayOut(p: Policy, n: nat, s: State, t: nat)
    requires ReachableUnder(p, n, s) && InUserCode(s, t)
    ensures OnWayOut(s, t)
  {
    ReachableIsSound(p, n, s);
    forall i | 0 <= i < |s.threads[t]| ensures Leaving(s.threads[t][i]) {
      assert PlacedIn(s.threads[t], i);
    }
  }

  lemma BelowIsOnWayOut(p: Policy, n: nat, s: State, t: nat, s': State)
    requires ReachableUnder(p, n, s) && Busy(s, t) && t !in s'.sleeping
    requires s'.threads == s.threads[t := Below(s, t)]
    ensures OnWayOut(s', t)
  {
    ReachableIsSound(p, n, s);
    forall i | 0 <= i < |s'.threads[t]| ensures Leaving(s'.threads[t][i]) {
      assert PlacedIn(s.threads[t], i);
    }
  }

  // ---- Completions ----

  lemma Completes(p: Policy, n: nat, s: State, u: nat, x: Token) returns (s': State)
    requires ReachableUnder(p, n, s) && CalleeIs(s, u, Completion(x, AtComplete)) && Quiet(s, x)
    ensures ReachableUnder(p, n, s') && OnlyMoves(s, u, s') && InUserCode(s', u)
    ensures s'.inFlight == s.inFlight && s'.marks == s.marks + [WasCompleted(x)]
  {
    var s1 := Advances(p, n, s, u);
    assert CalleeIs(s1, u, Completion(x, Completing));
    s' := Advances(p, n, s1, u);
    assert Top(s', u) == Completion(x, InListener);
  }

  // The callback runs to its end.
  lemma CallbackRuns(p: Policy, n: nat, s: State, u: nat, x: Token) returns (s': State)
    requires ReachableUnder(p, n, s) && CalleeIs(s, u, Completion(x, AtComplete)) && Quiet(s, x)
    ensures ReachableUnder(p, n, s') && Quiet(s', x) && u < |s'.threads| && s'.threads[u] == []
    ensures s'.inFlight == s.inFlight && s'.marks == s.marks + [WasCompleted(x)]
  {
    var s1 := Completes(p, n, s, u, x);
    UserCodeIsOnWayOut(p, n, s1, u);
    s' := GoesOut(p, n, s1, u);
  }

  lemma CallbackEnters(s: State, u: nat, x: Token)
    requires u < |s.threads| && s.threads[u] == [] && x in s.inFlight && Quiet(s, x)
    ensures Enabled(s, LibraryCompletes(u, x))
    ensures var s' := Apply(s, LibraryCompletes(u, x));
      && s'.threads == s.threads[u := [Completion(x, AtComplete)]] && Quiet(s', x)
      && s'.inFlight == s.inFlight - multiset{x} && s'.marks == s.marks
  {
    assert Stacks(s, LibraryCompletes(u, x))[u] == [Completion(x, AtComplete)];
  }

  lemma CallbackBegins(p: Policy, n: nat, s: State, u: nat, x: Token) returns (s': State)
    requires ReachableUnder(p, n, s) && u < |s.threads| && s.threads[u] == [] && x in s.inFlight && Quiet(s, x)
    ensures ReachableUnder(p, n, s') && CalleeIs(s', u, Completion(x, AtComplete)) && Quiet(s', x)
    ensures s'.inFlight == s.inFlight - multiset{x} && s'.marks == s.marks
  {
    CallbackEnters(s, u, x);
    s' := Proceeds(p, n, s, LibraryCompletes(u, x));
    CalleeAwake(p, n, s', u, Completion(x, AtComplete));
  }

  // A callback is about to complete x, and another submission of x is in flight.
  lemma CompletedTwice(p: Policy, n: nat, s: State, u: nat, x: Token) returns (s': State)
    requires ReachableUnder(p, n, s) && CalleeIs(s, u, Completion(x, AtComplete)) && Quiet(s, x) && x in s.inFlight
    ensures ReachableUnder(p, n, s') && CompletionsSince(s'.marks, x) >= 2
  {
    var s1 := CallbackRuns(p, n, s, u, x);
    var s2 := CallbackBegins(p, n, s1, u, x);
    s' := CallbackRuns(p, n, s2, u, x);
    MarkAdded(s.marks, WasCompleted(x), x);
    MarkAdded(s1.marks, WasCompleted(x), x);
  }

  // ---- Submissions ----

  predicate Submitting(f: Frame, x: Token) {
    Awaits(f, x) && !f.Completion?
  }

  predicate Accepted(f: Frame) {
    (f.Submit? && f.at.Returning?) || (f.Connect? && f.pc.Granted?)
  }

  function ToGo(f: Frame): nat {
    match f
    case Submit(_, _, at) =>
      if at.AtReset? then 5 else if at.Resetting? then 4 else if at.AtAdd? then 3 else if at.Adding? then 2 else 1
    case Connect(_, pc) =>
      if pc.Made? then 5 else if pc.ToList? then 4 else if pc.Listing? then 3 else if pc.ToHand? then 2 else 1
    case _ => 0
  }

  lemma NextSubmits(s: State, t: nat, f: Frame, x: Token) returns (f': Frame)
    requires Submitting(f, x) && ToGo(f) > 1 && s.connTok == Some(x)
    ensures Next(s, f) == [f'] && Submitting(f', x) && ToGo(f') < ToGo(f) && !Asking(f)
    ensures ToReset(f', x) <==> ToReset(f, x) && !Resets(f, x)
    ensures Takes(f).Some? ==> Takes(f) == Some(ClientMutex) || Takes(f) == Some(TokenMutex(x))
    ensures var s' := Effect(s, t, f);
      && s'.connTok == s.connTok && s'.sleeping == s.sleeping && s'.inFlight == s.inFlight
      && s'.marks == if Resets(f, x) then s.marks + [WasReset(x)] else s.marks
  {
    f' := Next(s, f)[0];
  }

  lemma SubmitsOn(p: Policy, n: nat, s: State, t: nat, f: Frame, x: Token) returns (s': State, f': Frame)
    requires ReachableUnder(p, n, s) && CalleeIs(s, t, f) && Submitting(f, x) && s.connTok == Some(x) && ToGo(f) > 1
    requires Unopposed(s, t, ClientMutex) && Unopposed(s, t, TokenMutex(x))
    ensures ReachableUnder(p, n, s') && s'.threads == s.threads[t := Below(s, t) + [f']] && CalleeIs(s', t, f')
    ensures Submitting(f', x) && ToGo(f') < ToGo(f) && s'.connTok == s.connTok && s'.inFlight == s.inFlight
    ensures ToReset(f', x) <==> ToReset(f, x) && !Resets(f, x)
    ensures s'.marks == if Resets(f, x) then s.marks + [WasReset(x)] else s.marks
  {
    ReachableIsSound(p, n, s);
    f' := NextSubmits(s, t, f, x);
    UnopposedIsEnabled(s, t);
    s' := Advances(p, n, s, t);
    assert s'.threads[t] == Below(s, t) + [f'];
  }

  lemma IsAccepted(p: Policy, n: nat, s: State, t: nat, f: Frame, x: Token) returns (s': State, f': Frame)
    requires ReachableUnder(p, n, s) && CalleeIs(s, t, f) && Submitting(f, x) && s.connTok == Some(x) && ToGo(f) == 1
    ensures ReachableUnder(p, n, s') && s'.threads == s.threads[t := Below(s, t) + [f']] && CalleeIs(s', t, f')
    ensures Accepted(f') && s'.connTok == s.connTok && s'.inFlight == s.inFlight + multiset{x} && s'.marks == s.marks
  {
    ReachableIsSound(p, n, s);
    assert TypedFrame(s.threads[t][|s.threads[t]| - 1]);
    s' := Proceeds(p, n, s, Verdict(t, true));
    f' := NewFrames(s, Verdict(t, true))[0];
    assert s'.threads[t] == Below(s, t) + [f'];
  }

  lemma {:induction false} Reaches(p: Policy, n: nat, s: State, t: nat, f: Frame, x: Token)
    returns (s': State, f': Frame)
    requires ReachableUnder(p, n, s) && CalleeIs(s, t, f) && Submitting(f, x) && s.connTok == Some(x)
    requires Unopposed(s, t, ClientMutex) && Unopposed(s, t, TokenMutex(x))
    ensures ReachableUnder(p, n, s') && s'.threads == s.threads[t := Below(s, t) + [f']] && CalleeIs(s', t, f')
    ensures Accepted(f') && s'.connTok == s.connTok && s'.inFlight == s.inFlight + multiset{x}
    ensures s'.marks == if ToReset(f, x) then s.marks + [WasReset(x)] else s.marks
    decreases ToGo(f)
  {
    if ToGo(f) == 1 {
      s', f' := IsAccepted(p, n, s, t, f, x);
    } else {
      var s1, f1 := SubmitsOn(p, n, s, t, f, x);
      s', f' := Reaches(p, n, s1, t, f1, x);
      assert Below(s1, t) == Below(s, t);
    }
  }

  // The function hands x to the library, nobody else moving.
  lemma HandsOver(p: Policy, n: nat, s: State, t: nat, f: Frame, x: Token) returns (s': State, f': Frame)
    requires ReachableUnder(p, n, s) && CalleeIs(s, t, f) && Submitting(f, x) && s.connTok == Some(x) && Quiet(s, x)
    ensures ReachableUnder(p, n, s') && CalleeIs(s', t, f') && OnlyMoves(s, t, s') && Quiet(s', x)
    ensures Accepted(f') && s'.connTok == s.connTok && s'.inFlight == s.inFlight + multiset{x}
    ensures s'.marks == if ToReset(f, x) then s.marks + [WasReset(x)] else s.marks
  {
    s', f' := Reaches(p, n, s, t, f, x);
    forall v, i | 0 <= v < |s'.threads| && 0 <= i < |s'.threads[v]|
      ensures Holds(s'.threads[v][i]) != Some(ClientMutex) && Holds(s'.threads[v][i]) != Some(TokenMutex(x))
    {
      assert (v == t && i == |s'.threads[t]| - 1) || (i < |s.threads[v]| && s'.threads[v][i] == s.threads[v][i]);
    }
  }

  lemma AcceptedReturns(s: State, t: nat, f: Frame)
    requires Accepted(f)
    ensures Next(s, f) == [] && Takes(f) == None && !Asking(f)
    ensures var s' := Effect(s, t, f);
      s'.marks == s.marks && s'.inFlight == s.inFlight && s'.sleeping == s.sleeping
  {
  }

  lemma ReturnsToUser(p: Policy, n: nat, s: State, t: nat, f: Frame) returns (s': State)
    requires ReachableUnder(p, n, s) && CalleeIs(s, t, f) && Accepted(f)
    ensures ReachableUnder(p, n, s') && s'.threads == s.threads[t := Below(s, t)] && OnWayOut(s', t)
    ensures s'.inFlight == s.inFlight && s'.marks == s.marks
  {
    AcceptedReturns(s, t, f);
    s' := Advances(p, n, s, t);
    assert Below(s, t) + [] == Below(s, t);
    BelowIsOnWayOut(p, n, s, t, s');
  }

  // The function returns, and so does the user's code that called it.
  lemma Returns(p: Policy, n: nat, s: State, t: nat, f: Frame, x: Token) returns (s': State)
    requires ReachableUnder(p, n, s) && CalleeIs(s, t, f) && Accepted(f) && Quiet(s, x)
    ensures ReachableUnder(p, n, s') && Quiet(s', x) && t < |s'.threads| && s'.threads[t] == []
    ensures s'.inFlight == s.inFlight && s'.marks == s.marks
  {
    var s1 := ReturnsToUser(p, n, s, t, f);
    s' := GoesOut(p, n, s1, t);
  }

  // ---- Two completions ----

  lemma TwoInFlight(p: Policy, n: nat, s: State, t: nat, f: Frame, x: Token) returns (s': State)
    requires ReachableUnder(p, n, s) && CalleeIs(s, t, f) && Accepted(f) && Quiet(s, x) && s.inFlight[x] >= 2
    ensures ReachableUnder(p, n, s') && CompletionsSince(s'.marks, x) >= 2
  {
    var s1 := Returns(p, n, s, t, f, x);
    var s2 := CallbackBegins(p, n, s1, t, x);
    s' := CompletedTwice(p, n, s2, t, x);
  }

  // Thread t submits the token in connTok_, of which another submission is in flight already.
  lemma MeetsFlight(p: Policy, n: nat, s: State, t: nat, g: Frame, x: Token) returns (s': State)
    requires ReachableUnder(p, n, s) && Quiet(s, x) && s.connTok == Some(x) && x in s.inFlight
    requires CalleeIs(s, t, g) && Submitting(g, x)
    ensures ReachableUnder(p, n, s') && CompletionsSince(s'.marks, x) >= 2
  {
    var s1, g1 := HandsOver(p, n, s, t, g, x);
    s' := TwoInFlight(p, n, s1, t, g1, x);
  }

  lemma StaysAside(p: Policy, n: nat, s: State, t: nat, s': State, u: nat, f: Frame)
    requires ReachableUnder(p, n, s') && OnlyMoves(s, t, s') && u != t && CalleeIs(s, u, f) && !f.Wait?
    ensures CalleeIs(s', u, f)
  {
    CalleeAwake(p, n, s', u, f);
  }

  // Another thread is about to complete it.
  lemma MeetsCallback(p: Policy, n: nat, s: State, t: nat, g: Frame, u: nat, x: Token) returns (s': State)
    requires ReachableUnder(p, n, s) && Quiet(s, x) && s.connTok == Some(x) && t != u
    requires CalleeIs(s, t, g) && Submitting(g, x) && CalleeIs(s, u, Completion(x, AtComplete))
    ensures ReachableUnder(p, n, s') && CompletionsSince(s'.marks, x) >= 2
  {
    var s1, g1 := HandsOver(p, n, s, t, g, x);
    StaysAside(p, n, s, t, s1, u, Completion(x, AtComplete));
    s' := CompletedTwice(p, n, s1, u, x);
  }

  // Another thread submits it too.
  lemma MeetsSubmission(p: Policy, n: nat, s: State, t: nat, g: Frame, u: nat, f: Frame, x: Token) returns (s': State)
    requires ReachableUnder(p, n, s) && Quiet(s, x) && s.connTok == Some(x) && t != u
    requires CalleeIs(s, t, g) && Submitting(g, x) && CalleeIs(s, u, f) && Submitting(f, x)
    ensures ReachableUnder(p, n, s') && CompletionsSince(s'.marks, x) >= 2
  {
    var s1, f1 := HandsOver(p, n, s, u, f, x);
    StaysAside(p, n, s, u, s1, t, g);
    s' := MeetsFlight(p, n, s1, t, g, x);
  }

  // ---- From the state in which the policy lets the call begin ----

  lemma NextAwaits(s: State, f: Frame, x: Token, m: Mutex)
    requires Awaits(f, x) && Holds(f) == Some(m)
    ensures |Next(s, f)| == 1 && Awaits(Next(s, f)[0], x)
  {
  }

  lemma ReleasedElsewhere(p: Policy, n: nat, s: State, m: Mutex, v: nat, s': State, u: nat, f: Frame)
    requires ReachableUnder(p, n, s') && Released(s, m, v, s') && CalleeIs(s, u, f) && !f.Wait? && (s' == s || v != u)
    ensures CalleeIs(s', u, f)
  {
    if s' != s {
      HolderEffect(s, m, v, s');
    }
    CalleeAwake(p, n, s', u, f);
  }

  // What awaits x does so after a mutex has been released.
  lemma ReleaseKeepsAwaiting(p: Policy, n: nat, s: State, m: Mutex, v: nat, s': State, u: nat, f: Frame, x: Token)
    returns (f': Frame)
    requires ReachableUnder(p, n, s') && Released(s, m, v, s') && CalleeIs(s, u, f) && Awaits(f, x)
    ensures CalleeIs(s', u, f') && Awaits(f', x)
  {
    f' := f;
    if s' != s && v == u {
      NextAwaits(s, f, x, m);
      f' := Next(s, f)[0];
      HolderGoesOn(p, n, s, m, u, s', f');
    } else {
      ReleasedElsewhere(p, n, s, m, v, s', u, f);
    }
  }

  lemma BecomesQuiet(p: Policy, n: nat, s: State, x: Token, t: nat, g: Frame) returns (s': State)
    requires ReachableUnder(p, n, s) && CalleeIs(s, t, g) && Holds(g) == None && !g.Wait?
    ensures ReachableUnder(p, n, s') && Quiet(s', x) && CalleeIs(s', t, g)
    ensures s'.connTok == s.connTok && s'.inFlight == s.inFlight
    ensures forall u, f :: CalleeIs(s, u, f) && Awaits(f, x) ==> exists f' :: CalleeIs(s', u, f') && Awaits(f', x)
  {
    var s1, v := FreeUp(p, n, s, ClientMutex);
    StaysBeside(p, n, s, ClientMutex, v, s1, t, g);
    HolderEffect(s, ClientMutex, v, s1);
    var w;
    s', w := FreeUp(p, n, s1, TokenMutex(x));
    StaysBeside(p, n, s1, TokenMutex(x), w, s', t, g);
    HolderEffect(s1, TokenMutex(x), w, s');
    forall u, f | CalleeIs(s, u, f) && Awaits(f, x) ensures exists f' :: CalleeIs(s', u, f') && Awaits(f', x) {
      var f1 := ReleaseKeepsAwaiting(p, n, s, ClientMutex, v, s1, u, f, x);
      var f' := ReleaseKeepsAwaiting(p, n, s1, TokenMutex(x), w, s', u, f1, x);
    }
  }

  // The call has begun, and finds the other submission or callback.
  lemma FindsOther(p: Policy, n: nat, s: State, t: nat, g: Frame, u: nat, f: Frame, x: Token) returns (s': State)
    requires ReachableUnder(p, n, s) && s.connTok == Some(x) && CalleeIs(s, t, g) && Submitting(g, x)
    requires Holds(g) == None && t != u && CalleeIs(s, u, f) && Awaits(f, x)
    ensures ReachableUnder(p, n, s') && CompletionsSince(s'.marks, x) >= 2
  {
    var s1 := BecomesQuiet(p, n, s, x, t, g);
    var f' :| CalleeIs(s1, u, f') && Awaits(f', x);
    if f'.Completion? {
      s' := MeetsCallback(p, n, s1, t, g, u, x);
    } else {
      s' := MeetsSubmission(p, n, s1, t, g, u, f', x);
    }
  }

  lemma FindsFlight(p: Policy, n: nat, s: State, t: nat, g: Frame, x: Token) returns (s': State)
    requires ReachableUnder(p, n, s) && s.connTok == Some(x) && CalleeIs(s, t, g) && Submitting(g, x)
    requires Holds(g) == None && x in s.inFlight
    ensures ReachableUnder(p, n, s') && CompletionsSince(s'.marks, x) >= 2
  {
    var s1 := BecomesQuiet(p, n, s, x, t, g);
    s' := MeetsFlight(p, n, s1, t, g, x);
  }

  lemma BeginsSubmitting(p: Policy, n: nat, s: State, e: Event) returns (s': State, g: Frame, x: Token)
    requires MayBegin(p, n, s, e)
    ensures ReachableUnder(p, n, s') && s'.threads == s.threads[e.t := s.threads[e.t] + [g]]
    ensures s'.connTok == Some(x) && s'.inFlight == s.inFlight && s'.sleeping == s.sleeping
    ensures CalleeIs(s', e.t, g) && Submitting(g, x) && Holds(g) == None && (e.BeginReconnect? ==> s.connTok == Some(x))
  {
    s' := Proceeds(p, n, s, e);
    g := NewFrames(s, e)[0];
    x := s'.connTok.value;
    assert s'.threads[e.t] == s.threads[e.t] + [g];
    CalleeAwake(p, n, s', e.t, g);
  }

  // What awaits x is a callee, and not that of a thread in the user's code.
  lemma AwaitingCallee(p: Policy, n: nat, s: State, t: nat, u: nat, i: nat, x: Token)
    requires ReachableUnder(p, n, s) && InUserCode(s, t)
    requires u < |s.threads| && i < |s.threads[u]| && Awaits(s.threads[u][i], x)
    ensures u != t && CalleeIs(s, u, s.threads[u][i])
  {
    ReachableIsSound(p, n, s);
    assert PlacedIn(s.threads[u], i);
    CalleeAwake(p, n, s, u, s.threads[u][i]);
  }

  lemma StaysOnPush(s: State, t: nat, g: Frame, s': State, u: nat, f: Frame)
    requires t < |s.threads| && u != t && CalleeIs(s, u, f) && s'.sleeping == s.sleeping
    requires s'.threads == s.threads[t := s.threads[t] + [g]]
    ensures CalleeIs(s', u, f)
  {
  }

  lemma WhatAwaits(s: State, e: Event, x: Token) returns (u: nat, i: nat)
    requires Enabled(s, e) && TooEarly(s, e) && (e.BeginReconnect? ==> s.connTok == Some(x) && x !in s.inFlight)
    ensures u < |s.threads| && i < |s.threads[u]| && Awaits(s.threads[u][i], x)
  {
    var v: int, j: int :| 0 <= v < |s.threads| && 0 <= j < |s.threads[v]| && Awaits(s.threads[v][j], x);
    u, i := v, j;
  }

  lemma BegunTooEarly(p: Policy, n: nat, s: State, e: Event) returns (s': State, x: Token)
    requires MayBegin(p, n, s, e) && TooEarly(s, e)
    ensures ReachableUnder(p, n, s') && CompletionsSince(s'.marks, x) >= 2
  {
    var s1, g;
    s1, g, x := BeginsSubmitting(p, n, s, e);
    if e.BeginReconnect? && x in s.inFlight {
      s' := FindsFlight(p, n, s1, e.t, g, x);
    } else {
      var u, i := WhatAwaits(s, e, x);
      AwaitingCallee(p, n, s, e.t, u, i, x);
      StaysOnPush(s, e.t, g, s1, u, s.threads[u][i]);
      s' := FindsOther(p, n, s1, e.t, g, u, s.threads[u][i], x);
    }
  }

  // ---- The exact conditions ----

  ghost predicate KeepsOneCompletion(p: Policy, n: nat) {
    forall s, x | ReachableUnder(p, n, s) :: CompletionsSince(s.marks, x) <= 1
  }

  // Under a policy no token is ever completed twice without a reset in between if and only if no
  // reconnect() begins while another completion of its token is on the way, and no connect() while
  // another has still to read in connTok_ what it hands to the library.
  lemma OneCompletionExactly(p: Policy, n: nat)
    ensures KeepsOneCompletion(p, n) <==> NeverTooEarly(p, n)
  {
    if NeverTooEarly(p, n) {
      forall s, x | ReachableUnder(p, n, s) ensures CompletionsSince(s.marks, x) <= 1 {
        OneCompletionPerAttempt(p, n, s, x);
      }
    } else {
      var s, e :| MayBegin(p, n, s, e) && TooEarly(s, e);
      var s', x := BegunTooEarly(p, n, s, e);
    }
  }

  // ---- What that means for wait() ----

  // The marks of x, and the marks that a history of its fields leaves.
  function MarksOf(marks: seq<Mark>, x: Token): seq<Mark> {
    if marks == [] then []
    else
      var last := marks[|marks| - 1];
      MarksOf(marks[..|marks| - 1], x) + if last.tok == x then [last] else []
  }

  function MarksLeft(hs: seq<T.Happening>, x: Token): seq<Mark> {
    if hs == [] then []
    else
      MarksLeft(hs[..|hs| - 1], x) +
      match hs[|hs| - 1]
      case Reset => [WasReset(x)]
      case Complete(_) => [WasCompleted(x)]
      case SetId(_) => []
  }

  lemma {:induction false} CountOnlyOwnMarks(marks: seq<Mark>, x: Token)
    ensures CompletionsSince(MarksOf(marks, x), x) == CompletionsSince(marks, x)
  {
    if marks != [] {
      var rest, last := marks[..|marks| - 1], marks[|marks| - 1];
      CountOnlyOwnMarks(rest, x);
      MarkAdded(MarksOf(rest, x), last, x);
      assert MarksOf(rest, x) + [] == MarksOf(rest, x);
    }
  }

  lemma {:induction false} CountInHistory(hs: seq<T.Happening>, x: Token)
    ensures CompletionsSince(MarksLeft(hs, x), x) == |T.SinceReset(hs)|
  {
    if hs != [] {
      var rest := hs[..|hs| - 1];
      CountInHistory(rest, x);
      MarkAdded(MarksLeft(rest, x), WasReset(x), x);
      MarkAdded(MarksLeft(rest, x), WasCompleted(x), x);
      assert MarksLeft(rest, x) + [] == MarksLeft(rest, x);
    }
  }

  // The outcome of wait() is that of the last completion on a fresh token.
  predicate LastDecides(typ: T.TokenType, k: nat, hs: seq<T.Happening>) {
    var cs := T.SinceReset(hs);
    cs != [] ==>
      (T.Throws(T.Replay(T.NewFields(typ, k), hs)) <==> T.Throws(T.Completed(T.NewFields(typ, k), cs[|cs| - 1])))
  }

  // In every run, whatever the callbacks report.
  ghost predicate WaitTellsTheLast(p: Policy, n: nat) {
    forall s, x, typ, k, hs | ReachableUnder(p, n, s) && MarksLeft(hs, x) == MarksOf(s.marks, x) ::
      LastDecides(typ, k, hs)
  }

  lemma OneDecides(p: Policy, n: nat, s: State, x: Token, typ: T.TokenType, k: nat, hs: seq<T.Happening>)
    requires NeverTooEarly(p, n) && ReachableUnder(p, n, s) && MarksLeft(hs, x) == MarksOf(s.marks, x)
    ensures LastDecides(typ, k, hs)
  {
    OneCompletionPerAttempt(p, n, s, x);
    CountOnlyOwnMarks(s.marks, x);
    CountInHistory(hs, x);
    if T.SinceReset(hs) != [] {
      T.WaitDependsOnTheOneCompletion(typ, k, hs, T.SinceReset(hs)[0]);
    }
  }

  // Every completion a failure of the v3 kind.
  function AllFailed(marks: seq<Mark>, x: Token): seq<T.Happening> {
    if marks == [] then []
    else
      var last := marks[|marks| - 1];
      AllFailed(marks[..|marks| - 1], x) +
      if last == WasReset(x) then [T.Reset]
      else if last == WasCompleted(x) then [T.Complete(T.Failure(Some(T.FailureData(0, -1, None))))]
      else []
  }

  lemma {:induction false} FailuresLeaveMarks(marks: seq<Mark>, x: Token)
    ensures MarksLeft(AllFailed(marks, x), x) == MarksOf(marks, x)
  {
    if marks != [] {
      var rest, last := marks[..|marks| - 1], marks[|marks| - 1];
      FailuresLeaveMarks(rest, x);
      var hs := AllFailed(marks, x);
      if last.tok == x {
        assert hs[..|hs| - 1] == AllFailed(rest, x);
      } else {
        assert hs == AllFailed(rest, x);
      }
    }
  }

  lemma {:induction false} FailuresLeaveReason(marks: seq<Mark>, x: Token)
    ensures var cs := T.SinceReset(AllFailed(marks, x));
      cs != [] ==> T.LastReason(cs) == T.MQTTPP_V3_CODE
  {
    if marks != [] {
      var rest, last := marks[..|marks| - 1], marks[|marks| - 1];
      FailuresLeaveReason(rest, x);
      var hs := AllFailed(marks, x);
      if last.tok == x {
        assert hs[..|hs| - 1] == AllFailed(rest, x);
      } else {
        assert hs == AllFailed(rest, x);
      }
    }
  }

  // A success after failures: the reason code of the failures stays, and wait() throws.
  lemma SuccessAfterFailures(marks: seq<Mark>, x: Token, typ: T.TokenType, k: nat) returns (hs: seq<T.Happening>)
    requires CompletionsSince(marks, x) > 0
    ensures MarksLeft(hs, x) == MarksOf(marks, x) + [WasCompleted(x)] && !LastDecides(typ, k, hs)
  {
    var earlier, c := AllFailed(marks, x), T.Success(Some(T.SuccessData(0, "")));
    hs := earlier + [T.Complete(c)];
    assert hs[..|hs| - 1] == earlier;
    FailuresLeaveMarks(marks, x);
    FailuresLeaveReason(marks, x);
    CountOnlyOwnMarks(marks, x);
    CountInHistory(earlier, x);
    T.WhenTheLastCompletionDecides(typ, k, hs, T.SinceReset(earlier), c);
  }

  lemma {:induction false} TwoMislead(marks: seq<Mark>, x: Token, typ: T.TokenType, k: nat)
    returns (hs: seq<T.Happening>)
    requires CompletionsSince(marks, x) >= 2
    ensures MarksLeft(hs, x) == MarksOf(marks, x) && !LastDecides(typ, k, hs)
  {
    var rest, last := marks[..|marks| - 1], marks[|marks| - 1];
    if last == WasCompleted(x) {
      hs := SuccessAfterFailures(rest, x, typ, k);
    } else {
      hs := TwoMislead(rest, x, typ, k);
      assert MarksOf(rest, x) + [] == MarksOf(rest, x);
    }
  }

  // Under a policy wait() always reports the last completion, and nothing of an earlier one, if and
  // only if the policy lets no reconnect() and no connect() begin too early.
  lemma WaitExactly(p: Policy, n: nat)
    ensures WaitTellsTheLast(p, n) <==> NeverTooEarly(p, n)
  {
    if NeverTooEarly(p, n) {
      forall s, x, typ, k: nat, hs | ReachableUnder(p, n, s) && MarksLeft(hs, x) == MarksOf(s.marks, x)
        ensures LastDecides(typ, k, hs)
      {
        OneDecides(p, n, s, x, typ, k, hs);
      }
    } else {
      var s, e :| MayBegin(p, n, s, e) && TooEarly(s, e);
      var s', x := BegunTooEarly(p, n, s, e);
      var hs := TwoMislead(s'.marks, x, T.CONNECT, 0);
    }
  }
}
