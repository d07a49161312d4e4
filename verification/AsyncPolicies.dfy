/**
 What holds in every run of the asynchronous client, and how a run can be made to go on when a
 policy says which calls of connect() and reconnect() may begin.

 A policy sees the whole state and the call; every other step is free.
 */
module AsyncPolicies {
  import opened Common
  import opened AsyncThreads
  import opened AsyncLedger
  import opened AsyncMutexes

  type Policy = (State, Event) -> bool

  predicate Allowed(p: Policy, s: State, e: Event) {
    e.BeginConnect? || e.BeginReconnect? ==> p(s, e)
  }

  predicate RunsUnder(p: Policy, s: State, es: seq<Event>)
    decreases |es|
  {
    Runs(s, es) && (es != [] ==> Allowed(p, s, es[0]) && RunsUnder(p, Apply(s, es[0]), es[1..]))
  }

  ghost predicate ReachableUnder(p: Policy, n: nat, s: State) {
    exists es :: RunsUnder(p, Start(n), es) && After(Start(n), es) == s
  }

  // A state of a run of n threads in which a call of connect() or reconnect() is allowed.
  ghost predicate MayBegin(p: Policy, n: nat, s: State, e: Event) {
    ReachableUnder(p, n, s) && Enabled(s, e) && (e.BeginConnect? || e.BeginReconnect?) && p(s, e)
  }

  // ---- Nothing speaks of a token that has not been made ----

  function TokenOf(f: Frame): Option<Token> {
    match f
    case Submit(tok, _, _) => Some(tok)
    case Connect(seen, _) => seen
    case Completion(tok, _) => Some(tok)
    case Remove(tok, _) => Some(tok)
    case Wait(tok, _) => Some(tok)
    case _ => None
  }

  predicate InLists(s: State, x: Token) {
    x in s.pending || x in s.pendingDelivery
  }

  ghost predicate Spoken(s: State, x: Token) {
    InLists(s, x) || x in s.inFlight || x in s.userRefs || s.connTok == Some(x) || x in s.displaced
  }

  ghost predicate AllMade(s: State) {
    && (forall x :: Spoken(s, x) ==> x in s.created)
    && (forall t, i :: 0 <= t < |s.threads| && 0 <= i < |s.threads[t]| && TokenOf(s.threads[t][i]).Some? ==>
          TokenOf(s.threads[t][i]).value in s.created)
  }

  lemma SpokenBefore(s: State, t: nat, f: Frame, x: Token)
    requires Spoken(Effect(s, t, f), x)
    ensures Spoken(s, x) || TokenOf(f) == Some(x)
  {
    match f
    case Remove(tok, Erasing) =>
      RemoveFirstSubset(s.pending, tok);
      RemoveFirstSubset(s.pendingDelivery, tok);
    case _ =>
  }

  lemma EffectKeepsMade(s: State, t: nat, f: Frame)
    requires AllMade(s) && (TokenOf(f).Some? ==> TokenOf(f).value in s.created)
    ensures Effect(s, t, f).created == s.created
    ensures forall x :: Spoken(Effect(s, t, f), x) ==> x in s.created
  {
    forall x | Spoken(Effect(s, t, f), x) ensures x in s.created {
      SpokenBefore(s, t, f, x);
    }
  }

  lemma NextTokens(s: State, f: Frame)
    ensures |Next(s, f)| <= 2
    ensures forall i :: 0 <= i < |Next(s, f)| && TokenOf(Next(s, f)[i]).Some? ==>
      TokenOf(Next(s, f)[i]) == TokenOf(f) || TokenOf(Next(s, f)[i]) == s.connTok
  {
  }

  lemma OtherTokens(s: State, e: Event)
    requires AllMade(s) && Enabled(s, e) && !e.Advance?
    ensures |NewFrames(s, e)| <= 1
    ensures |NewFrames(s, e)| == 1 && TokenOf(NewFrames(s, e)[0]).Some? ==>
      TokenOf(NewFrames(s, e)[0]).value in Data(s, e).created
  {
    if e.Verdict? {
      assert TokenOf(Top(s, e.t)).Some? ==> TokenOf(Top(s, e.t)).value in s.created;
    }
  }

  lemma NewFramesMade(s: State, e: Event)
    requires AllMade(s) && Enabled(s, e)
    ensures forall i :: 0 <= i < |NewFrames(s, e)| && TokenOf(NewFrames(s, e)[i]).Some? ==>
      TokenOf(NewFrames(s, e)[i]).value in Data(s, e).created
  {
    if e.Advance? {
      var f := Top(s, e.t);
      assert TokenOf(f).Some? ==> TokenOf(f).value in s.created;
      NextTokens(s, f);
      EffectKeepsMade(s, e.t, f);
    } else {
      OtherTokens(s, e);
    }
  }

  lemma DataKeepsMade(s: State, e: Event, x: Token)
    requires AllMade(s) && Enabled(s, e) && Spoken(Data(s, e), x)
    ensures x in Data(s, e).created
  {
    if e.Advance? {
      assert TokenOf(Top(s, e.t)).Some? ==> TokenOf(Top(s, e.t)).value in s.created;
      EffectKeepsMade(s, e.t, Top(s, e.t));
    } else if e.Verdict? {
      assert TokenOf(Top(s, e.t)).Some? ==> TokenOf(Top(s, e.t)).value in s.created;
    }
  }

  lemma StepKeepsMade(s: State, e: Event)
    requires AllMade(s) && Enabled(s, e)
    ensures AllMade(Apply(s, e))
  {
    forall x | Spoken(Apply(s, e), x) ensures x in Apply(s, e).created {
      assert Spoken(Data(s, e), x);
      DataKeepsMade(s, e, x);
    }
    NewFramesMade(s, e);
    FramesAfterStep(s, e);
    CreatedGrows(s, e);
  }

  lemma CreatedGrows(s: State, e: Event)
    requires Enabled(s, e)
    ensures s.created <= Data(s, e).created
  {
  }

  // ---- What a caller has called ----

  // In remove_token(), in a listener, or in delivery_complete().
  predicate Calling(f: Frame) {
    match f
    case Submit(_, _, at) => at.Unwinding?
    case Connect(_, pc) => pc.Clearing?
    case Completion(_, step) => step.InListener? || step.Completed?
    case Remove(_, stage) => stage.InDeliver?
    case _ => false
  }

  // A connect() has no callee but remove_token(), and that one never runs the user's code.
  predicate PlacedIn(fs: seq<Frame>, i: nat)
    requires i < |fs|
  {
    i < |fs| - 1 ==>
      && Calling(fs[i])
      && (fs[i].Connect? ==>
            && i == |fs| - 2 && fs[i + 1].Remove? && fs[i + 1].tok.Connection?
            && (fs[i + 1].stage.AtErase? || fs[i + 1].stage.Erasing?))
  }

  ghost predicate Placed(s: State) {
    forall t, i :: 0 <= t < |s.threads| && 0 <= i < |s.threads[t]| ==> PlacedIn(s.threads[t], i)
  }

  lemma StepKeepsPlaced(s: State, e: Event)
    requires Typed(s) && Placed(s) && Enabled(s, e)
    ensures Placed(Apply(s, e))
  {
    if !(e.WakeUp? || e.Drop?) {
      forall i | 0 <= i < |Stacks(s, e)[e.t]| ensures PlacedIn(Stacks(s, e)[e.t], i) {
        StackPlaced(s, e, i);
      }
    }
  }

  lemma StackPlaced(s: State, e: Event, i: nat)
    requires Typed(s) && Placed(s) && Enabled(s, e) && !e.WakeUp? && !e.Drop? && i < |Stacks(s, e)[e.t]|
    ensures PlacedIn(Stacks(s, e)[e.t], i)
  {
    var fs := s.threads[e.t];
    if i < |fs| {
      assert PlacedIn(fs, i);
    }
  }

  ghost predicate Sound(s: State) {
    MutexInv(s) && Typed(s) && AllMade(s) && Placed(s)
  }

  lemma StepKeepsSound(s: State, e: Event)
    requires Sound(s) && Enabled(s, e)
    ensures Sound(Apply(s, e))
  {
    StepKeepsCallersHoldNothing(s, e);
    StepKeepsExclusive(s, e);
    StepKeepsTyped(s, e);
    StepKeepsMade(s, e);
    StepKeepsPlaced(s, e);
  }

  lemma {:induction false} RunsKeepSound(s: State, es: seq<Event>)
    requires Sound(s) && Runs(s, es)
    ensures Sound(After(s, es))
    decreases |es|
  {
    if es != [] {
      StepKeepsSound(s, es[0]);
      RunsKeepSound(Apply(s, es[0]), es[1..]);
    }
  }

  lemma StartsSound(n: nat)
    ensures Sound(Start(n))
  {
  }

  lemma ReachableIsSound(p: Policy, n: nat, s: State)
    requires ReachableUnder(p, n, s)
    ensures Sound(s)
  {
    var es :| RunsUnder(p, Start(n), es) && After(Start(n), es) == s;
    StartsSound(n);
    RunsKeepSound(Start(n), es);
  }

  // ---- Steps under a policy ----

  lemma {:induction false} AppendUnder(p: Policy, s: State, es: seq<Event>, e: Event)
    requires RunsUnder(p, s, es) && Enabled(After(s, es), e) && Allowed(p, After(s, es), e)
    ensures RunsUnder(p, s, es + [e]) && After(s, es + [e]) == Apply(After(s, es), e)
    decreases |es|
  {
    if es != [] {
      AppendUnder(p, Apply(s, es[0]), es[1..], e);
      assert (es + [e])[1..] == es[1..] + [e];
    }
  }

  lemma Proceeds(p: Policy, n: nat, s: State, e: Event) returns (s': State)
    requires ReachableUnder(p, n, s) && Enabled(s, e) && Allowed(p, s, e)
    ensures s' == Apply(s, e) && ReachableUnder(p, n, s')
  {
    var es :| RunsUnder(p, Start(n), es) && After(Start(n), es) == s;
    AppendUnder(p, Start(n), es, e);
    s' := Apply(s, e);
    assert RunsUnder(p, Start(n), es + [e]) && After(Start(n), es + [e]) == s';
  }

  lemma StartReachable(p: Policy, n: nat)
    ensures ReachableUnder(p, n, Start(n))
  {
    assert RunsUnder(p, Start(n), []) && After(Start(n), []) == Start(n);
  }

  // The rest of a thread's stack, below the callee.
  function Below(s: State, t: nat): seq<Frame>
    requires Busy(s, t)
  {
    s.threads[t][..|s.threads[t]| - 1]
  }

  // The callee of thread t advances.
  lemma Advances(p: Policy, n: nat, s: State, t: nat) returns (s': State)
    requires ReachableUnder(p, n, s) && Enabled(s, Advance(t))
    ensures ReachableUnder(p, n, s')
    ensures s' == Effect(s, t, Top(s, t)).(threads := s.threads[t := Below(s, t) + Next(s, Top(s, t))])
  {
    s' := Proceeds(p, n, s, Advance(t));
  }

  predicate CalleeIs(s: State, u: nat, f: Frame) {
    Busy(s, u) && Top(s, u) == f && u !in s.sleeping
  }

  lemma CalleeAwake(p: Policy, n: nat, s: State, u: nat, f: Frame)
    requires ReachableUnder(p, n, s) && Busy(s, u) && Top(s, u) == f && !f.Wait?
    ensures CalleeIs(s, u, f)
  {
    ReachableIsSound(p, n, s);
  }

  // ---- The mutexes ----

  lemma AdvanceKeepsFree(s: State, u: nat, m: Mutex)
    requires Frees(s, m) && Enabled(s, Advance(u)) && Takes(Top(s, u)) != Some(m)
    ensures Frees(Apply(s, Advance(u)), m)
  {
    NextHolds(s, Top(s, u));
    FramesAfterStep(s, Advance(u));
  }

  lemma VerdictKeepsFree(s: State, u: nat, accepted: bool, m: Mutex)
    requires Frees(s, m) && Enabled(s, Verdict(u, accepted))
    ensures Frees(Apply(s, Verdict(u, accepted)), m)
  {
    FramesAfterStep(s, Verdict(u, accepted));
  }

  // Thread v has released the mutex, or it was free.
  ghost predicate Released(s: State, m: Mutex, v: nat, s': State) {
    s' == s || (Busy(s, v) && Holds(Top(s, v)) == Some(m) && Enabled(s, Advance(v)) && s' == Apply(s, Advance(v)))
  }

  lemma ReleaseKeepsFree(s: State, v: nat, m: Mutex)
    requires MutexInv(s) && Busy(s, v) && Holds(Top(s, v)) == Some(m)
    ensures Enabled(s, Advance(v)) && Frees(Apply(s, Advance(v)), m)
    ensures forall m' :: Frees(s, m') ==> Frees(Apply(s, Advance(v)), m')
  {
    ReleasesMutex(s, v, m);
    NextHolds(s, Top(s, v));
    forall m' | Frees(s, m') ensures Frees(Apply(s, Advance(v)), m') {
      AdvanceKeepsFree(s, v, m');
    }
  }

  lemma HolderOf(s: State, m: Mutex) returns (v: nat)
    requires MutexInv(s) && !Frees(s, m)
    ensures Busy(s, v) && Holds(Top(s, v)) == Some(m)
  {
    var u: int, i: int :| 0 <= u < |s.threads| && 0 <= i < |s.threads[u]| && Holds(s.threads[u][i]) == Some(m);
    v := u;
  }

  // Whoever holds a mutex releases it, and nobody takes another.
  lemma FreeUp(p: Policy, n: nat, s: State, m: Mutex) returns (s': State, v: nat)
    requires ReachableUnder(p, n, s)
    ensures ReachableUnder(p, n, s') && Released(s, m, v, s') && Frees(s', m)
    ensures forall m' :: Frees(s, m') ==> Frees(s', m')
  {
    ReachableIsSound(p, n, s);
    s', v := s, 0;
    if !Frees(s, m) {
      v := HolderOf(s, m);
      ReleaseKeepsFree(s, v, m);
      s' := Proceeds(p, n, s, Advance(v));
    }
  }

  // A thread that does not hold the mutex stays where it is.
  lemma StaysBeside(p: Policy, n: nat, s: State, m: Mutex, v: nat, s': State, u: nat, f: Frame)
    requires ReachableUnder(p, n, s') && Released(s, m, v, s') && CalleeIs(s, u, f) && Holds(f) != Some(m) && !f.Wait?
    ensures CalleeIs(s', u, f) && s'.threads[u] == s.threads[u]
  {
    CalleeAwake(p, n, s', u, f);
  }

  // The holder goes on in the same function.
  lemma HolderGoesOn(p: Policy, n: nat, s: State, m: Mutex, v: nat, s': State, f': Frame)
    requires ReachableUnder(p, n, s') && Released(s, m, v, s') && s' != s && Next(s, Top(s, v)) == [f'] && !f'.Wait?
    ensures CalleeIs(s', v, f')
  {
    assert s'.threads[v] == Below(s, v) + [f'];
    CalleeAwake(p, n, s', v, f');
  }

  // What whoever holds a mutex does on releasing it.
  lemma ReleaseEffect(s: State, t: nat, f: Frame)
    requires Holds(f).Some?
    ensures var s' := Effect(s, t, f);
      && s'.connTok == s.connTok && s'.created == s.created && s'.inFlight == s.inFlight
      && s'.displaced == s.displaced && s'.userRefs == s.userRefs
  {
  }

  lemma HolderEffect(s: State, m: Mutex, v: nat, s': State)
    requires Released(s, m, v, s')
    ensures |s'.threads| == |s.threads| && s'.connTok == s.connTok && s'.created == s.created
    ensures s'.inFlight == s.inFlight && s'.displaced == s.displaced && s'.userRefs == s.userRefs
    ensures forall u :: 0 <= u < |s.threads| && u != v ==> s'.threads[u] == s.threads[u]
  {
    if s' != s {
      ReleaseEffect(s, v, Top(s, v));
    }
  }
}
