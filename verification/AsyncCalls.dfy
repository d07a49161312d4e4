/**
 Every function of the asynchronous client from its call to its return, when no other thread moves
 meanwhile: what it has changed, and that it has changed nothing else.  `AsyncThreads` cuts the
 functions into steps; these are the steps put together again.
 */
module AsyncCalls {
  import opened Common
  import opened AsyncThreads
  import opened AsyncMutexes

  // ---- Who can call ----

  // A thread that the library or the program has to itself, one that runs a listener, and one that
  // runs delivery_complete().
  ghost predicate AtLiberty(s: State, t: nat) {
    t < |s.threads| &&
    (s.threads[t] == []
     || (exists x :: s.threads[t][|s.threads[t]| - 1] == Completion(x, InListener))
     || (exists x :: s.threads[t][|s.threads[t]| - 1] == Remove(x, InDeliver)))
  }

  // Each of them can call every function of the client.
  lemma EverythingCanBeCalled(s: State, t: nat, id: nat, qos: nat, on: bool, x: Token)
    requires AtLiberty(s, t)
    ensures Delivery(id, qos) !in s.created ==> Enabled(s, BeginSubmit(t, Publish, Delivery(id, qos)))
    ensures Plain(id) !in s.created ==> Enabled(s, BeginSubmit(t, Other, Plain(id)))
    ensures Connection(id) !in s.created ==> Enabled(s, BeginConnect(t, Connection(id)))
    ensures s.connTok.Some? ==> Enabled(s, BeginReconnect(t))
    ensures x in s.userRefs ==> Enabled(s, BeginWait(t, x)) && Enabled(s, Drop(x))
    ensures Enabled(s, BeginQuery(t)) && Enabled(s, BeginSetCallback(t, on))
    ensures x in s.inFlight && s.threads[t] == [] ==> Enabled(s, LibraryCompletes(t, x))
  {
  }

  // ---- One thread at work ----

  predicate Of(e: Event, t: nat) {
    !e.Drop? && e.t == t
  }

  // Thread t alone leads from s0 to s.
  ghost predicate Alone(s0: State, es: seq<Event>, t: nat, s: State) {
    Runs(s0, es) && After(s0, es) == s && forall i :: 0 <= i < |es| ==> Of(es[i], t)
  }

  // The frames that a call has on top of those that were there before it.
  predicate On(s0: State, s: State, t: nat, fs: seq<Frame>) {
    && t < |s0.threads| && t !in s.sleeping
    && s.threads == s0.threads[t := s0.threads[t] + fs]
  }

  lemma MoreAlone(s0: State, es: seq<Event>, t: nat, s: State, e: Event)
    requires Alone(s0, es, t, s) && Enabled(s, e) && Of(e, t)
    ensures Alone(s0, es + [e], t, Apply(s, e))
  {
    RunsAppend(s0, es, e);
  }

  lemma Begins(s0: State, t: nat, e: Event, f: Frame) returns (es: seq<Event>, s: State)
    requires Enabled(s0, e) && Of(e, t) && !Replaces(e) && !e.WakeUp? && t < |s0.threads| && t !in s0.sleeping
    requires NewFrames(s0, e) == [f] && Data(s0, e).sleeping == s0.sleeping
    ensures Alone(s0, es, t, s) && On(s0, s, t, [f]) && s == Data(s0, e).(threads := s.threads)
  {
    assert Alone(s0, [], t, s0);
    MoreAlone(s0, [], t, s0, e);
    es, s := [] + [e], Apply(s0, e);
  }

  lemma StillFree(s0: State, s: State, t: nat, fs: seq<Frame>, f: Frame, m: Mutex)
    requires On(s0, s, t, fs + [f]) && Frees(s0, m) && Holds(f) == None
    requires forall i :: 0 <= i < |fs| ==> Holds(fs[i]) == None
    ensures Frees(s, m)
  {
  }

  lemma StackAfterStep(s0: State, s: State, t: nat, fs: seq<Frame>, f: Frame)
    requires On(s0, s, t, fs + [f])
    ensures Busy(s, t) && Top(s, t) == f
    ensures Enabled(s, Advance(t)) ==> On(s0, s.(threads := Stacks(s, Advance(t))), t, fs + Next(s, f))
  {
    if Enabled(s, Advance(t)) {
      assert Stacks(s, Advance(t))[t] == s0.threads[t] + (fs + Next(s, f));
    }
  }

  // The callee takes its next step, `fs` being the frames of the call below it.
  lemma StepWithin(s0: State, es: seq<Event>, s: State, t: nat, fs: seq<Frame>, f: Frame, next: seq<Frame>)
    returns (es': seq<Event>, s': State)
    requires Alone(s0, es, t, s) && On(s0, s, t, fs + [f]) && !Asking(f) && Next(s, f) == next
    requires forall i :: 0 <= i < |fs| ==> Holds(fs[i]) == None
    requires Takes(f).Some? ==> Holds(f) == None && Frees(s0, Takes(f).value)
    requires t !in Effect(s, t, f).sleeping
    ensures Alone(s0, es', t, s') && On(s0, s', t, fs + next) && s' == Effect(s, t, f).(threads := s'.threads)
  {
    StackAfterStep(s0, s, t, fs, f);
    if Takes(f).Some? {
      StillFree(s0, s, t, fs, f, Takes(f).value);
    }
    MoreAlone(s0, es, t, s, Advance(t));
    es', s' := es + [Advance(t)], Apply(s, Advance(t));
  }

  lemma Step(s0: State, es: seq<Event>, s: State, t: nat, f: Frame, next: seq<Frame>)
    returns (es': seq<Event>, s': State)
    requires Alone(s0, es, t, s) && On(s0, s, t, [f]) && !Asking(f) && Next(s, f) == next
    requires Takes(f).Some? ==> Holds(f) == None && Frees(s0, Takes(f).value)
    requires t !in Effect(s, t, f).sleeping
    ensures Alone(s0, es', t, s') && On(s0, s', t, next) && s' == Effect(s, t, f).(threads := s'.threads)
  {
    assert [] + [f] == [f] && [] + next == next;
    es', s' := StepWithin(s0, es, s, t, [], f, next);
  }

  // The library answers.
  lemma Answered(s0: State, es: seq<Event>, s: State, t: nat, f: Frame, accepted: bool, next: Frame)
    returns (es': seq<Event>, s': State)
    requires Alone(s0, es, t, s) && On(s0, s, t, [f]) && Asking(f)
    requires f.Submit? ==>
      next == Submit(f.tok, f.op, if !accepted then Refused else if f.op.Publish? then AtSetId else Returning)
    requires f.Connect? ==> next == Connect(f.seen, if accepted then Granted else Denied)
    ensures Alone(s0, es', t, s') && On(s0, s', t, [next])
    ensures s' == s.(threads := s'.threads, inFlight := if accepted then s.inFlight + Handing(f) else s.inFlight)
  {
    assert Top(s, t) == f && NewFrames(s, Verdict(t, accepted)) == [next];
    MoreAlone(s0, es, t, s, Verdict(t, accepted));
    es', s' := es + [Verdict(t, accepted)], Apply(s, Verdict(t, accepted));
    assert s'.threads[t] == s0.threads[t] + [next];
  }

  // ---- add_token() and remove_token() ----

  lemma Adds(s0: State, es: seq<Event>, s: State, t: nat, tok: Token, op: Op) returns (es': seq<Event>, s': State)
    requires Alone(s0, es, t, s) && On(s0, s, t, [Submit(tok, op, AtAdd)]) && Frees(s0, ClientMutex)
    ensures Alone(s0, es', t, s') && On(s0, s', t, [Submit(tok, op, Added)])
    ensures s' == if tok.Delivery? then s.(pendingDelivery := s.pendingDelivery + [tok], threads := s'.threads)
                  else s.(pending := s.pending + [tok], threads := s'.threads)
  {
    es', s' := Step(s0, es, s, t, Submit(tok, op, AtAdd), [Submit(tok, op, Adding)]);
    es', s' := Step(s0, es', s', t, Submit(tok, op, Adding), [Submit(tok, op, Added)]);
  }

  // What has been done when a token has been removed: it is in one list less, and a delivery token
  // that leaves with QoS above 0 and a callback set has had its call.
  function Removed(s: State, tok: Token): State {
    if tok in s.pendingDelivery then
      s.(pendingDelivery := RemoveFirst(s.pendingDelivery, tok), leftWith := s.leftWith[tok := s.callback],
         delivered := s.delivered + if s.callback && tok.Delivery? && tok.qos > 0 then [tok] else [])
    else s.(pending := RemoveFirst(s.pending, tok))
  }

  lemma Erases(s0: State, es: seq<Event>, s: State, t: nat, fs: seq<Frame>, tok: Token)
    returns (es': seq<Event>, s': State)
    requires Alone(s0, es, t, s) && On(s0, s, t, fs + [Remove(tok, AtErase)]) && Frees(s0, ClientMutex)
    requires forall i :: 0 <= i < |fs| ==> Holds(fs[i]) == None
    ensures var called := tok in s.pendingDelivery && s.callback && tok.Delivery? && tok.qos > 0;
      && Alone(s0, es', t, s') && On(s0, s', t, fs + if called then [Remove(tok, AtDeliver)] else [])
      && s' == Removed(s, tok).(threads := s'.threads, delivered := s.delivered)
  {
    var called := tok in s.pendingDelivery && s.callback && tok.Delivery? && tok.qos > 0;
    es', s' := StepWithin(s0, es, s, t, fs, Remove(tok, AtErase), [Remove(tok, Erasing)]);
    es', s' := StepWithin(s0, es', s', t, fs, Remove(tok, Erasing), if called then [Remove(tok, AtDeliver)] else []);
  }

  lemma Delivers(s0: State, es: seq<Event>, s: State, t: nat, fs: seq<Frame>, tok: Token)
    returns (es': seq<Event>, s': State)
    requires Alone(s0, es, t, s) && On(s0, s, t, fs + [Remove(tok, AtDeliver)])
    requires forall i :: 0 <= i < |fs| ==> Holds(fs[i]) == None
    ensures Alone(s0, es', t, s') && On(s0, s', t, fs)
    ensures s' == s.(threads := s'.threads, delivered := s.delivered + [tok])
  {
    es', s' := StepWithin(s0, es, s, t, fs, Remove(tok, AtDeliver), [Remove(tok, InDeliver)]);
    es', s' := StepWithin(s0, es', s', t, fs, Remove(tok, InDeliver), []);
    assert fs + [] == fs;
  }

  lemma Removes(s0: State, es: seq<Event>, s: State, t: nat, fs: seq<Frame>, tok: Token)
    returns (es': seq<Event>, s': State)
    requires Alone(s0, es, t, s) && On(s0, s, t, fs + [Remove(tok, AtErase)]) && Frees(s0, ClientMutex)
    requires forall i :: 0 <= i < |fs| ==> Holds(fs[i]) == None
    ensures Alone(s0, es', t, s') && On(s0, s', t, fs) && s' == Removed(s, tok).(threads := s'.threads)
  {
    es', s' := Erases(s0, es, s, t, fs, tok);
    if tok in s.pendingDelivery && s.callback && tok.Delivery? && tok.qos > 0 {
      es', s' := Delivers(s0, es', s', t, fs, tok);
    } else {
      assert fs + [] == fs;
    }
  }

  // A function calls remove_token().
  lemma CallsRemove(s0: State, es: seq<Event>, s: State, t: nat, f: Frame, caller: Frame, tok: Token)
    returns (es': seq<Event>, s': State)
    requires Alone(s0, es, t, s) && On(s0, s, t, [f]) && !Asking(f) && Takes(f) == None && Holds(caller) == None
    requires Next(s, f) == [caller, Remove(tok, AtErase)] && Effect(s, t, f) == s && Frees(s0, ClientMutex)
    ensures Alone(s0, es', t, s') && On(s0, s', t, [caller]) && s' == Removed(s, tok).(threads := s'.threads)
  {
    es', s' := Step(s0, es, s, t, f, [caller, Remove(tok, AtErase)]);
    assert [caller, Remove(tok, AtErase)] == [caller] + [Remove(tok, AtErase)];
    es', s' := Removes(s0, es', s', t, [caller], tok);
  }

  lemma Done(s0: State, s: State, t: nat)
    requires On(s0, s, t, [])
    ensures s.threads == s0.threads
  {
    assert s0.threads[t] + [] == s0.threads[t];
  }

  // ---- publish(), and the other submissions ----

  // What a submission of a new token needs to begin.
  ghost predicate CanSubmit(s: State, t: nat, op: Op, tok: Token) {
    && Enabled(s, BeginSubmit(t, op, tok)) && t !in s.sleeping
    && Frees(s, ClientMutex) && Frees(s, TokenMutex(tok)) && tok !in s.pending && tok !in s.pendingDelivery
  }

  lemma SubmitAdds(s0: State, t: nat, op: Op, tok: Token) returns (es: seq<Event>, s: State)
    requires CanSubmit(s0, t, op, tok)
    ensures Alone(s0, es, t, s) && On(s0, s, t, [Submit(tok, op, Added)])
    ensures s == if op.Publish? then s0.(threads := s.threads, created := s0.created + {tok},
                                         pendingDelivery := s0.pendingDelivery + [tok])
                 else s0.(threads := s.threads, created := s0.created + {tok}, pending := s0.pending + [tok])
  {
    es, s := Begins(s0, t, BeginSubmit(t, op, tok), Submit(tok, op, AtAdd));
    es, s := Adds(s0, es, s, t, tok, op);
  }

  lemma SettingChangesNothing(s: State, t: nat, tok: Token, at: SubmitPc)
    requires at.AtSetId? || at.SettingId?
    ensures var f := Submit(tok, Publish, at);
      && Effect(s, t, f) == s && !Asking(f)
      && Next(s, f) == [Submit(tok, Publish, if at.AtSetId? then SettingId else Returning)]
      && (if at.AtSetId? then Holds(f) == None && Takes(f) == Some(TokenMutex(tok)) else Takes(f) == None)
  {
  }

  lemma SetsId(s0: State, es: seq<Event>, s: State, t: nat, tok: Token) returns (es': seq<Event>, s': State)
    requires Alone(s0, es, t, s) && On(s0, s, t, [Submit(tok, Publish, AtSetId)]) && Frees(s0, TokenMutex(tok))
    ensures Alone(s0, es', t, s') && On(s0, s', t, [Submit(tok, Publish, Returning)]) && s' == s.(threads := s'.threads)
  {
    SettingChangesNothing(s, t, tok, AtSetId);
    es', s' := Step(s0, es, s, t, Submit(tok, Publish, AtSetId), [Submit(tok, Publish, SettingId)]);
    SettingChangesNothing(s', t, tok, SettingId);
    es', s' := Step(s0, es', s', t, Submit(tok, Publish, SettingId), [Submit(tok, Publish, Returning)]);
  }

  lemma SubmitReturns(s0: State, es: seq<Event>, s: State, t: nat, op: Op, tok: Token)
    returns (es': seq<Event>, s': State)
    requires Alone(s0, es, t, s) && On(s0, s, t, [Submit(tok, op, if op.Publish? then AtSetId else Returning)])
    requires Frees(s0, TokenMutex(tok))
    ensures Alone(s0, es', t, s') && s' == s.(threads := s0.threads, userRefs := s.userRefs + {tok})
  {
    es', s' := es, s;
    if op.Publish? {
      es', s' := SetsId(s0, es, s, t, tok);
    }
    es', s' := Step(s0, es', s', t, Submit(tok, op, Returning), []);
    Done(s0, s', t);
  }

  // Accepted: the token is pending and in flight, and the user has it.
  lemma SubmitAccepted(s0: State, t: nat, op: Op, tok: Token) returns (es: seq<Event>, s: State)
    requires CanSubmit(s0, t, op, tok)
    ensures Alone(s0, es, t, s)
    ensures var s1 := s0.(created := s0.created + {tok}, inFlight := s0.inFlight + multiset{tok},
                          userRefs := s0.userRefs + {tok});
      s == if op.Publish? then s1.(pendingDelivery := s0.pendingDelivery + [tok])
           else s1.(pending := s0.pending + [tok])
  {
    es, s := SubmitAdds(s0, t, op, tok);
    es, s := Answered(s0, es, s, t, Submit(tok, op, Added), true,
                      Submit(tok, op, if op.Publish? then AtSetId else Returning));
    es, s := SubmitReturns(s0, es, s, t, op, tok);
  }

  lemma Unwinds(s0: State, es: seq<Event>, s: State, t: nat, op: Op, tok: Token)
    returns (es': seq<Event>, s': State)
    requires Alone(s0, es, t, s) && On(s0, s, t, [Submit(tok, op, Refused)]) && Frees(s0, ClientMutex)
    ensures Alone(s0, es', t, s') && s' == Removed(s, tok).(threads := s0.threads)
  {
    var caller := Submit(tok, op, Unwinding);
    es', s' := CallsRemove(s0, es, s, t, Submit(tok, op, Refused), caller, tok);
    es', s' := Step(s0, es', s', t, caller, []);
    Done(s0, s', t);
  }

  // Refused: nothing is left of it but, for a message, the call of delivery_complete().
  lemma SubmitRefused(s0: State, t: nat, op: Op, tok: Token) returns (es: seq<Event>, s: State)
    requires CanSubmit(s0, t, op, tok)
    ensures Alone(s0, es, t, s)
    ensures s == if op.Publish? then
                   s0.(created := s0.created + {tok}, leftWith := s0.leftWith[tok := s0.callback],
                       delivered := s0.delivered + if s0.callback && tok.Delivery? && tok.qos > 0 then [tok] else [])
                 else s0.(created := s0.created + {tok})
  {
    es, s := SubmitAdds(s0, t, op, tok);
    es, s := Answered(s0, es, s, t, Submit(tok, op, Added), false, Submit(tok, op, Refused));
    RemoveFirstAdded(s0.pending, tok);
    RemoveFirstAdded(s0.pendingDelivery, tok);
    es, s := Unwinds(s0, es, s, t, op, tok);
  }

  // ---- connect() ----

  ghost predicate CanConnect(s: State, t: nat, tok: Token) {
    && Enabled(s, BeginConnect(t, tok)) && t !in s.sleeping
    && Frees(s, ClientMutex) && tok !in s.pending && tok !in s.pendingDelivery
  }

  lemma ConnectAdds(s0: State, t: nat, tok: Token) returns (es: seq<Event>, s: State)
    requires CanConnect(s0, t, tok)
    ensures Alone(s0, es, t, s) && On(s0, s, t, [Connect(Some(tok), Listing)])
    ensures s == s0.(threads := s.threads, created := s0.created + {tok}, connTok := Some(tok),
                     displaced := s0.displaced + if s0.connTok.Some? then {s0.connTok.value} else {})
  {
    es, s := Begins(s0, t, BeginConnect(t, tok), Connect(Some(tok), ConnectPc.Made));
    es, s := Step(s0, es, s, t, Connect(Some(tok), ConnectPc.Made), [Connect(Some(tok), ToList)]);
    es, s := Step(s0, es, s, t, Connect(Some(tok), ToList), [Connect(Some(tok), Listing)]);
  }

  lemma ConnectHands(s0: State, t: nat, tok: Token) returns (es: seq<Event>, s: State)
    requires CanConnect(s0, t, tok)
    ensures Alone(s0, es, t, s) && On(s0, s, t, [Connect(Some(tok), Handed)])
    ensures s == s0.(threads := s.threads, created := s0.created + {tok}, connTok := Some(tok),
                     displaced := s0.displaced + (if s0.connTok.Some? then {s0.connTok.value} else {}),
                     pending := s0.pending + [tok])
  {
    es, s := ConnectAdds(s0, t, tok);
    es, s := Step(s0, es, s, t, Connect(Some(tok), Listing), [Connect(Some(tok), ToHand)]);
    es, s := Step(s0, es, s, t, Connect(Some(tok), ToHand), [Connect(Some(tok), Handed)]);
  }

  lemma ConnectAccepted(s0: State, t: nat, tok: Token) returns (es: seq<Event>, s: State)
    requires CanConnect(s0, t, tok)
    ensures Alone(s0, es, t, s)
    ensures s == s0.(created := s0.created + {tok}, connTok := Some(tok),
                     displaced := s0.displaced + (if s0.connTok.Some? then {s0.connTok.value} else {}),
                     pending := s0.pending + [tok], inFlight := s0.inFlight + multiset{tok},
                     userRefs := s0.userRefs + {tok})
  {
    es, s := ConnectHands(s0, t, tok);
    es, s := Answered(s0, es, s, t, Connect(Some(tok), Handed), true, Connect(Some(tok), Granted));
    es, s := Step(s0, es, s, t, Connect(Some(tok), Granted), []);
    Done(s0, s, t);
  }

  lemma ConnectUnwinds(s0: State, es: seq<Event>, s: State, t: nat, tok: Token)
    returns (es': seq<Event>, s': State)
    requires Alone(s0, es, t, s) && On(s0, s, t, [Connect(Some(tok), Denied)]) && Frees(s0, ClientMutex)
    requires s.connTok == Some(tok)
    ensures Alone(s0, es', t, s') && s' == Removed(s, tok).(threads := s0.threads, connTok := None)
  {
    var caller := Connect(Some(tok), Clearing);
    es', s' := CallsRemove(s0, es, s, t, Connect(Some(tok), Denied), caller, tok);
    es', s' := Step(s0, es', s', t, caller, []);
    Done(s0, s', t);
  }

  // Refused: the lists are as they were, and there is no connect token any more.
  lemma ConnectRefused(s0: State, t: nat, tok: Token) returns (es: seq<Event>, s: State)
    requires CanConnect(s0, t, tok)
    ensures Alone(s0, es, t, s)
    ensures s == s0.(created := s0.created + {tok}, connTok := None,
                     displaced := s0.displaced + (if s0.connTok.Some? then {s0.connTok.value} else {}))
  {
    es, s := ConnectHands(s0, t, tok);
    es, s := Answered(s0, es, s, t, Connect(Some(tok), Handed), false, Connect(Some(tok), Denied));
    RemoveFirstAdded(s0.pending, tok);
    es, s := ConnectUnwinds(s0, es, s, t, tok);
  }

  // ---- reconnect() ----

  ghost predicate CanReconnect(s: State, t: nat, tok: Token) {
    && Enabled(s, BeginReconnect(t)) && t !in s.sleeping && s.connTok == Some(tok) && tok.Connection?
    && Frees(s, ClientMutex) && Frees(s, TokenMutex(tok)) && tok !in s.pendingDelivery
  }

  lemma ReconnectAdds(s0: State, t: nat, tok: Token) returns (es: seq<Event>, s: State)
    requires CanReconnect(s0, t, tok)
    ensures Alone(s0, es, t, s) && On(s0, s, t, [Submit(tok, Reconnect, Added)])
    ensures s == s0.(threads := s.threads, complete := s0.complete - {tok}, marks := s0.marks + [WasReset(tok)],
                     pending := s0.pending + [tok])
  {
    es, s := Begins(s0, t, BeginReconnect(t), Submit(tok, Reconnect, AtReset));
    es, s := Step(s0, es, s, t, Submit(tok, Reconnect, AtReset), [Submit(tok, Reconnect, Resetting)]);
    es, s := Step(s0, es, s, t, Submit(tok, Reconnect, Resetting), [Submit(tok, Reconnect, AtAdd)]);
    es, s := Adds(s0, es, s, t, tok, Reconnect);
  }

  lemma ReconnectAccepted(s0: State, t: nat, tok: Token) returns (es: seq<Event>, s: State)
    requires CanReconnect(s0, t, tok)
    ensures Alone(s0, es, t, s)
    ensures s == s0.(complete := s0.complete - {tok}, marks := s0.marks + [WasReset(tok)],
                     pending := s0.pending + [tok], inFlight := s0.inFlight + multiset{tok},
                     userRefs := s0.userRefs + {tok})
  {
    es, s := ReconnectAdds(s0, t, tok);
    es, s := Answered(s0, es, s, t, Submit(tok, Reconnect, Added), true, Submit(tok, Reconnect, Returning));
    es, s := SubmitReturns(s0, es, s, t, Reconnect, tok);
  }

  // Refused: the token has been reset all the same, and one occurrence is out of the list again.
  lemma ReconnectRefused(s0: State, t: nat, tok: Token) returns (es: seq<Event>, s: State)
    requires CanReconnect(s0, t, tok)
    ensures Alone(s0, es, t, s)
    ensures s == s0.(complete := s0.complete - {tok}, marks := s0.marks + [WasReset(tok)],
                     pending := RemoveFirst(s0.pending + [tok], tok))
  {
    es, s := ReconnectAdds(s0, t, tok);
    es, s := Answered(s0, es, s, t, Submit(tok, Reconnect, Added), false, Submit(tok, Reconnect, Refused));
    es, s := Unwinds(s0, es, s, t, Reconnect, tok);
  }

  // ---- The callbacks of a token ----

  lemma CallbackCompletes(s0: State, t: nat, tok: Token) returns (es: seq<Event>, s: State)
    requires Enabled(s0, LibraryCompletes(t, tok)) && t !in s0.sleeping && Frees(s0, TokenMutex(tok))
    ensures Alone(s0, es, t, s) && On(s0, s, t, [Completion(tok, InListener)])
    ensures s == s0.(threads := s.threads, inFlight := s0.inFlight - multiset{tok},
                     complete := s0.complete + {tok}, marks := s0.marks + [WasCompleted(tok)])
  {
    es, s := Begins(s0, t, LibraryCompletes(t, tok), Completion(tok, AtComplete));
    es, s := Step(s0, es, s, t, Completion(tok, AtComplete), [Completion(tok, Completing)]);
    es, s := Step(s0, es, s, t, Completion(tok, Completing), [Completion(tok, InListener)]);
  }

  lemma SameSleepers(s0: State, s: State, t: nat, f: Frame, tok: Token)
    requires On(s0, s, t, [f]) && !f.Wait? && s.sleeping == s0.sleeping
    ensures SleepersOn(s, tok) == SleepersOn(s0, tok)
  {
    forall u ensures u in SleepersOn(s, tok) <==> u in SleepersOn(s0, tok) {
    }
  }

  lemma CallbackNotifies(s0: State, es: seq<Event>, s: State, t: nat, tok: Token)
    returns (es': seq<Event>, s': State)
    requires Alone(s0, es, t, s) && On(s0, s, t, [Completion(tok, InListener)]) && s.sleeping == s0.sleeping
    ensures Alone(s0, es', t, s') && On(s0, s', t, [Completion(tok, AtRemove)])
    ensures s' == s.(threads := s'.threads, sleeping := s0.sleeping - SleepersOn(s0, tok))
  {
    es', s' := Step(s0, es, s, t, Completion(tok, InListener), [Completion(tok, AtNotify)]);
    SameSleepers(s0, s', t, Completion(tok, AtNotify), tok);
    es', s' := Step(s0, es', s', t, Completion(tok, AtNotify), [Completion(tok, AtRemove)]);
  }

  lemma CompletionCalls(s: State, t: nat, tok: Token)
    ensures var f, caller := Completion(tok, AtRemove), Completion(tok, Completed);
      && Next(s, f) == [caller, Remove(tok, AtErase)] && Effect(s, t, f) == s && Takes(f) == None && !Asking(f)
      && Next(s, caller) == [] && Effect(s, t, caller) == s && Takes(caller) == None && !Asking(caller)
      && Holds(caller) == None
  {
  }

  lemma CallbackRemoves(s0: State, es: seq<Event>, s: State, t: nat, tok: Token)
    returns (es': seq<Event>, s': State)
    requires Alone(s0, es, t, s) && On(s0, s, t, [Completion(tok, AtRemove)]) && Frees(s0, ClientMutex)
    ensures Alone(s0, es', t, s') && s' == Removed(s, tok).(threads := s0.threads)
  {
    var caller := Completion(tok, Completed);
    CompletionCalls(s, t, tok);
    es', s' := CallsRemove(s0, es, s, t, Completion(tok, AtRemove), caller, tok);
    CompletionCalls(s', t, tok);
    es', s' := Step(s0, es', s', t, caller, []);
    Done(s0, s', t);
  }

  // The token is complete, whoever slept on it is awake, and it is out of the lists.
  lemma CallbackAlone(s0: State, t: nat, tok: Token) returns (es: seq<Event>, s: State)
    requires Enabled(s0, LibraryCompletes(t, tok)) && t !in s0.sleeping
    requires Frees(s0, ClientMutex) && Frees(s0, TokenMutex(tok))
    ensures Alone(s0, es, t, s)
    ensures s == Removed(s0, tok).(inFlight := s0.inFlight - multiset{tok}, complete := s0.complete + {tok},
                                   marks := s0.marks + [WasCompleted(tok)],
                                   sleeping := s0.sleeping - SleepersOn(s0, tok))
  {
    es, s := CallbackCompletes(s0, t, tok);
    es, s := CallbackNotifies(s0, es, s, t, tok);
    es, s := CallbackRemoves(s0, es, s, t, tok);
  }

  // ---- wait(), set_callback() and the queries ----

  lemma WaitTests(s0: State, t: nat, tok: Token) returns (es: seq<Event>, s: State)
    requires Enabled(s0, BeginWait(t, tok)) && t !in s0.sleeping && Frees(s0, TokenMutex(tok))
    ensures Alone(s0, es, t, s) && On(s0, s, t, [Wait(tok, Testing)]) && s == s0.(threads := s.threads)
  {
    es, s := Begins(s0, t, BeginWait(t, tok), Wait(tok, AtWait));
    es, s := Step(s0, es, s, t, Wait(tok, AtWait), [Wait(tok, Testing)]);
  }

  lemma WaitSleeps(s0: State, es: seq<Event>, s: State, t: nat, tok: Token) returns (es': seq<Event>, s': State)
    requires Alone(s0, es, t, s) && On(s0, s, t, [Wait(tok, Testing)]) && tok !in s.complete
    ensures Alone(s0, es', t, s')
    ensures s' == s.(threads := s0.threads[t := s0.threads[t] + [Wait(tok, Blocked)]], sleeping := s.sleeping + {t})
  {
    assert Top(s, t) == Wait(tok, Testing);
    MoreAlone(s0, es, t, s, Advance(t));
    es', s' := es + [Advance(t)], Apply(s, Advance(t));
    assert s'.threads[t] == s0.threads[t] + [Wait(tok, Blocked)];
  }

  // wait() on a complete token returns and changes nothing; on another it falls asleep.
  lemma WaitAlone(s0: State, t: nat, tok: Token) returns (es: seq<Event>, s: State)
    requires Enabled(s0, BeginWait(t, tok)) && t !in s0.sleeping && Frees(s0, TokenMutex(tok))
    ensures Alone(s0, es, t, s)
    ensures s == if tok in s0.complete then s0
                 else s0.(threads := s0.threads[t := s0.threads[t] + [Wait(tok, Blocked)]],
                          sleeping := s0.sleeping + {t})
  {
    es, s := WaitTests(s0, t, tok);
    if tok in s0.complete {
      es, s := Step(s0, es, s, t, Wait(tok, Testing), []);
      Done(s0, s, t);
    } else {
      es, s := WaitSleeps(s0, es, s, t, tok);
    }
  }

  lemma SetCallbackAlone(s0: State, t: nat, on: bool) returns (es: seq<Event>, s: State)
    requires Enabled(s0, BeginSetCallback(t, on)) && t !in s0.sleeping && Frees(s0, ClientMutex)
    ensures Alone(s0, es, t, s) && s == s0.(callback := on)
  {
    es, s := Begins(s0, t, BeginSetCallback(t, on), SetCallback(on, false));
    es, s := Step(s0, es, s, t, SetCallback(on, false), [SetCallback(on, true)]);
    es, s := Step(s0, es, s, t, SetCallback(on, true), []);
    Done(s0, s, t);
  }

  lemma QueryAlone(s0: State, t: nat) returns (es: seq<Event>, s: State)
    requires Enabled(s0, BeginQuery(t)) && t !in s0.sleeping && Frees(s0, ClientMutex)
    ensures Alone(s0, es, t, s) && s == s0
  {
    es, s := Begins(s0, t, BeginQuery(t), Query(false));
    es, s := Step(s0, es, s, t, Query(false), [Query(true)]);
    es, s := Step(s0, es, s, t, Query(true), []);
    Done(s0, s, t);
  }

  // ---- Calls one after the other ----

  ghost predicate Leads(s: State, es: seq<Event>, s': State) {
    Runs(s, es) && After(s, es) == s'
  }

  // A callback is set, a message published and acknowledged: delivery_complete() has been called.
  lemma AcknowledgedIsDelivered(s0: State, t: nat, tok: Token)
    returns (setting: seq<Event>, s1: State, publishing: seq<Event>, s2: State, completing: seq<Event>, s: State)
    requires CanSubmit(s0, t, Publish, tok) && s0.threads[t] == [] && tok.qos > 0
    ensures Leads(s0, setting, s1) && Leads(s1, publishing, s2) && Leads(s2, completing, s)
    ensures s.delivered == s0.delivered + [tok] && s.pendingDelivery == s0.pendingDelivery
    ensures tok in s.complete && tok in s.userRefs && s.threads == s0.threads
  {
    setting, s1 := SetCallbackAlone(s0, t, true);
    publishing, s2 := SubmitAccepted(s1, t, Publish, tok);
    completing, s := CallbackAlone(s2, t, tok);
    RemoveFirstAdded(s0.pendingDelivery, tok);
  }
}
