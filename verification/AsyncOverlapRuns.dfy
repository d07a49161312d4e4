/**
 The runs in which overlapping calls of connect() break the promises about the pending lists, from
 any state in which a policy lets them overlap, and with any number of other threads at work; and
 so the exact conditions on the policy.
 */
module AsyncOverlapRuns {
  import opened Common
  import opened AsyncThreads
  import opened AsyncLedger
  import opened AsyncMutexes
  import opened AsyncOverlap
  import opened AsyncPolicies

  // ---- connect() from one use of connTok_ to the next, the mutex being free ----

  lemma Begins(p: Policy, n: nat, s: State, t: nat, y: Token) returns (s': State)
    requires MayBegin(p, n, s, BeginConnect(t, y))
    ensures ReachableUnder(p, n, s')
    ensures s'.threads == s.threads[t := s.threads[t] + [Connect(Some(y), ConnectPc.Made)]]
    ensures s' == s.(threads := s'.threads, connTok := Some(y), created := s.created + {y}, displaced := s'.displaced)
    ensures s'.displaced == s.displaced + if s.connTok.Some? then {s.connTok.value} else {}
  {
    s' := Proceeds(p, n, s, BeginConnect(t, y));
  }

  // The step that takes the client's mutex, and the one that releases it.
  lemma Locks(p: Policy, n: nat, s: State, u: nat, f: Frame, locked: Frame) returns (s': State)
    requires ReachableUnder(p, n, s) && CalleeIs(s, u, f) && Frees(s, ClientMutex)
    requires Takes(f) == Some(ClientMutex) && !Asking(f) && (f.Connect? || f.Remove?) && Next(s, f) == [locked]
    ensures ReachableUnder(p, n, s') && s' == s.(threads := s.threads[u := Below(s, u) + [locked]])
    ensures CalleeIs(s', u, locked) && Below(s', u) == Below(s, u)
  {
    s' := Advances(p, n, s, u);
    assert s'.threads[u] == Below(s, u) + [locked];
  }

  lemma Unlocks(p: Policy, n: nat, s: State, u: nat, f: Frame, next: seq<Frame>) returns (s': State)
    requires ReachableUnder(p, n, s) && CalleeIs(s, u, f) && Holds(f) == Some(ClientMutex) && Next(s, f) == next
    ensures ReachableUnder(p, n, s') && Frees(s', ClientMutex)
    ensures s' == Effect(s, u, f).(threads := s.threads[u := Below(s, u) + next])
  {
    ReachableIsSound(p, n, s);
    ReleasesMutex(s, u, ClientMutex);
    s' := Advances(p, n, s, u);
  }

  // add_token().
  lemma Lists(p: Policy, n: nat, s: State, u: nat, tok: Token) returns (s': State)
    requires ReachableUnder(p, n, s) && CalleeIs(s, u, Connect(Some(tok), ToList)) && Frees(s, ClientMutex)
    ensures ReachableUnder(p, n, s') && Frees(s', ClientMutex)
    ensures s' == s.(pending := s.pending + [tok],
                     threads := s.threads[u := Below(s, u) + [Connect(Some(tok), ToHand)]])
  {
    s' := Locks(p, n, s, u, Connect(Some(tok), ToList), Connect(Some(tok), Listing));
    s' := Unlocks(p, n, s', u, Connect(Some(tok), Listing), [Connect(Some(tok), ToHand)]);
    assert s'.threads == s.threads[u := Below(s, u) + [Connect(Some(tok), ToHand)]];
  }

  // remove_token() for a token of connect().
  lemma Erases(p: Policy, n: nat, s: State, u: nat, tok: Token) returns (s': State)
    requires ReachableUnder(p, n, s) && CalleeIs(s, u, Remove(tok, AtErase)) && Frees(s, ClientMutex)
    requires tok.Connection? && tok !in s.pendingDelivery
    ensures ReachableUnder(p, n, s') && Frees(s', ClientMutex)
    ensures s' == s.(pending := RemoveFirst(s.pending, tok), threads := s.threads[u := Below(s, u)])
  {
    s' := Locks(p, n, s, u, Remove(tok, AtErase), Remove(tok, Erasing));
    s' := Unlocks(p, n, s', u, Remove(tok, Erasing), []);
    assert Below(s, u) + [] == Below(s, u);
    assert s'.threads == s.threads[u := Below(s, u)];
  }

  // A use of connTok_ without a mutex.
  lemma Reads(p: Policy, n: nat, s: State, u: nat, f: Frame) returns (s': State)
    requires ReachableUnder(p, n, s) && CalleeIs(s, u, f) && f.Connect? && (f.pc.Made? || f.pc.ToHand? || f.pc.Denied?)
    ensures ReachableUnder(p, n, s')
    ensures s' == s.(threads := s.threads[u := Below(s, u) + NextOfConnect(s, f)])
    ensures Frees(s, ClientMutex) ==> Frees(s', ClientMutex)
  {
    s' := Advances(p, n, s, u);
    if Frees(s, ClientMutex) {
      AdvanceKeepsFree(s, u, ClientMutex);
    }
  }

  lemma AnswerEffect(s: State, u: nat, seen: Option<Token>, accepted: bool)
    requires CalleeIs(s, u, Connect(seen, Handed))
    ensures Enabled(s, Verdict(u, accepted))
    ensures var s' := Apply(s, Verdict(u, accepted));
      && s'.threads == s.threads[u := Below(s, u) + [Connect(seen, if accepted then Granted else Denied)]]
      && s' == s.(threads := s'.threads, inFlight := s'.inFlight)
      && s'.inFlight == if accepted && seen.Some? then s.inFlight + multiset{seen.value} else s.inFlight
  {
  }

  lemma Accepts(p: Policy, n: nat, s: State, u: nat, y: Token) returns (s': State)
    requires ReachableUnder(p, n, s) && CalleeIs(s, u, Connect(Some(y), Handed))
    ensures ReachableUnder(p, n, s') && (Frees(s, ClientMutex) ==> Frees(s', ClientMutex))
    ensures s' == s.(threads := s.threads[u := Below(s, u) + [Connect(Some(y), Granted)]],
                     inFlight := s.inFlight + multiset{y})
  {
    AnswerEffect(s, u, Some(y), true);
    s' := Proceeds(p, n, s, Verdict(u, true));
    if Frees(s, ClientMutex) {
      VerdictKeepsFree(s, u, true, ClientMutex);
    }
  }

  lemma Refuses(p: Policy, n: nat, s: State, u: nat, seen: Option<Token>) returns (s': State)
    requires ReachableUnder(p, n, s) && CalleeIs(s, u, Connect(seen, Handed))
    ensures ReachableUnder(p, n, s') && (Frees(s, ClientMutex) ==> Frees(s', ClientMutex))
    ensures s' == s.(threads := s.threads[u := Below(s, u) + [Connect(seen, Denied)]])
  {
    AnswerEffect(s, u, seen, false);
    s' := Proceeds(p, n, s, Verdict(u, false));
    if Frees(s, ClientMutex) {
      VerdictKeepsFree(s, u, false, ClientMutex);
    }
  }

  // A whole round of connect() from its beginning to the library's answer, nobody else moving.
  lemma ListsOwn(p: Policy, n: nat, s: State, t: nat, y: Token) returns (s': State)
    requires ReachableUnder(p, n, s) && Frees(s, ClientMutex)
    requires CalleeIs(s, t, Connect(Some(y), ConnectPc.Made)) && s.connTok == Some(y)
    ensures ReachableUnder(p, n, s') && Frees(s', ClientMutex)
    ensures s' == s.(pending := s.pending + [y], threads := s.threads[t := Below(s, t) + [Connect(Some(y), ToHand)]])
  {
    s' := Reads(p, n, s, t, Connect(Some(y), ConnectPc.Made));
    assert Below(s', t) == Below(s, t);
    s' := Lists(p, n, s', t, y);
    assert s'.threads == s.threads[t := Below(s, t) + [Connect(Some(y), ToHand)]];
  }

  lemma HandsOwn(p: Policy, n: nat, s: State, t: nat, seen: Option<Token>, y: Token) returns (s': State)
    requires ReachableUnder(p, n, s) && CalleeIs(s, t, Connect(seen, ToHand)) && s.connTok == Some(y)
    ensures ReachableUnder(p, n, s') && (Frees(s, ClientMutex) ==> Frees(s', ClientMutex))
    ensures s'.threads == s.threads[t := Below(s, t) + [Connect(Some(y), Granted)]]
    ensures s' == s.(inFlight := s.inFlight + multiset{y}, threads := s'.threads)
  {
    s' := Reads(p, n, s, t, Connect(seen, ToHand));
    assert Below(s', t) == Below(s, t);
    s' := Accepts(p, n, s', t, y);
    assert s'.threads == s.threads[t := Below(s, t) + [Connect(Some(y), Granted)]];
  }

  // ---- An address to which no pointer is left ----

  // A function that may hold a shared pointer to x.  A callback has only the address; of the others
  // it is enough here that they speak of x.
  predicate MayKeep(f: Frame, x: Token) {
    TokenOf(f) == Some(x) && !f.Completion?
  }

  ghost predicate Alive(s: State, x: Token) {
    || InLists(s, x) || s.connTok == Some(x) || x in s.userRefs || x in s.displaced
    || exists t, i :: 0 <= t < |s.threads| && 0 <= i < |s.threads[t]| && MayKeep(s.threads[t][i], x)
  }

  // Nothing speaks of y but connTok_ and the callees of threads t and u.
  ghost predicate OnlyThere(s: State, y: Token, t: nat, u: nat) {
    && s.connTok == Some(y) && y.Connection? && y !in s.pending && y !in s.userRefs && y !in s.displaced
    && forall v, i :: 0 <= v < |s.threads| && 0 <= i < |s.threads[v]| && TokenOf(s.threads[v][i]) == Some(y) ==>
         (v == t || v == u) && i == |s.threads[v]| - 1
  }

  // Thread t has begun a connect() and made y, and thread u is in the middle of another.
  ghost predicate Race(s: State, t: nat, g: Frame, u: nat, f: Frame, y: Token) {
    t != u && CalleeIs(s, t, g) && CalleeIs(s, u, f) && Frees(s, ClientMutex) && OnlyThere(s, y, t, u)
  }

  lemma RaceGoesOn(s: State, t: nat, g: Frame, u: nat, f: Frame, y: Token, f': Frame, s': State)
    requires Race(s, t, g, u, f, y) && Frees(s', ClientMutex)
    requires s'.threads == s.threads[u := Below(s, u) + [f']] && s'.sleeping == s.sleeping
    requires s'.connTok == s.connTok && y !in s'.pending && s'.userRefs == s.userRefs && s'.displaced == s.displaced
    ensures Race(s', t, g, u, f', y)
  {
  }

  lemma BegunIsNew(s: State, t: nat, y: Token, s': State)
    requires AllMade(s) && t < |s.threads| && y !in s.created && y.Connection?
    requires s'.threads == s.threads[t := s.threads[t] + [Connect(Some(y), ConnectPc.Made)]]
    requires s' == s.(threads := s'.threads, connTok := Some(y), created := s.created + {y}, displaced := s'.displaced)
    requires s'.displaced == s.displaced + if s.connTok.Some? then {s.connTok.value} else {}
    ensures OnlyThere(s', y, t, t)
  {
    assert !Spoken(s, y);
  }

  // What the holder of the client's mutex speaks of does not change as it releases it.
  lemma HolderSpeaks(s: State, t: nat, f: Frame, y: Token)
    requires Holds(f) == Some(ClientMutex)
    ensures |Next(s, f)| <= 1 && (Next(s, f) != [] ==> TokenOf(Next(s, f)[0]) == TokenOf(f))
    ensures y !in s.pending && TokenOf(f) != Some(y) ==> y !in Effect(s, t, f).pending
  {
    if f.Remove? {
      RemoveFirstSubset(s.pending, f.tok);
    }
  }

  lemma ReleasedOnlyThere(s: State, y: Token, t: nat, v: nat, s': State)
    requires Released(s, ClientMutex, v, s') && OnlyThere(s, y, t, t) && Busy(s, t) && Holds(Top(s, t)) == None
    ensures OnlyThere(s', y, t, t)
  {
    HolderEffect(s, ClientMutex, v, s');
    if s' != s {
      HolderSpeaks(s, v, Top(s, v), y);
      assert s'.threads[v] == Below(s, v) + Next(s, Top(s, v));
    }
  }

  lemma HolderIs(p: Policy, n: nat, s: State, v: nat, s': State, u: nat, f: Frame)
    requires ReachableUnder(p, n, s) && Released(s, ClientMutex, v, s') && Frees(s', ClientMutex)
    requires CalleeIs(s, u, f) && Holds(f) == Some(ClientMutex)
    ensures s' != s && v == u
  {
    assert Holds(s.threads[u][|s.threads[u]| - 1]) == Some(ClientMutex);
    ReachableIsSound(p, n, s);
  }

  // The earlier connect() after the mutex has been released.
  lemma BetweenStays(p: Policy, n: nat, s: State, v: nat, s': State, u: nat, f: Frame) returns (f': Frame)
    requires ReachableUnder(p, n, s) && ReachableUnder(p, n, s') && Released(s, ClientMutex, v, s')
    requires Frees(s', ClientMutex) && CalleeIs(s, u, f) && Between(f)
    ensures CalleeIs(s', u, f') && Between(f') && !f'.pc.Listing? && f'.seen == f.seen
  {
    if f.pc.Listing? {
      f' := Connect(f.seen, ToHand);
      HolderIs(p, n, s, v, s', u, f);
      HolderGoesOn(p, n, s, ClientMutex, u, s', f');
    } else {
      f' := f;
      StaysBeside(p, n, s, ClientMutex, v, s', u, f);
    }
  }

  lemma RaceStarts(p: Policy, n: nat, s: State, t: nat, y: Token, u: nat, i: nat) returns (s': State, f: Frame)
    requires MayBegin(p, n, s, BeginConnect(t, y))
    requires u < |s.threads| && i < |s.threads[u]| && Between(s.threads[u][i])
    ensures ReachableUnder(p, n, s') && Race(s', t, Connect(Some(y), ConnectPc.Made), u, f, y)
    ensures Between(f) && !f.pc.Listing? && f.seen != Some(y)
  {
    ReachableIsSound(p, n, s);
    assert PlacedIn(s.threads[u], i);
    f := s.threads[u][i];
    var g := Connect(Some(y), ConnectPc.Made);
    var s1 := Begins(p, n, s, t, y);
    BegunIsNew(s, t, y, s1);
    CalleeAwake(p, n, s1, t, g);
    CalleeAwake(p, n, s1, u, f);
    var v;
    s', v := FreeUp(p, n, s1, ClientMutex);
    StaysBeside(p, n, s1, ClientMutex, v, s', t, g);
    ReleasedOnlyThere(s1, y, t, v, s');
    f := BetweenStays(p, n, s1, v, s', u, f);
  }

  // The earlier connect() goes on until it is refused, handing over y if it has nothing else.
  lemma Hands(p: Policy, n: nat, s: State, t: nat, g: Frame, u: nat, f: Frame, y: Token) returns (s': State, f': Frame)
    requires ReachableUnder(p, n, s) && Race(s, t, g, u, f, y)
    requires f.Connect? && (f.pc.ToList? || f.pc.ToHand?) && f.seen != Some(y)
    ensures ReachableUnder(p, n, s') && Race(s', t, g, u, f', y) && f'.Connect? && f'.pc.Handed?
  {
    s', f' := s, f;
    if f.pc.ToList? {
      ReachableIsSound(p, n, s);
      assert TypedFrame(s.threads[u][|s.threads[u]| - 1]);
      f' := Connect(f.seen, ToHand);
      s' := Lists(p, n, s, u, f.seen.value);
      RaceGoesOn(s, t, g, u, f, y, f', s');
    }
    var s1, f1 := s', f';
    f' := Connect(Some(y), Handed);
    s' := Reads(p, n, s1, u, f1);
    RaceGoesOn(s1, t, g, u, f1, y, f', s');
  }

  lemma IsRefused(p: Policy, n: nat, s: State, t: nat, g: Frame, u: nat, f: Frame, y: Token)
    returns (s': State, f': Frame)
    requires ReachableUnder(p, n, s) && Race(s, t, g, u, f, y) && Between(f) && !f.pc.Listing? && f.seen != Some(y)
    ensures ReachableUnder(p, n, s') && Race(s', t, g, u, f', y) && f'.Connect? && f'.pc.Denied?
  {
    s', f' := s, f;
    if f.pc.ToList? || f.pc.ToHand? {
      s', f' := Hands(p, n, s, t, g, u, f, y);
    }
    if f'.pc.Handed? {
      var s1, f1 := s', f';
      f' := Connect(f1.seen, Denied);
      s' := Refuses(p, n, s1, u, f1.seen);
      RaceGoesOn(s1, t, g, u, f1, y, f', s');
    }
  }

  // The later connect() goes on to the library's yes.
  lemma GoesThrough(p: Policy, n: nat, s: State, t: nat, y: Token) returns (s': State)
    requires ReachableUnder(p, n, s) && Frees(s, ClientMutex)
    requires CalleeIs(s, t, Connect(Some(y), ConnectPc.Made)) && s.connTok == Some(y)
    ensures ReachableUnder(p, n, s') && Frees(s', ClientMutex)
    ensures s'.threads == s.threads[t := Below(s, t) + [Connect(Some(y), Granted)]]
    ensures s' == s.(pending := s.pending + [y], inFlight := s.inFlight + multiset{y}, threads := s'.threads)
  {
    s' := ListsOwn(p, n, s, t, y);
    assert Below(s', t) == Below(s, t);
    s' := HandsOwn(p, n, s', t, Some(y), y);
    assert s'.threads == s.threads[t := Below(s, t) + [Connect(Some(y), Granted)]];
  }

  // The refusal of the other one removes y, and clears connTok_.
  lemma RemovesOther(p: Policy, n: nat, s: State, u: nat, y: Token, seen: Option<Token>, pending: seq<Token>)
    returns (s': State)
    requires ReachableUnder(p, n, s) && Frees(s, ClientMutex) && CalleeIs(s, u, Connect(seen, Denied))
    requires s.connTok == Some(y) && y.Connection? && s.pending == pending + [y] && y !in pending
    ensures ReachableUnder(p, n, s')
    ensures s'.threads == s.threads[u := Below(s, u) + [Connect(seen, Clearing)]]
    ensures s' == s.(pending := pending, threads := s'.threads)
  {
    ReachableIsSound(p, n, s);
    s' := Reads(p, n, s, u, Connect(seen, Denied));
    assert Top(s', u) == Remove(y, AtErase) && Below(s', u) == Below(s, u) + [Connect(seen, Clearing)];
    s' := Erases(p, n, s', u, y);
    RemoveFirstAdded(pending, y);
    assert s'.threads == s.threads[u := Below(s, u) + [Connect(seen, Clearing)]];
  }

  lemma Clears(p: Policy, n: nat, s: State, u: nat, seen: Option<Token>) returns (s': State)
    requires ReachableUnder(p, n, s) && CalleeIs(s, u, Connect(seen, Clearing))
    ensures ReachableUnder(p, n, s') && s' == s.(connTok := None, threads := s.threads[u := Below(s, u)])
  {
    s' := Advances(p, n, s, u);
    assert Below(s, u) + [] == Below(s, u);
  }

  // connect() returns a null pointer.
  lemma NullChangesNothing(s: State, t: nat, seen: Option<Token>)
    requires s.connTok == None
    ensures Effect(s, t, Connect(seen, Granted)) == s && NextOfConnect(s, Connect(seen, Granted)) == []
  {
  }

  lemma ReturnsNull(p: Policy, n: nat, s: State, t: nat, seen: Option<Token>) returns (s': State)
    requires ReachableUnder(p, n, s) && CalleeIs(s, t, Connect(seen, Granted)) && s.connTok == None
    ensures ReachableUnder(p, n, s') && s' == s.(threads := s.threads[t := Below(s, t)])
  {
    NullChangesNothing(s, t, seen);
    s' := Advances(p, n, s, t);
    assert Below(s, t) + [] == Below(s, t);
  }

  lemma BothGone(s: State, t: nat, u: nat, y: Token, s': State)
    requires t != u && Busy(s, t) && Busy(s, u) && OnlyThere(s, y, t, u) && s'.connTok == None
    requires s'.threads == s.threads[u := Below(s, u)][t := Below(s, t)] && y !in s'.pendingDelivery
    requires s'.pending == s.pending && s'.userRefs == s.userRefs && s'.displaced == s.displaced
    ensures !Alive(s', y)
  {
  }

  // Both have had the library's answer, and the earlier one is still to remove what it reads.
  lemma BothReturn(p: Policy, n: nat, s: State, t: nat, u: nat, seen: Option<Token>, y: Token, pending: seq<Token>)
    returns (s': State)
    requires ReachableUnder(p, n, s) && Frees(s, ClientMutex) && t != u
    requires CalleeIs(s, t, Connect(Some(y), Granted)) && CalleeIs(s, u, Connect(seen, Denied))
    requires s.connTok == Some(y) && y.Connection? && s.pending == pending + [y] && y !in pending
    ensures ReachableUnder(p, n, s') && s'.threads == s.threads[u := Below(s, u)][t := Below(s, t)]
    ensures s' == s.(pending := pending, connTok := None, threads := s'.threads)
  {
    s' := RemovesOther(p, n, s, u, y, seen, pending);
    s' := Clears(p, n, s', u, seen);
    s' := ReturnsNull(p, n, s', t, Some(y));
    assert s'.threads == s.threads[u := Below(s, u)][t := Below(s, t)];
  }

  lemma Dangles(p: Policy, n: nat, s: State, t: nat, u: nat, seen: Option<Token>, y: Token) returns (s': State)
    requires ReachableUnder(p, n, s)
    requires Race(s, t, Connect(Some(y), ConnectPc.Made), u, Connect(seen, Denied), y)
    ensures ReachableUnder(p, n, s') && y in s'.inFlight && !Alive(s', y)
  {
    var s1 := GoesThrough(p, n, s, t, y);
    assert CalleeIs(s1, u, Connect(seen, Denied));
    s' := BothReturn(p, n, s1, t, u, seen, y, s.pending);
    ReachableIsSound(p, n, s');
    assert s'.threads == s.threads[u := Below(s, u)][t := Below(s, t)];
    BothGone(s, t, u, y, s');
  }

  // The later connect() returns null, the earlier one throws, and the library holds the address of
  // a token to which no pointer is left.
  lemma OverlapDisowns(p: Policy, n: nat, s: State, t: nat, y: Token, u: nat, i: nat) returns (s': State)
    requires MayBegin(p, n, s, BeginConnect(t, y))
    requires u < |s.threads| && i < |s.threads[u]| && Between(s.threads[u][i])
    ensures ReachableUnder(p, n, s') && HeldByLibrary(s', y) && !Alive(s', y)
  {
    var f;
    s', f := RaceStarts(p, n, s, t, y, u, i);
    s', f := IsRefused(p, n, s', t, Connect(Some(y), ConnectPc.Made), u, f, y);
    s' := Dangles(p, n, s', t, u, f.seen, y);
  }

  // ---- An account that fails ----

  // Frame d of thread u is a connect() that is not finished, and at most remove_token() runs in it.
  predicate ConnectAt(s: State, u: nat, d: nat) {
    && u < |s.threads| && d < |s.threads[u]| && Unfinished(s.threads[u][d])
    && PlacedIn(s.threads[u], d)
  }

  lemma ReleaseKeepsConnect(s: State, v: nat, s': State, u: nat, d: nat)
    requires Typed(s) && Released(s, ClientMutex, v, s') && ConnectAt(s, u, d)
    ensures ConnectAt(s', u, d)
  {
    if s' != s && u == v {
      var fs' := Below(s, v) + Next(s, Top(s, v));
      assert s'.threads[v] == fs' && d < |fs'|;
    }
  }

  function Rank(fs: seq<Frame>, d: nat): nat
    requires d < |fs| && fs[d].Connect?
  {
    match fs[d].pc
    case Made => 8
    case ToList => 7
    case Listing => 6
    case ToHand => 5
    case Handed => 4
    case Denied => 3
    case Clearing => if d < |fs| - 1 then 2 else 1
    case Granted => 0
  }

  // A move of thread u, and of nobody else, towards the end of its connect() at d.
  ghost predicate Nearer(s: State, u: nat, d: nat, s': State)
    requires ConnectAt(s, u, d)
  {
    && |s'.threads| == |s.threads| && s'.sleeping == s.sleeping
    && (forall v :: 0 <= v < |s.threads| && v != u ==> s'.threads[v] == s.threads[v])
    && (if Rank(s.threads[u], d) == 1 then s'.connTok == None
        else ConnectAt(s', u, d) && Rank(s'.threads[u], d) < Rank(s.threads[u], d))
  }

  lemma RemovesNext(s: State, u: nat, d: nat) returns (tok: Token)
    requires Frees(s, ClientMutex) && ConnectAt(s, u, d) && d < |s.threads[u]| - 1
    ensures d == |s.threads[u]| - 2 && Top(s, u) == Remove(tok, AtErase) && tok.Connection?
    ensures s.threads[u][d].pc.Clearing? && Below(s, u)[d] == s.threads[u][d]
  {
    tok := s.threads[u][d + 1].tok;
    assert Holds(s.threads[u][d + 1]) != Some(ClientMutex);
  }

  lemma NearerByRemoving(s: State, u: nat, d: nat, s': State)
    requires ConnectAt(s, u, d) && d == |s.threads[u]| - 2 && s.threads[u][d].pc.Clearing?
    requires s'.threads == s.threads[u := Below(s, u)] && s'.sleeping == s.sleeping
    ensures Nearer(s, u, d, s')
  {
  }

  lemma NearerInPlace(s: State, u: nat, d: nat, f: Frame, s': State)
    requires ConnectAt(s, u, d) && d == |s.threads[u]| - 1 && Unfinished(f)
    requires s'.threads == s.threads[u := Below(s, u) + [f]] && s'.sleeping == s.sleeping
    requires Rank([f], 0) < Rank([s.threads[u][d]], 0) && Rank([s.threads[u][d]], 0) > 1
    ensures Nearer(s, u, d, s')
  {
  }

  lemma NearerByCalling(s: State, u: nat, d: nat, seen: Option<Token>, tok: Token, s': State)
    requires ConnectAt(s, u, d) && d == |s.threads[u]| - 1 && s.threads[u][d].pc.Denied? && tok.Connection?
    requires s'.threads == s.threads[u := Below(s, u) + [Connect(seen, Clearing), Remove(tok, AtErase)]]
    requires s'.sleeping == s.sleeping
    ensures Nearer(s, u, d, s')
  {
  }

  lemma NearerByReading(s: State, u: nat, d: nat, f: Frame, s': State)
    requires ConnectAt(s, u, d) && d == |s.threads[u]| - 1 && s.threads[u][d] == f
    requires (f.pc.Made? || f.pc.ToHand? || f.pc.Denied?) && (s.connTok.Some? ==> s.connTok.value.Connection?)
    requires s'.threads == s.threads[u := Below(s, u) + NextOfConnect(s, f)] && s'.sleeping == s.sleeping
    ensures Nearer(s, u, d, s')
  {
    if f.pc.Denied? && s.connTok.Some? {
      NearerByCalling(s, u, d, f.seen, s.connTok.value, s');
    } else {
      NearerInPlace(s, u, d, NextOfConnect(s, f)[0], s');
    }
  }

  lemma ConnTokTyped(p: Policy, n: nat, s: State)
    requires ReachableUnder(p, n, s)
    ensures s.connTok.Some? ==> s.connTok.value.Connection?
  {
    ReachableIsSound(p, n, s);
  }

  // The next use of connTok_.
  lemma ReadsOn(p: Policy, n: nat, s: State, u: nat, d: nat, f: Frame) returns (s': State)
    requires ReachableUnder(p, n, s) && Frees(s, ClientMutex) && ConnectAt(s, u, d) && d == |s.threads[u]| - 1
    requires CalleeIs(s, u, f) && f.Connect? && (f.pc.Made? || f.pc.ToHand? || f.pc.Denied?)
    ensures ReachableUnder(p, n, s') && Frees(s', ClientMutex) && Nearer(s, u, d, s')
  {
    ConnTokTyped(p, n, s);
    s' := Reads(p, n, s, u, f);
    NearerByReading(s, u, d, f, s');
  }

  lemma ListsOn(p: Policy, n: nat, s: State, u: nat, d: nat, tok: Token) returns (s': State)
    requires ReachableUnder(p, n, s) && Frees(s, ClientMutex) && ConnectAt(s, u, d) && d == |s.threads[u]| - 1
    requires CalleeIs(s, u, Connect(Some(tok), ToList))
    ensures ReachableUnder(p, n, s') && Frees(s', ClientMutex) && Nearer(s, u, d, s')
  {
    s' := Lists(p, n, s, u, tok);
    NearerInPlace(s, u, d, Connect(Some(tok), ToHand), s');
  }

  lemma RefusedOn(p: Policy, n: nat, s: State, u: nat, d: nat, seen: Option<Token>) returns (s': State)
    requires ReachableUnder(p, n, s) && Frees(s, ClientMutex) && ConnectAt(s, u, d) && d == |s.threads[u]| - 1
    requires CalleeIs(s, u, Connect(seen, Handed))
    ensures ReachableUnder(p, n, s') && Frees(s', ClientMutex) && Nearer(s, u, d, s')
  {
    s' := Refuses(p, n, s, u, seen);
    NearerInPlace(s, u, d, Connect(seen, Denied), s');
  }

  lemma ClearsOn(p: Policy, n: nat, s: State, u: nat, d: nat, seen: Option<Token>) returns (s': State)
    requires ReachableUnder(p, n, s) && Frees(s, ClientMutex) && ConnectAt(s, u, d) && d == |s.threads[u]| - 1
    requires CalleeIs(s, u, Connect(seen, Clearing))
    ensures ReachableUnder(p, n, s') && Frees(s', ClientMutex) && Nearer(s, u, d, s')
  {
    s' := Advances(p, n, s, u);
    AdvanceKeepsFree(s, u, ClientMutex);
  }

  // One move of the earlier connect() towards its end, always refused; connTok_ is null at the end.
  lemma MovesOn(p: Policy, n: nat, s: State, u: nat, d: nat) returns (s': State)
    requires ReachableUnder(p, n, s) && Frees(s, ClientMutex) && ConnectAt(s, u, d)
    ensures ReachableUnder(p, n, s') && Frees(s', ClientMutex) && Nearer(s, u, d, s')
  {
    ReachableIsSound(p, n, s);
    var f := s.threads[u][d];
    if d < |s.threads[u]| - 1 {
      var tok := RemovesNext(s, u, d);
      CalleeAwake(p, n, s, u, Remove(tok, AtErase));
      s' := Erases(p, n, s, u, tok);
      NearerByRemoving(s, u, d, s');
    } else {
      CalleeAwake(p, n, s, u, f);
      s' := CalleeMovesOn(p, n, s, u, d, f);
    }
  }

  lemma CalleeMovesOn(p: Policy, n: nat, s: State, u: nat, d: nat, f: Frame) returns (s': State)
    requires ReachableUnder(p, n, s) && Frees(s, ClientMutex) && ConnectAt(s, u, d) && d == |s.threads[u]| - 1
    requires CalleeIs(s, u, f) && TypedFrame(f)
    ensures ReachableUnder(p, n, s') && Frees(s', ClientMutex) && Nearer(s, u, d, s')
  {
    match f.pc
    case ToList =>
      s' := ListsOn(p, n, s, u, d, f.seen.value);
    case Handed =>
      s' := RefusedOn(p, n, s, u, d, f.seen);
    case Clearing =>
      s' := ClearsOn(p, n, s, u, d, f.seen);
    case Listing =>
      assert false;
    case _ =>
      s' := ReadsOn(p, n, s, u, d, f);
  }

  lemma {:induction false} RunsOut(p: Policy, n: nat, s: State, u: nat, d: nat) returns (s': State)
    requires ReachableUnder(p, n, s) && Frees(s, ClientMutex) && ConnectAt(s, u, d)
    ensures ReachableUnder(p, n, s') && s'.connTok == None
    ensures |s'.threads| == |s.threads| && s'.sleeping == s.sleeping
    ensures forall v :: 0 <= v < |s.threads| && v != u ==> s'.threads[v] == s.threads[v]
    decreases Rank(s.threads[u], d)
  {
    s' := MovesOn(p, n, s, u, d);
    if Rank(s.threads[u], d) > 1 {
      s' := RunsOut(p, n, s', u, d);
    }
  }

  // The later connect() finds connTok_ null when it has added its token.
  lemma FindsNull(p: Policy, n: nat, s: State, t: nat, y: Token) returns (s': State)
    requires ReachableUnder(p, n, s) && s.connTok == None && CalleeIs(s, t, Connect(Some(y), ToHand))
    ensures ReachableUnder(p, n, s') && !LedgerInv(s', y)
  {
    if LedgerInv(s, y) {
      StepKeepsLedgerInv(s, Advance(t), y);
      s' := Proceeds(p, n, s, Advance(t));
    } else {
      s' := s;
    }
  }

  lemma AddsThenLosesConnTok(p: Policy, n: nat, s: State, t: nat, u: nat, d: nat, y: Token) returns (s': State)
    requires ReachableUnder(p, n, s) && Frees(s, ClientMutex) && ConnectAt(s, u, d) && u != t
    requires CalleeIs(s, t, Connect(Some(y), ConnectPc.Made)) && s.connTok == Some(y)
    ensures ReachableUnder(p, n, s') && s'.connTok == None && CalleeIs(s', t, Connect(Some(y), ToHand))
  {
    s' := ListsOwn(p, n, s, t, y);
    s' := RunsOut(p, n, s', u, d);
  }

  // An unfinished connect() is not in the user's code.
  lemma UnfinishedElsewhere(s: State, t: nat, u: nat, d: nat)
    requires Placed(s) && InUserCode(s, t) && u < |s.threads| && d < |s.threads[u]| && Unfinished(s.threads[u][d])
    ensures u != t && ConnectAt(s, u, d)
  {
    assert PlacedIn(s.threads[u], d);
  }

  lemma OverlapUnbalances(p: Policy, n: nat, s: State, t: nat, y: Token, u: nat, d: nat) returns (s': State)
    requires MayBegin(p, n, s, BeginConnect(t, y))
    requires u < |s.threads| && d < |s.threads[u]| && Unfinished(s.threads[u][d])
    ensures ReachableUnder(p, n, s') && !LedgerInv(s', y)
  {
    var g := Connect(Some(y), ConnectPc.Made);
    ReachableIsSound(p, n, s);
    UnfinishedElsewhere(s, t, u, d);
    var s1 := Begins(p, n, s, t, y);
    CalleeAwake(p, n, s1, t, g);
    assert ConnectAt(s1, u, d);
    var v;
    s', v := FreeUp(p, n, s1, ClientMutex);
    StaysBeside(p, n, s1, ClientMutex, v, s', t, g);
    HolderEffect(s1, ClientMutex, v, s');
    ReachableIsSound(p, n, s1);
    ReleaseKeepsConnect(s1, v, s', u, d);
    s' := AddsThenLosesConnTok(p, n, s', t, u, d, y);
    s' := FindsNull(p, n, s', t, y);
  }

  // ---- The exact conditions ----

  ghost predicate KeepsOwned(p: Policy, n: nat) {
    forall s, x | ReachableUnder(p, n, s) && HeldByLibrary(s, x) :: InLists(s, x)
  }

  ghost predicate KeepsAlive(p: Policy, n: nat) {
    forall s, x | ReachableUnder(p, n, s) && HeldByLibrary(s, x) :: Alive(s, x)
  }

  ghost predicate KeepsAccount(p: Policy, n: nat) {
    forall s, x | ReachableUnder(p, n, s) :: LedgerInv(s, x)
  }

  // The policy lets no connect() begin in a state in which some other one is between its first use
  // of connTok_ and the answer of the library.
  ghost predicate NeverBetween(p: Policy, n: nat) {
    forall s, t, y | MayBegin(p, n, s, BeginConnect(t, y)) :: NobodyBetween(s)
  }

  // The policy lets no connect() begin in a state in which some other one is unfinished.
  ghost predicate OneAtATime(p: Policy, n: nat) {
    forall s, t, y | MayBegin(p, n, s, BeginConnect(t, y)) :: NobodyConnects(s)
  }

  lemma {:induction false} RunsKeepCovered(p: Policy, n: nat, s: State, es: seq<Event>, x: Token)
    requires NeverBetween(p, n) && ReachableUnder(p, n, s) && RunsUnder(p, s, es) && SeenIsCurrent(s) && Covered(s, x)
    ensures Covered(After(s, es), x)
    decreases |es|
  {
    if es != [] {
      StepKeepsSeen(s, es[0]);
      StepKeepsCovered(s, es[0], x);
      var s' := Proceeds(p, n, s, es[0]);
      RunsKeepCovered(p, n, s', es[1..], x);
    }
  }

  lemma {:induction false} RunsKeepSole(p: Policy, n: nat, s: State, es: seq<Event>, x: Token)
    requires OneAtATime(p, n) && ReachableUnder(p, n, s) && RunsUnder(p, s, es) && Sole(s) && LedgerInv(s, x)
    ensures LedgerInv(After(s, es), x)
    decreases |es|
  {
    if es != [] {
      StepKeepsSole(s, es[0]);
      SoleNeverMisreads(s, es[0], x);
      StepKeepsLedgerInv(s, es[0], x);
      var s' := Proceeds(p, n, s, es[0]);
      RunsKeepSole(p, n, s', es[1..], x);
    }
  }

  lemma CoveredIsOwned(s: State, x: Token)
    requires Covered(s, x) && HeldByLibrary(s, x)
    ensures InLists(s, x)
  {
    HeldIsOwed(s, x);
    CountIn(s.pending, x);
    CountIn(s.pendingDelivery, x);
  }

  lemma NeverBetweenOwns(p: Policy, n: nat, s: State, x: Token)
    requires NeverBetween(p, n) && ReachableUnder(p, n, s) && HeldByLibrary(s, x)
    ensures InLists(s, x)
  {
    var es :| RunsUnder(p, Start(n), es) && After(Start(n), es) == s;
    StartReachable(p, n);
    StartsAccounted(n, x);
    RunsKeepCovered(p, n, Start(n), es, x);
    CoveredIsOwned(s, x);
  }

  // Under a policy, every address that the library holds is always owned by a pending list if and
  // only if no connect() begins while another is between its first use of connTok_ and the answer.
  // And nothing else makes up for the lists: exactly then some pointer to its token is always left.
  lemma OwnedExactly(p: Policy, n: nat)
    ensures KeepsOwned(p, n) <==> NeverBetween(p, n)
    ensures KeepsAlive(p, n) <==> NeverBetween(p, n)
  {
    if NeverBetween(p, n) {
      forall s, x | ReachableUnder(p, n, s) && HeldByLibrary(s, x) ensures InLists(s, x) {
        NeverBetweenOwns(p, n, s, x);
      }
    } else {
      var s, t, y :| MayBegin(p, n, s, BeginConnect(t, y)) && !NobodyBetween(s);
      var u: int, i: int :| 0 <= u < |s.threads| && 0 <= i < |s.threads[u]| && Between(s.threads[u][i]);
      var s' := OverlapDisowns(p, n, s, t, y, u, i);
    }
  }

  // Under a policy, the lists always account for every submission if and only if no connect()
  // begins while another is unfinished.
  lemma AccountExactly(p: Policy, n: nat)
    ensures KeepsAccount(p, n) <==> OneAtATime(p, n)
  {
    if OneAtATime(p, n) {
      forall s, x | ReachableUnder(p, n, s) ensures LedgerInv(s, x) {
        var es :| RunsUnder(p, Start(n), es) && After(Start(n), es) == s;
        StartReachable(p, n);
        StartsAccounted(n, x);
        RunsKeepSole(p, n, Start(n), es, x);
      }
    } else {
      var s, t, y :| MayBegin(p, n, s, BeginConnect(t, y)) && !NobodyConnects(s);
      var u: int, i: int :| 0 <= u < |s.threads| && 0 <= i < |s.threads[u]| && Unfinished(s.threads[u][i]);
      var s' := OverlapUnbalances(p, n, s, t, y, u, i);
    }
  }

  // So under such a policy nothing at all leaks.
  lemma NothingLeaks(p: Policy, n: nat, s: State)
    requires OneAtATime(p, n) && ReachableUnder(p, n, s) && AtRest(s)
    ensures s.pending == [] && s.pendingDelivery == []
  {
    AccountExactly(p, n);
    forall x: Token ensures Count(s.pending, x) == 0 && Count(s.pendingDelivery, x) == 0 {
      assert LedgerInv(s, x);
      SumOfNone(OwesOf(x), s.threads);
    }
    CountNothing(s.pending);
    CountNothing(s.pendingDelivery);
  }

  lemma CountNothing(xs: seq<Token>)
    requires forall x :: Count(xs, x) == 0
    ensures xs == []
  {
    if xs != [] {
      CountIn(xs, xs[0]);
      assert false;
    }
  }
}
