/**
 The pending lists account for every submission, in every interleaving: what they hold is what
 the library still has to call back plus what some running function still has to remove.  So
 every address that the library holds, or that a callback of the library still dereferences,
 belongs to a token that a pending list keeps alive.

 There is one exception, and it is exact: connect() reads connTok_ anew each time that it uses its
 token, and the account of a token fails just when connect() reads another one.
 */
module AsyncLedger {
  import opened Common
  import opened AsyncThreads

  // ---- Sums over all the frames of all the threads ----

  type Weight = Frame -> nat

  ghost function SumStack(w: Weight, fs: seq<Frame>): nat {
    if fs == [] then 0 else SumStack(w, fs[..|fs| - 1]) + w(fs[|fs| - 1])
  }

  ghost function SumAll(w: Weight, ts: seq<seq<Frame>>): nat {
    if ts == [] then 0 else SumAll(w, ts[..|ts| - 1]) + SumStack(w, ts[|ts| - 1])
  }

  lemma {:induction false} SumUpdate(w: Weight, ts: seq<seq<Frame>>, t: nat, fs: seq<Frame>)
    requires t < |ts|
    ensures SumAll(w, ts[t := fs]) + SumStack(w, ts[t]) == SumAll(w, ts) + SumStack(w, fs)
  {
    var n := |ts| - 1;
    if t == n {
      assert ts[t := fs][..n] == ts[..n];
    } else {
      SumUpdate(w, ts[..n], t, fs);
      assert ts[t := fs][..n] == ts[..n][t := fs];
    }
  }

  lemma {:induction false} SumConcat(w: Weight, fs: seq<Frame>, gs: seq<Frame>)
    ensures SumStack(w, fs + gs) == SumStack(w, fs) + SumStack(w, gs)
  {
    if gs == [] {
      assert fs + gs == fs;
    } else {
      SumConcat(w, fs, gs[..|gs| - 1]);
      assert (fs + gs)[..|fs + gs| - 1] == fs + gs[..|gs| - 1];
    }
  }

  // The sum of at most two frames, without recursion.
  ghost function SumFew(w: Weight, fs: seq<Frame>): nat
    requires |fs| <= 2
  {
    (if |fs| > 0 then w(fs[0]) else 0) + (if |fs| > 1 then w(fs[1]) else 0)
  }

  lemma SumFewIsSum(w: Weight, fs: seq<Frame>)
    requires |fs| <= 2
    ensures SumStack(w, fs) == SumFew(w, fs)
  {
    if |fs| == 2 {
      assert SumStack(w, fs[..1]) == SumStack(w, fs[..1][..0]) + w(fs[0]);
    }
  }

  lemma SumReplace(w: Weight, ts: seq<seq<Frame>>, t: nat, drop: bool, gs: seq<Frame>)
    requires t < |ts| && |gs| <= 2 && (drop ==> ts[t] != [])
    ensures var fs := ts[t];
      SumAll(w, ts[t := (if drop then fs[..|fs| - 1] else fs) + gs]) + (if drop then w(fs[|fs| - 1]) else 0)
      == SumAll(w, ts) + SumFew(w, gs)
  {
    var fs := ts[t];
    var base := if drop then fs[..|fs| - 1] else fs;
    SumConcat(w, base, gs);
    SumFewIsSum(w, gs);
    SumUpdate(w, ts, t, base + gs);
  }

  lemma AtMostTwoFrames(s: State, e: Event)
    requires Enabled(s, e)
    ensures |NewFrames(s, e)| <= 2
    ensures e.WakeUp? || e.Drop? ==> NewFrames(s, e) == []
  {
  }

  // How a step changes a sum over all the frames.
  lemma SumStep(w: Weight, s: State, e: Event)
    requires Enabled(s, e)
    ensures |NewFrames(s, e)| <= 2
    ensures SumAll(w, Stacks(s, e)) + (if Replaces(e) then w(Top(s, e.t)) else 0)
            == SumAll(w, s.threads) + SumFew(w, NewFrames(s, e))
  {
    AtMostTwoFrames(s, e);
    if !(e.WakeUp? || e.Drop?) {
      SumReplace(w, s.threads, e.t, Replaces(e), NewFrames(s, e));
    }
  }

  lemma {:induction false} SumHasFrame(w: Weight, fs: seq<Frame>, i: nat)
    requires i < |fs|
    ensures w(fs[i]) <= SumStack(w, fs)
  {
    if i < |fs| - 1 {
      SumHasFrame(w, fs[..|fs| - 1], i);
    }
  }

  lemma {:induction false} SumHas(w: Weight, ts: seq<seq<Frame>>, t: nat, i: nat)
    requires t < |ts| && i < |ts[t]|
    ensures w(ts[t][i]) <= SumAll(w, ts)
  {
    var n := |ts| - 1;
    if t == n {
      SumHasFrame(w, ts[t], i);
    } else {
      SumHas(w, ts[..n], t, i);
    }
  }

  lemma {:induction false} SumOfNoFrame(w: Weight, fs: seq<Frame>)
    requires forall i :: 0 <= i < |fs| ==> w(fs[i]) == 0
    ensures SumStack(w, fs) == 0
  {
    if fs != [] {
      SumOfNoFrame(w, fs[..|fs| - 1]);
    }
  }

  lemma {:induction false} SumOfNone(w: Weight, ts: seq<seq<Frame>>)
    requires forall t, i :: 0 <= t < |ts| && 0 <= i < |ts[t]| ==> w(ts[t][i]) == 0
    ensures SumAll(w, ts) == 0
  {
    if ts != [] {
      SumOfNone(w, ts[..|ts| - 1]);
      SumOfNoFrame(w, ts[|ts| - 1]);
    }
  }

  // ---- The ledger ----

  // The submission that a running function has added, or was called back for, and that it has
  // still to remove from the lists or to hand to the library.
  predicate Owes(f: Frame, x: Token) {
    match f
    case Submit(tok, _, at) => tok == x && (at.Added? || at.Refused?)
    case Connect(seen, pc) => seen == Some(x) && (pc.ToHand? || pc.Handed? || pc.Denied?)
    case Completion(tok, step) => tok == x && !step.Completed?
    case Remove(tok, stage) => tok == x && (stage.AtErase? || stage.Erasing?)
    case _ => false
  }

  function OwesOf(x: Token): Weight {
    (f: Frame) => if Owes(f, x) then 1 else 0
  }

  // How often a value occurs in a list.
  function Count<T(==)>(xs: seq<T>, x: T): nat {
    if xs == [] then 0 else (if xs[0] == x then 1 else 0) + Count(xs[1..], x)
  }

  // How often a token is in the two lists.
  function PendingCount(s: State, x: Token): nat {
    Count(s.pending, x) + Count(s.pendingDelivery, x)
  }

  ghost predicate LedgerInv(s: State, x: Token) {
    PendingCount(s, x) == s.inFlight[x] + SumAll(OwesOf(x), s.threads)
  }

  lemma {:induction false} CountAppend<T>(xs: seq<T>, y: T, x: T)
    ensures Count(xs + [y], x) == Count(xs, x) + if x == y then 1 else 0
  {
    if xs == [] {
      assert Count([y], x) == (if x == y then 1 else 0) + Count([y][1..], x);
      assert xs + [y] == [y];
    } else {
      CountAppend(xs[1..], y, x);
      assert (xs + [y])[1..] == xs[1..] + [y];
    }
  }

  lemma {:induction false} CountIn<T>(xs: seq<T>, x: T)
    ensures x in xs <==> Count(xs, x) >= 1
  {
    if xs != [] {
      CountIn(xs[1..], x);
      assert xs == [xs[0]] + xs[1..];
    }
  }

  lemma {:induction false} CountRemoveFirst<T>(xs: seq<T>, y: T, x: T)
    ensures Count(RemoveFirst(xs, y), x) == Count(xs, x) - (if x == y && Count(xs, y) >= 1 then 1 else 0)
  {
    if xs != [] && xs[0] != y {
      CountRemoveFirst(xs[1..], y, x);
      assert RemoveFirst(xs, y)[1..] == RemoveFirst(xs[1..], y);
    }
  }

  // An advancing frame adds to what is owed when it has added to a list, and takes away from it
  // when it has removed from a list.
  function Balance(f: Frame, x: Token): int {
    match f
    case Submit(tok, _, Adding) => if tok == x then 1 else 0
    case Connect(Some(tok), Listing) => if tok == x then 1 else 0
    case Remove(tok, Erasing) => if tok == x then -1 else 0
    case _ => 0
  }

  // connect() is about to hand to the library, or to remove, another token than the one it added
  // or handed over, and x is one of the two.
  predicate Misreads(s: State, f: Frame, x: Token) {
    && f.Connect? && (f.pc.ToHand? || f.pc.Denied?) && s.connTok != f.seen
    && (s.connTok == Some(x) || f.seen == Some(x))
  }

  // What is owed changes by what is added or erased; a misreading tips the balance.
  lemma NextOwes(s: State, f: Frame, x: Token)
    requires !Asking(f)
    ensures |Next(s, f)| <= 2
    ensures SumFew(OwesOf(x), Next(s, f)) == OwesOf(x)(f) + Balance(f, x) <==> !Misreads(s, f, x)
  {
    match f
    case Submit(tok, op, at) =>
    case Connect(seen, pc) =>
    case Completion(tok, step) =>
    case Remove(tok, stage) =>
    case _ =>
  }

  lemma EraseOnLists(s: State, t: nat, tok: Token, x: Token)
    requires tok == x ==> PendingCount(s, x) >= 1
    ensures PendingCount(Effect(s, t, Remove(tok, Erasing)), x) == PendingCount(s, x) - if tok == x then 1 else 0
  {
    CountIn(s.pendingDelivery, tok);
    CountRemoveFirst(s.pending, tok, x);
    CountRemoveFirst(s.pendingDelivery, tok, x);
  }

  lemma EffectOnLists(s: State, t: nat, f: Frame, x: Token)
    requires f == Remove(x, Erasing) ==> PendingCount(s, x) >= 1
    ensures PendingCount(Effect(s, t, f), x) == PendingCount(s, x) + Balance(f, x)
    ensures Effect(s, t, f).inFlight == s.inFlight
  {
    match f
    case Submit(tok, _, Adding) =>
      CountAppend(s.pending, tok, x);
      CountAppend(s.pendingDelivery, tok, x);
    case Connect(Some(tok), Listing) =>
      CountAppend(s.pending, tok, x);
    case Remove(tok, Erasing) =>
      EraseOnLists(s, t, tok, x);
    case _ =>
  }

  predicate MisreadStep(s: State, e: Event, x: Token)
    requires Enabled(s, e)
  {
    e.Advance? && Misreads(s, Top(s, e.t), x)
  }

  // The account of a token survives a step unless the step misreads, and then it does not.
  lemma AdvanceKeepsLedgerInv(s: State, t: nat, x: Token)
    requires LedgerInv(s, x) && Enabled(s, Advance(t))
    ensures LedgerInv(Apply(s, Advance(t)), x) <==> !Misreads(s, Top(s, t), x)
  {
    var f := Top(s, t);
    SumStep(OwesOf(x), s, Advance(t));
    if f == Remove(x, Erasing) {
      SumHas(OwesOf(x), s.threads, t, |s.threads[t]| - 1);
    }
    NextOwes(s, f, x);
    EffectOnLists(s, t, f, x);
  }

  // What moves between the library and the functions, when no frame advances.
  lemma VerdictOwes(s: State, t: nat, accepted: bool, x: Token)
    requires Enabled(s, Verdict(t, accepted))
    ensures var e := Verdict(t, accepted);
      && |NewFrames(s, e)| <= 1
      && Data(s, e).inFlight[x] + SumFew(OwesOf(x), NewFrames(s, e)) == s.inFlight[x] + OwesOf(x)(Top(s, t))
  {
  }

  lemma CallbackOwes(s: State, t: nat, tok: Token, x: Token)
    requires Enabled(s, LibraryCompletes(t, tok))
    ensures var e := LibraryCompletes(t, tok);
      |NewFrames(s, e)| <= 1 && Data(s, e).inFlight[x] + SumFew(OwesOf(x), NewFrames(s, e)) == s.inFlight[x]
  {
  }

  lemma QuietStepOwes(s: State, e: Event, x: Token)
    requires Enabled(s, e) && !e.Advance? && !e.Verdict? && !e.LibraryCompletes?
    ensures |NewFrames(s, e)| <= 1 && SumFew(OwesOf(x), NewFrames(s, e)) == 0
    ensures Replaces(e) ==> OwesOf(x)(Top(s, e.t)) == 0
    ensures Data(s, e).inFlight == s.inFlight
  {
  }

  lemma OtherStepOwes(s: State, e: Event, x: Token)
    requires Enabled(s, e) && !e.Advance? && !e.Verdict?
    ensures |NewFrames(s, e)| <= 1
    ensures Replaces(e) ==> OwesOf(x)(Top(s, e.t)) == 0
    ensures Data(s, e).inFlight[x] + SumFew(OwesOf(x), NewFrames(s, e)) == s.inFlight[x]
  {
    if e.LibraryCompletes? {
      CallbackOwes(s, e.t, e.tok, x);
    } else {
      QuietStepOwes(s, e, x);
    }
  }

  lemma OtherStepKeepsLedgerInv(s: State, e: Event, x: Token)
    requires LedgerInv(s, x) && Enabled(s, e) && !e.Advance?
    ensures LedgerInv(Apply(s, e), x)
  {
    SumStep(OwesOf(x), s, e);
    if e.Verdict? {
      VerdictOwes(s, e.t, e.accepted, x);
    } else {
      OtherStepOwes(s, e, x);
    }
  }

  lemma StepKeepsLedgerInv(s: State, e: Event, x: Token)
    requires LedgerInv(s, x) && Enabled(s, e)
    ensures LedgerInv(Apply(s, e), x) <==> !MisreadStep(s, e, x)
  {
    if e.Advance? {
      AdvanceKeepsLedgerInv(s, e.t, x);
    } else {
      OtherStepKeepsLedgerInv(s, e, x);
    }
  }

  // ---- The exact result, for every run of every number of threads ----

  ghost predicate AccountedThroughout(s: State, es: seq<Event>, x: Token)
    requires Runs(s, es)
    decreases |es|
  {
    LedgerInv(s, x) && (es != [] ==> AccountedThroughout(Apply(s, es[0]), es[1..], x))
  }

  predicate NeverMisread(s: State, es: seq<Event>, x: Token)
    requires Runs(s, es)
    decreases |es|
  {
    es != [] ==> !MisreadStep(s, es[0], x) && NeverMisread(Apply(s, es[0]), es[1..], x)
  }

  lemma {:induction false} AccountedExactly(s: State, es: seq<Event>, x: Token)
    requires LedgerInv(s, x) && Runs(s, es)
    ensures AccountedThroughout(s, es, x) <==> NeverMisread(s, es, x)
    ensures NeverMisread(s, es, x) ==> LedgerInv(After(s, es), x)
    decreases |es|
  {
    if es != [] {
      StepKeepsLedgerInv(s, es[0], x);
      if !MisreadStep(s, es[0], x) {
        AccountedExactly(Apply(s, es[0]), es[1..], x);
      }
    }
  }

  lemma StartsAccounted(n: nat, x: Token)
    ensures LedgerInv(Start(n), x)
  {
    SumOfNone(OwesOf(x), Start(n).threads);
  }

  // In every run, a token is in the pending lists, at each moment, exactly as often as it has been
  // submitted and neither the refusal nor the callback of that submission has removed it yet, if
  // and only if no connect() misreads it.
  lemma PendingListsMatchSubmissions(n: nat, es: seq<Event>, x: Token)
    requires Runs(Start(n), es)
    ensures AccountedThroughout(Start(n), es, x) <==> NeverMisread(Start(n), es, x)
  {
    StartsAccounted(n, x);
    AccountedExactly(Start(n), es, x);
  }

  // ---- Tokens that connect() has not made ----

  // Delivery tokens are in their own list, and connTok_ is a token of connect().
  ghost predicate Typed(s: State) {
    && (forall x :: x in s.pending ==> !x.Delivery?)
    && (forall x :: x in s.pendingDelivery ==> x.Delivery?)
    && (s.connTok.Some? ==> s.connTok.value.Connection?)
    && (forall t, i :: 0 <= t < |s.threads| && 0 <= i < |s.threads[t]| ==> TypedFrame(s.threads[t][i]))
  }

  predicate TypedFrame(f: Frame) {
    match f
    case Submit(tok, op, _) =>
      (tok.Delivery? <==> op.Publish?) && (tok.Connection? <==> op.Reconnect?)
    case Connect(seen, pc) =>
      (seen.Some? ==> seen.value.Connection?) && (pc.ToList? || pc.Listing? ==> seen.Some?)
    case _ => true
  }

  lemma {:induction false} RemoveFirstSubset<T>(xs: seq<T>, y: T)
    ensures forall x :: x in RemoveFirst(xs, y) ==> x in xs
  {
    if xs != [] && xs[0] != y {
      RemoveFirstSubset(xs[1..], y);
    }
  }

  lemma EffectKeepsTyped(s: State, t: nat, f: Frame)
    requires Typed(s) && TypedFrame(f)
    ensures var s' := Effect(s, t, f);
      && (forall x :: x in s'.pending ==> !x.Delivery?)
      && (forall x :: x in s'.pendingDelivery ==> x.Delivery?)
      && (s'.connTok.Some? ==> s'.connTok.value.Connection?)
  {
    if f.Remove? && f.stage.Erasing? {
      RemoveFirstSubset(s.pending, f.tok);
      RemoveFirstSubset(s.pendingDelivery, f.tok);
    }
  }

  lemma NewFramesTyped(s: State, e: Event)
    requires Typed(s) && Enabled(s, e)
    ensures forall i :: 0 <= i < |NewFrames(s, e)| ==> TypedFrame(NewFrames(s, e)[i])
  {
    if Replaces(e) {
      assert TypedFrame(Top(s, e.t));
    }
  }

  lemma StepKeepsTyped(s: State, e: Event)
    requires Typed(s) && Enabled(s, e)
    ensures Typed(Apply(s, e))
  {
    NewFramesTyped(s, e);
    if e.Advance? {
      EffectKeepsTyped(s, e.t, Top(s, e.t));
    }
    FramesAfterStep(s, e);
  }

  // Each frame after a step was there before it or is one of the new ones.
  lemma FramesAfterStep(s: State, e: Event)
    requires Enabled(s, e)
    ensures |Stacks(s, e)| == |s.threads|
    ensures forall t, i :: 0 <= t < |s.threads| && 0 <= i < |Stacks(s, e)[t]| ==>
      Stacks(s, e)[t][i] in NewFrames(s, e) || (i < |s.threads[t]| && Stacks(s, e)[t][i] == s.threads[t][i])
  {
  }

  lemma {:induction false} RunsKeepTyped(s: State, es: seq<Event>)
    requires Typed(s) && Runs(s, es)
    ensures Typed(After(s, es))
    decreases |es|
  {
    if es != [] {
      StepKeepsTyped(s, es[0]);
      RunsKeepTyped(Apply(s, es[0]), es[1..]);
    }
  }

  lemma {:induction false} OthersNeverMisread(s: State, es: seq<Event>, x: Token)
    requires Typed(s) && Runs(s, es) && !x.Connection?
    ensures NeverMisread(s, es, x)
    decreases |es|
  {
    if es != [] {
      StepKeepsTyped(s, es[0]);
      OthersNeverMisread(Apply(s, es[0]), es[1..], x);
    }
  }

  lemma OthersAccounted(s: State, x: Token)
    requires Reachable(s) && !x.Connection?
    ensures LedgerInv(s, x) && Typed(s)
  {
    var n: nat, es :| Runs(Start(n), es) && After(Start(n), es) == s;
    StartsAccounted(n, x);
    RunsKeepTyped(Start(n), es);
    OthersNeverMisread(Start(n), es, x);
    AccountedExactly(Start(n), es, x);
  }

  // A raw address that the library holds, or that one of its callbacks has still to use.
  ghost predicate HeldByLibrary(s: State, x: Token) {
    || x in s.inFlight
    || exists t, i :: 0 <= t < |s.threads| && 0 <= i < |s.threads[t]| &&
         s.threads[t][i].Completion? && s.threads[t][i].tok == x && !s.threads[t][i].step.Completed?
  }

  lemma HeldIsOwed(s: State, x: Token)
    requires HeldByLibrary(s, x)
    ensures s.inFlight[x] + SumAll(OwesOf(x), s.threads) >= 1
  {
    if x !in s.inFlight {
      var t, i :| 0 <= t < |s.threads| && 0 <= i < |s.threads[t]| &&
        s.threads[t][i].Completion? && s.threads[t][i].tok == x && !s.threads[t][i].step.Completed?;
      SumHas(OwesOf(x), s.threads, t, i);
    }
  }

  // In every run such a token is owned by a pending list, whatever the user has dropped; for the
  // tokens of connect() see AsyncOverlap.
  lemma LibraryAddressesAreOwned(s: State, x: Token)
    requires Reachable(s) && HeldByLibrary(s, x) && !x.Connection?
    ensures x in s.pending || x in s.pendingDelivery
  {
    OthersAccounted(s, x);
    HeldIsOwed(s, x);
    CountIn(s.pending, x);
    CountIn(s.pendingDelivery, x);
  }

  // The library has called back for everything and no function is running.
  ghost predicate AtRest(s: State) {
    s.inFlight == multiset{} && forall t :: 0 <= t < |s.threads| ==> s.threads[t] == []
  }

  // Then no submission but one of connect() or reconnect() can have leaked.
  lemma QuiescentListsAreEmpty(s: State)
    requires Reachable(s) && AtRest(s)
    ensures s.pendingDelivery == [] && forall x :: x in s.pending ==> x.Connection?
  {
    forall x: Token | !x.Connection? ensures Count(s.pending, x) == 0 && Count(s.pendingDelivery, x) == 0 {
      OthersAccounted(s, x);
      SumOfNone(OwesOf(x), s.threads);
    }
    forall x | x in s.pending ensures x.Connection? {
      CountIn(s.pending, x);
    }
    if s.pendingDelivery != [] {
      var x := s.pendingDelivery[0];
      CountIn(s.pendingDelivery, x);
      OthersAccounted(s, Plain(0));
      assert false;
    }
  }
}
