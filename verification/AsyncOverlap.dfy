/**
 When may calls of connect() overlap?  connect() reads connTok_ anew each time that it uses its
 token, so a second connect() can make the first one hand over, or remove, the wrong token.

 For each of two promises about the pending lists this module proves what is enough: for the weaker
 one, that every address held by the library is owned, that no connect() begins while another is
 between its first use of connTok_ and the answer of the library; for the stronger one, that the
 lists account for every submission, that none begins while another has neither been accepted nor
 thrown its exception.  `AsyncOverlapRuns` proves that less is not enough.
 */
module AsyncOverlap {
  import opened Common
  import opened AsyncThreads
  import opened AsyncLedger

  // Has used connTok_, and has not dealt with the answer of the library.
  predicate Between(f: Frame) {
    f.Connect? && (f.pc.ToList? || f.pc.Listing? || f.pc.ToHand? || f.pc.Handed? || f.pc.Denied?)
  }

  predicate NobodyBetween(s: State) {
    forall t, i :: 0 <= t < |s.threads| && 0 <= i < |s.threads[t]| ==> !Between(s.threads[t][i])
  }

  // Has neither been accepted nor thrown its exception.
  predicate Unfinished(f: Frame) {
    f.Connect? && !f.pc.Granted?
  }

  predicate NobodyConnects(s: State) {
    forall t, i :: 0 <= t < |s.threads| && 0 <= i < |s.threads[t]| ==> !Unfinished(s.threads[t][i])
  }

  // ---- Enough for ownership ----

  ghost predicate SeenIsCurrent(s: State) {
    forall t, i :: 0 <= t < |s.threads| && 0 <= i < |s.threads[t]| && Between(s.threads[t][i]) ==>
      s.connTok == s.threads[t][i].seen || s.connTok == None
  }

  ghost predicate Covered(s: State, x: Token) {
    PendingCount(s, x) >= s.inFlight[x] + SumAll(OwesOf(x), s.threads)
  }

  lemma StepKeepsSeen(s: State, e: Event)
    requires SeenIsCurrent(s) && Enabled(s, e) && (e.BeginConnect? ==> NobodyBetween(s))
    ensures SeenIsCurrent(Apply(s, e))
  {
    FramesAfterStep(s, e);
    if !e.BeginConnect? {
      ConnTokAfterStep(s, e);
    }
    forall i | 0 <= i < |NewFrames(s, e)| && Between(NewFrames(s, e)[i])
      ensures !e.BeginConnect? && (Apply(s, e).connTok == NewFrames(s, e)[i].seen || Apply(s, e).connTok == None)
    {
      NewBetween(s, e, i);
    }
  }

  lemma ConnTokAfterStep(s: State, e: Event)
    requires Enabled(s, e) && !e.BeginConnect?
    ensures Apply(s, e).connTok == s.connTok || Apply(s, e).connTok == None
  {
  }

  // A frame in the middle of connect() has just read connTok_, or takes the place of one that had.
  lemma NextBetween(s: State, t: nat, f: Frame, i: nat)
    requires i < |Next(s, f)| && Between(Next(s, f)[i])
    ensures Effect(s, t, f).connTok == s.connTok
    ensures Next(s, f)[i].seen == s.connTok || (Between(f) && Next(s, f)[i].seen == f.seen)
  {
  }

  lemma NewBetween(s: State, e: Event, i: nat)
    requires Enabled(s, e) && i < |NewFrames(s, e)| && Between(NewFrames(s, e)[i])
    ensures !e.BeginConnect? && Apply(s, e).connTok == s.connTok && Replaces(e)
    ensures var seen := NewFrames(s, e)[i].seen;
      seen == s.connTok || (Between(Top(s, e.t)) && seen == Top(s, e.t).seen)
  {
    if e.Advance? {
      NextBetween(s, e.t, Top(s, e.t), i);
    }
  }

  lemma NextOwesLess(s: State, f: Frame, x: Token)
    requires !Asking(f) && (Between(f) ==> s.connTok == f.seen || s.connTok == None)
    ensures |Next(s, f)| <= 2 && SumFew(OwesOf(x), Next(s, f)) <= OwesOf(x)(f) + Balance(f, x)
  {
    NextOwes(s, f, x);
  }

  lemma AdvanceKeepsCovered(s: State, t: nat, x: Token)
    requires SeenIsCurrent(s) && Covered(s, x) && Enabled(s, Advance(t))
    ensures Covered(Apply(s, Advance(t)), x)
  {
    var f := Top(s, t);
    SumStep(OwesOf(x), s, Advance(t));
    if f == Remove(x, Erasing) {
      SumHas(OwesOf(x), s.threads, t, |s.threads[t]| - 1);
    }
    NextOwesLess(s, f, x);
    EffectOnLists(s, t, f, x);
  }

  lemma StepKeepsCovered(s: State, e: Event, x: Token)
    requires SeenIsCurrent(s) && Covered(s, x) && Enabled(s, e)
    ensures Covered(Apply(s, e), x)
  {
    if e.Advance? {
      AdvanceKeepsCovered(s, e.t, x);
    } else {
      SumStep(OwesOf(x), s, e);
      if e.Verdict? {
        VerdictOwes(s, e.t, e.accepted, x);
      } else {
        OtherStepOwes(s, e, x);
      }
    }
  }

  // ---- Enough for the account ----

  // At most one connect() is unfinished, and until it clears connTok_ that is its own token.
  ghost predicate Sole(s: State) {
    && (forall t, i, u, j |
          0 <= t < |s.threads| && 0 <= i < |s.threads[t]| && 0 <= u < |s.threads| && 0 <= j < |s.threads[u]| ::
          Unfinished(s.threads[t][i]) && Unfinished(s.threads[u][j]) ==> t == u && i == j)
    && (forall t, i :: 0 <= t < |s.threads| && 0 <= i < |s.threads[t]| && Unfinished(s.threads[t][i]) ==>
          s.threads[t][i].pc.Clearing? || (s.connTok.Some? && s.connTok == s.threads[t][i].seen))
  }

  // Where the unfinished connect() after a step comes from: it is the same one, in the same place.
  lemma UnfinishedBefore(s: State, e: Event, t: nat, i: nat)
    requires Enabled(s, e) && !e.BeginConnect?
    requires t < |s.threads| && i < |Stacks(s, e)[t]| && Unfinished(Stacks(s, e)[t][i])
    ensures i < |s.threads[t]| && Unfinished(s.threads[t][i])
    ensures Stacks(s, e)[t][i] == s.threads[t][i] ||
            (Replaces(e) && e.t == t && s.threads[t][i] == Top(s, t) && NewFrames(s, e) != []
             && Stacks(s, e)[t][i] == NewFrames(s, e)[0])
  {
  }

  // How the unfinished connect() goes on.
  lemma UnfinishedNext(s: State, e: Event)
    requires Enabled(s, e) && Replaces(e) && NewFrames(s, e) != [] && Unfinished(NewFrames(s, e)[0])
    requires var f := Top(s, e.t); f.Connect? && s.connTok.Some? && s.connTok == f.seen
    ensures NewFrames(s, e)[0].seen == s.connTok
  {
  }

  lemma ClearingClears(s: State, e: Event)
    requires Enabled(s, e) && !e.BeginConnect? && Apply(s, e).connTok != s.connTok
    ensures e.Advance? && Unfinished(Top(s, e.t)) && NewFrames(s, e) == []
  {
  }

  lemma StepKeepsSole(s: State, e: Event)
    requires Sole(s) && Enabled(s, e) && (e.BeginConnect? ==> NobodyConnects(s))
    ensures Sole(Apply(s, e))
  {
    var s' := Apply(s, e);
    if !e.BeginConnect? {
      forall t, i | 0 <= t < |s'.threads| && 0 <= i < |s'.threads[t]| && Unfinished(s'.threads[t][i])
        ensures i < |s.threads[t]| && Unfinished(s.threads[t][i])
        ensures s'.threads[t][i].pc.Clearing? || (s'.connTok.Some? && s'.connTok == s'.threads[t][i].seen)
      {
        SoleGoesOn(s, e, t, i);
      }
    }
  }

  lemma SoleGoesOn(s: State, e: Event, t: nat, i: nat)
    requires Sole(s) && Enabled(s, e) && !e.BeginConnect?
    requires t < |s.threads| && i < |Stacks(s, e)[t]| && Unfinished(Stacks(s, e)[t][i])
    ensures i < |s.threads[t]| && Unfinished(s.threads[t][i])
    ensures var f, s' := Stacks(s, e)[t][i], Apply(s, e);
      f.pc.Clearing? || (s'.connTok.Some? && s'.connTok == f.seen)
  {
    UnfinishedBefore(s, e, t, i);
    if Apply(s, e).connTok != s.connTok {
      // the one that clears is the only one, and it is gone
      ClearingClears(s, e);
      assert false;
    }
    if Stacks(s, e)[t][i] != s.threads[t][i] && !s.threads[t][i].pc.Clearing? {
      UnfinishedNext(s, e);
    }
  }

  // Then nothing is misread.
  lemma SoleNeverMisreads(s: State, e: Event, x: Token)
    requires Sole(s) && Enabled(s, e)
    ensures !MisreadStep(s, e, x)
  {
    if e.Advance? {
      assert Top(s, e.t) == s.threads[e.t][|s.threads[e.t]| - 1];
    }
  }
}
