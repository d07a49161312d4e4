/**
 delivery_complete() is called exactly once for each published message of QoS 1 or 2 whose token
 leaves the delivery list while a callback is set, and never otherwise, whichever way the send
 ended: delivered, failed, or refused by the library.
 */
module AsyncDelivery {
  import opened AsyncThreads
  import opened AsyncLedger

  // A publish that has made its token and has not added it yet.
  function UnaddedOf(x: Token): Weight {
    (f: Frame) =>
      if f.Submit? && f.tok == x && (f.at.AtReset? || f.at.Resetting? || f.at.AtAdd? || f.at.Adding?) then 1 else 0
  }

  function ToDeliverOf(x: Token): Weight {
    (f: Frame) => if f == Remove(x, AtDeliver) then 1 else 0
  }

  // A delivery token is in exactly one place: still to be added, in the list, or out of it.
  ghost predicate PlaceInv(s: State, x: Token) {
    x.Delivery? ==>
      SumAll(UnaddedOf(x), s.threads) + Count(s.pendingDelivery, x) + (if x in s.leftWith then 1 else 0)
      == if x in s.created then 1 else 0
  }

  // The call is due: QoS above 0 and a callback set at the moment of leaving.
  predicate Due(s: State, x: Token) {
    x.Delivery? && x.qos > 0 && x in s.leftWith && s.leftWith[x]
  }

  ghost predicate CallInv(s: State, x: Token) {
    Count(s.delivered, x) + SumAll(ToDeliverOf(x), s.threads) == if Due(s, x) then 1 else 0
  }

  ghost predicate DeliveryInv(s: State) {
    && Typed(s)
    && (forall x :: PlaceInv(s, x))
    && (forall x :: CallInv(s, x))
  }

  // Whether the frame, advancing, erases x from the delivery list.
  predicate Leaves(s: State, f: Frame, x: Token) {
    f == Remove(x, Erasing) && x in s.pendingDelivery
  }

  predicate Enters(f: Frame, x: Token) {
    f.Submit? && f.tok == x && f.at.Adding?
  }

  lemma NextPlaces(s: State, f: Frame, x: Token)
    ensures |Next(s, f)| <= 2
    ensures SumFew(UnaddedOf(x), Next(s, f)) + (if Enters(f, x) then 1 else 0) == UnaddedOf(x)(f)
  {
  }

  lemma EffectOnPlace(s: State, t: nat, f: Frame, x: Token)
    requires x.Delivery?
    ensures Count(Effect(s, t, f).pendingDelivery, x) + (if Leaves(s, f, x) then 1 else 0)
            == Count(s.pendingDelivery, x) + if Enters(f, x) then 1 else 0
  {
    if f.Submit? && f.at.Adding? {
      CountAppend(s.pendingDelivery, f.tok, x);
    } else if f.Remove? && f.stage.Erasing? {
      CountIn(s.pendingDelivery, f.tok);
      CountRemoveFirst(s.pendingDelivery, f.tok, x);
    }
  }

  // The callback is looked at when the token leaves the list.
  lemma EffectOnLeft(s: State, t: nat, f: Frame, x: Token)
    ensures var s' := Effect(s, t, f);
      && s'.created == s.created
      && (if Leaves(s, f, x) then x in s'.leftWith && s'.leftWith[x] == s.callback
          else (x in s'.leftWith <==> x in s.leftWith) && (x in s.leftWith ==> s'.leftWith[x] == s.leftWith[x]))
  {
  }

  lemma AdvanceKeepsPlace(s: State, t: nat, x: Token)
    requires PlaceInv(s, x) && Enabled(s, Advance(t))
    ensures PlaceInv(Apply(s, Advance(t)), x)
    ensures x.Delivery? && Leaves(s, Top(s, t), x) ==> x !in s.leftWith
  {
    var f := Top(s, t);
    SumStep(UnaddedOf(x), s, Advance(t));
    CountIn(s.pendingDelivery, x);
    NextPlaces(s, f, x);
    EffectOnLeft(s, t, f, x);
    if x.Delivery? {
      EffectOnPlace(s, t, f, x);
    }
  }

  lemma OtherStepData(s: State, e: Event)
    requires Enabled(s, e) && !e.Advance?
    ensures |NewFrames(s, e)| <= 1
    ensures Data(s, e).pendingDelivery == s.pendingDelivery && Data(s, e).leftWith == s.leftWith
    ensures Data(s, e).created == s.created + match e case BeginSubmit(_, _, tok) => {tok}
                                                       case BeginConnect(_, tok) => {tok} case _ => {}
  {
  }

  // When no frame advances, only a new token comes into a place.
  lemma OtherStepPlaces(s: State, e: Event, x: Token)
    requires Typed(s) && Enabled(s, e) && !e.Advance? && x.Delivery?
    ensures |NewFrames(s, e)| <= 1
    ensures Replaces(e) ==> UnaddedOf(x)(Top(s, e.t)) == 0
    ensures SumFew(UnaddedOf(x), NewFrames(s, e)) == if x in Data(s, e).created && x !in s.created then 1 else 0
    ensures s.created <= Data(s, e).created
    ensures Data(s, e).pendingDelivery == s.pendingDelivery && Data(s, e).leftWith == s.leftWith
  {
    OtherStepData(s, e);
  }

  lemma OtherStepKeepsPlace(s: State, e: Event, x: Token)
    requires Typed(s) && PlaceInv(s, x) && Enabled(s, e) && !e.Advance? && x.Delivery?
    ensures PlaceInv(Apply(s, e), x) && Apply(s, e).leftWith == s.leftWith
  {
    SumStep(UnaddedOf(x), s, e);
    OtherStepPlaces(s, e, x);
  }

  lemma StepKeepsPlace(s: State, e: Event, x: Token)
    requires Typed(s) && PlaceInv(s, x) && Enabled(s, e)
    ensures PlaceInv(Apply(s, e), x)
    // the callback is looked at when the token leaves the list, and that happens once
    ensures x.Delivery? && x in s.leftWith ==> x in Apply(s, e).leftWith && Apply(s, e).leftWith[x] == s.leftWith[x]
    ensures x.Delivery? && x !in s.leftWith && x in Apply(s, e).leftWith ==> Apply(s, e).leftWith[x] == s.callback
    ensures e.Advance? && x.Delivery? && Leaves(s, Top(s, e.t), x) ==> x !in s.leftWith
  {
    if e.Advance? {
      AdvanceKeepsPlace(s, e.t, x);
      EffectOnLeft(s, e.t, Top(s, e.t), x);
    } else if x.Delivery? {
      OtherStepKeepsPlace(s, e, x);
    }
  }

  lemma AdvanceCalls(s: State, t: nat, f: Frame, x: Token)
    ensures |Next(s, f)| <= 2
    ensures Count(Effect(s, t, f).delivered, x) + SumFew(ToDeliverOf(x), Next(s, f))
            == Count(s.delivered, x) + ToDeliverOf(x)(f)
               + if Leaves(s, f, x) && s.callback && x.Delivery? && x.qos > 0 then 1 else 0
  {
    if f.Remove? && f.stage.AtDeliver? {
      CountAppend(s.delivered, f.tok, x);
    }
  }

  lemma StepKeepsCall(s: State, e: Event, x: Token)
    requires Typed(s) && PlaceInv(s, x) && CallInv(s, x) && Enabled(s, e)
    ensures CallInv(Apply(s, e), x)
  {
    SumStep(ToDeliverOf(x), s, e);
    StepKeepsPlace(s, e, x);
    if e.Advance? {
      AdvanceCalls(s, e.t, Top(s, e.t), x);
      EffectOnLeft(s, e.t, Top(s, e.t), x);
    }
  }

  lemma {:induction false} RunsKeepDeliveryInv(s: State, es: seq<Event>)
    requires DeliveryInv(s) && Runs(s, es)
    ensures DeliveryInv(After(s, es))
    decreases |es|
  {
    if es != [] {
      StepKeepsTyped(s, es[0]);
      forall x ensures PlaceInv(Apply(s, es[0]), x) && CallInv(Apply(s, es[0]), x) {
        assert PlaceInv(s, x) && CallInv(s, x);
        StepKeepsPlace(s, es[0], x);
        StepKeepsCall(s, es[0], x);
      }
      RunsKeepDeliveryInv(Apply(s, es[0]), es[1..]);
    }
  }

  lemma DeliveryInvHolds(s: State)
    requires Reachable(s)
    ensures DeliveryInv(s)
  {
    var n: nat, es :| Runs(Start(n), es) && After(Start(n), es) == s;
    forall x ensures PlaceInv(Start(n), x) && CallInv(Start(n), x) {
      SumOfNone(UnaddedOf(x), Start(n).threads);
      SumOfNone(ToDeliverOf(x), Start(n).threads);
    }
    RunsKeepDeliveryInv(Start(n), es);
  }

  // In every run: the calls for a token, made or about to be made, are one if it has left the
  // delivery list with QoS above 0 and a callback set, and none otherwise.
  lemma DeliveryCompleteExactlyWhenDue(s: State, x: Token)
    requires Reachable(s)
    ensures Count(s.delivered, x) + SumAll(ToDeliverOf(x), s.threads) == if Due(s, x) then 1 else 0
  {
    DeliveryInvHolds(s);
    assert CallInv(s, x);
  }

  // Once everything has come to rest, every published token has left the list and has had its
  // one call exactly if it was due.
  lemma EveryPublishIsSettled(s: State, x: Token)
    requires Reachable(s) && AtRest(s) && x.Delivery? && x in s.created
    ensures x in s.leftWith && Count(s.delivered, x) == if x.qos > 0 && s.leftWith[x] then 1 else 0
  {
    DeliveryInvHolds(s);
    QuiescentListsAreEmpty(s);
    assert PlaceInv(s, x) && CallInv(s, x);
    SumOfNone(UnaddedOf(x), s.threads);
    SumOfNone(ToDeliverOf(x), s.threads);
  }
}
