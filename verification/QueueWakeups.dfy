/**
 When does the edge-triggered signalling of mqtt/thread_queue.h lose a wake-up?

 put() signals only when it found the queue empty, and get() only when it leaves the queue one
 below its capacity.  For each side this module proves exactly which numbers of threads, which
 capacities and which changes of capacity make that enough.
 */
module QueueWakeups {
  import opened Common
  import opened ThreadQueue
  import opened QueueThreads

  // Whether, and how, the capacity changes while the queue is in use.
  datatype Resizing = Fixed | OnlyLowered | Free

  // Who may call the blocking functions.  Any thread may call try_put() and try_get().
  datatype Config = Config(cap: nat, resizing: Resizing, threads: nat, producers: set<nat>, consumers: set<nat>)

  // The constructor never makes a queue of capacity zero.  Producers and consumers are
  // different threads, and there is at least one of each.
  ghost predicate TwoSided(cfg: Config) {
    && 1 <= cfg.cap <= MAX_CAPACITY
    && cfg.producers != {} && cfg.consumers != {} && cfg.producers !! cfg.consumers
    && (forall t :: t in cfg.producers ==> t < cfg.threads)
    && (forall t :: t in cfg.consumers ==> t < cfg.threads)
  }

  predicate Allowed<T>(cfg: Config, s: State<T>, e: Event<T>) {
    match e
    case CallPut(t, _) => t in cfg.producers
    case CallGet(t, _) => t in cfg.consumers
    case SetCapacity(cap) =>
      match cfg.resizing {
        case Fixed => false
        case OnlyLowered => cap <= s.q.cap
        case Free => true
      }
    case _ => true
  }

  // The run `es` stays within the configuration.
  predicate RunsUnder<T>(cfg: Config, s: State<T>, es: seq<Event<T>>)
    decreases |es|
  {
    Runs(s, es) && (es != [] ==> Allowed(cfg, s, es[0]) && RunsUnder(cfg, Apply(s, es[0]), es[1..]))
  }

  ghost predicate Reachable<T(!new)>(cfg: Config, s: State<T>) {
    exists es :: RunsUnder(cfg, Start(cfg.cap, cfg.threads), es) && After(Start(cfg.cap, cfg.threads), es) == s
  }

  // ---- What it is to lose a wake-up ----

  ghost predicate GetterAsleep<T>(s: State<T>) { exists t :: 0 <= t < |s.threads| && s.threads[t].GetAsleep? }
  ghost predicate GetterWoken<T>(s: State<T>) { exists t :: 0 <= t < |s.threads| && s.threads[t].GetWoken? }
  ghost predicate PutterAsleep<T>(s: State<T>) { exists t :: 0 <= t < |s.threads| && s.threads[t].PutAsleep? }
  ghost predicate PutterWoken<T>(s: State<T>) { exists t :: 0 <= t < |s.threads| && s.threads[t].PutWoken? }
  ghost predicate NotEmptyOwed<T>(s: State<T>) { exists t :: 0 <= t < |s.threads| && s.threads[t].OwesNotEmpty? }
  ghost predicate NotFullOwed<T>(s: State<T>) { exists t :: 0 <= t < |s.threads| && s.threads[t].OwesNotFull? }

  // An item is there, somebody sleeps on notEmptyCond_, and nothing that is under way will wake
  // anybody up: no consumer is already signalled and no notify_one() is still to be sent.
  ghost predicate ConsumerStranded<T>(s: State<T>) {
    s.q.que != [] && GetterAsleep(s) && !GetterWoken(s) && !NotEmptyOwed(s)
  }

  // There is room, somebody sleeps on notFullCond_, and nothing under way will wake anybody up.
  ghost predicate ProducerStranded<T>(s: State<T>) {
    |s.q.que| < s.q.cap && PutterAsleep(s) && !PutterWoken(s) && !NotFullOwed(s)
  }

  ghost predicate AtMostOne(ts: set<nat>) {
    forall t, u :: t in ts && u in ts ==> t == u
  }

  // ---- Invariants ----

  ghost predicate Roles<T>(cfg: Config, s: State<T>) {
    && |s.threads| == cfg.threads
    && (forall t :: 0 <= t < |s.threads| && Getting(s.threads[t]) ==> t in cfg.consumers)
    && (forall t :: 0 <= t < |s.threads| && Putting(s.threads[t]) ==> t in cfg.producers)
    && (cfg.resizing.Fixed? ==> s.q.cap == cfg.cap)
    && (!cfg.resizing.Free? ==> s.q.cap <= cfg.cap && |s.q.que| <= cfg.cap)
  }

  lemma StepKeepsRoles<T>(cfg: Config, s: State<T>, e: Event<T>)
    requires Roles(cfg, s) && Enabled(s, e) && Allowed(cfg, s, e)
    ensures Roles(cfg, Apply(s, e))
  {
  }

  // With one consumer the notify itself is owed; otherwise a consumer may be on its way.
  ghost predicate ConsumersNotified<T>(s: State<T>, single: bool) {
    s.q.que != [] && GetterAsleep(s) ==> NotEmptyOwed(s) || (!single && GetterWoken(s))
  }

  ghost predicate ProducersNotified<T>(s: State<T>, single: bool) {
    |s.q.que| < s.q.cap && PutterAsleep(s) ==> NotFullOwed(s) || (!single && PutterWoken(s))
  }

  ghost predicate NeverRaisedFromOne(cfg: Config) {
    cfg.cap <= 1 && !cfg.resizing.Free?
  }

  lemma StepKeepsConsumersNotified<T>(cfg: Config, s: State<T>, e: Event<T>, single: bool)
    requires Roles(cfg, s) && Enabled(s, e) && Allowed(cfg, s, e)
    requires if single then AtMostOne(cfg.consumers) else NeverRaisedFromOne(cfg)
    requires ConsumersNotified(s, single)
    ensures ConsumersNotified(Apply(s, e), single)
  {
    var s' := Apply(s, e);
    if s'.q.que != [] && GetterAsleep(s') {
      var u :| 0 <= u < |s'.threads| && s'.threads[u].GetAsleep?;
      if s.q.que == [] {
        // only a put fills an empty queue, and then its thread owes the notify
        assert s'.threads[e.t].OwesNotEmpty?;
      } else if s.threads[u].GetAsleep? {
        if NotEmptyOwed(s) {
          var t :| 0 <= t < |s.threads| && s.threads[t].OwesNotEmpty?;
          if e.Notify? && e.t == t {
            assert Sleeps(s.threads[t], s.threads[u]);
            assert s'.threads[e.woken.value].GetWoken?;
          } else {
            assert s'.threads[t].OwesNotEmpty?;
          }
        } else {
          // a signalled consumer leaves its state only by taking the one item
          var t :| 0 <= t < |s.threads| && s.threads[t].GetWoken?;
          assert s'.threads[t].GetWoken?;
        }
      }
    }
  }

  lemma StepKeepsProducersNotified<T>(cfg: Config, s: State<T>, e: Event<T>, single: bool)
    requires Roles(cfg, s) && Enabled(s, e) && Allowed(cfg, s, e)
    requires !cfg.resizing.Free?
    requires if single then AtMostOne(cfg.producers) else cfg.cap <= 1
    requires ProducersNotified(s, single)
    ensures ProducersNotified(Apply(s, e), single)
  {
    var s' := Apply(s, e);
    if |s'.q.que| < s'.q.cap && PutterAsleep(s') {
      var u :| 0 <= u < |s'.threads| && s'.threads[u].PutAsleep?;
      if |s.q.que| >= s.q.cap {
        // only a get makes room, and then its thread owes the notify
        assert s'.threads[e.t].OwesNotFull?;
      } else if s.threads[u].PutAsleep? {
        if NotFullOwed(s) {
          var t :| 0 <= t < |s.threads| && s.threads[t].OwesNotFull?;
          if e.Notify? && e.t == t {
            assert Sleeps(s.threads[t], s.threads[u]);
            assert s'.threads[e.woken.value].PutWoken?;
          } else {
            assert s'.threads[t].OwesNotFull?;
          }
        } else {
          var t :| 0 <= t < |s.threads| && s.threads[t].PutWoken?;
          assert s'.threads[t].PutWoken?;
        }
      }
    }
  }

  lemma {:induction false} ConsumersAlwaysNotified<T>(cfg: Config, s: State<T>, es: seq<Event<T>>, single: bool)
    requires Roles(cfg, s) && RunsUnder(cfg, s, es)
    requires if single then AtMostOne(cfg.consumers) else NeverRaisedFromOne(cfg)
    requires ConsumersNotified(s, single)
    ensures Roles(cfg, After(s, es)) && ConsumersNotified(After(s, es), single)
    decreases |es|
  {
    if es != [] {
      StepKeepsRoles(cfg, s, es[0]);
      StepKeepsConsumersNotified(cfg, s, es[0], single);
      ConsumersAlwaysNotified(cfg, Apply(s, es[0]), es[1..], single);
    }
  }

  lemma {:induction false} ProducersAlwaysNotified<T>(cfg: Config, s: State<T>, es: seq<Event<T>>, single: bool)
    requires Roles(cfg, s) && RunsUnder(cfg, s, es)
    requires !cfg.resizing.Free?
    requires if single then AtMostOne(cfg.producers) else cfg.cap <= 1
    requires ProducersNotified(s, single)
    ensures Roles(cfg, After(s, es)) && ProducersNotified(After(s, es), single)
    decreases |es|
  {
    if es != [] {
      StepKeepsRoles(cfg, s, es[0]);
      StepKeepsProducersNotified(cfg, s, es[0], single);
      ProducersAlwaysNotified(cfg, Apply(s, es[0]), es[1..], single);
    }
  }

  // ---- Positive results, for any number of threads on the other side ----

  // At most one consumer, any capacity, changed at will: asleep and unsignalled means that the
  // queue is empty or a notify is owed.
  lemma SingleConsumerNeverStranded<T(!new)>(cfg: Config, s: State<T>)
    requires Reachable(cfg, s) && AtMostOne(cfg.consumers)
    ensures GetterAsleep(s) ==> s.q.que == [] || NotEmptyOwed(s)
  {
    var s0 := Start<T>(cfg.cap, cfg.threads);
    var es :| RunsUnder(cfg, s0, es) && After(s0, es) == s;
    ConsumersAlwaysNotified(cfg, s0, es, true);
  }

  // At most one producer and a capacity that is never raised, lowering below the size included.
  lemma SingleProducerNeverStranded<T(!new)>(cfg: Config, s: State<T>)
    requires Reachable(cfg, s) && AtMostOne(cfg.producers) && !cfg.resizing.Free?
    ensures PutterAsleep(s) ==> |s.q.que| >= s.q.cap || NotFullOwed(s)
  {
    var s0 := Start<T>(cfg.cap, cfg.threads);
    var es :| RunsUnder(cfg, s0, es) && After(s0, es) == s;
    ProducersAlwaysNotified(cfg, s0, es, true);
  }

  // Capacity one, never raised: no wake-up is lost with any number of threads on both sides.
  lemma CapacityOneNeverStrands<T(!new)>(cfg: Config, s: State<T>)
    requires Reachable(cfg, s) && NeverRaisedFromOne(cfg)
    ensures !ConsumerStranded(s) && !ProducerStranded(s)
  {
    var s0 := Start<T>(cfg.cap, cfg.threads);
    var es :| RunsUnder(cfg, s0, es) && After(s0, es) == s;
    ConsumersAlwaysNotified(cfg, s0, es, false);
    ProducersAlwaysNotified(cfg, s0, es, false);
  }

  // ---- Runs that lose a wake-up ----

  lemma {:induction false} AppendUnder<T>(cfg: Config, s: State<T>, es: seq<Event<T>>, e: Event<T>)
    requires RunsUnder(cfg, s, es)
    requires Enabled(After(s, es), e) && Allowed(cfg, After(s, es), e)
    ensures RunsUnder(cfg, s, es + [e]) && After(s, es + [e]) == Apply(After(s, es), e)
    decreases |es|
  {
    if es != [] {
      AppendUnder(cfg, Apply(s, es[0]), es[1..], e);
      assert (es + [e])[1..] == es[1..] + [e];
    }
  }

  lemma Reach<T(!new)>(cfg: Config, s: State<T>, e: Event<T>) returns (s': State<T>)
    requires Reachable(cfg, s) && Enabled(s, e) && Allowed(cfg, s, e)
    ensures s' == Apply(s, e) && Reachable(cfg, s')
  {
    var s0 := Start<T>(cfg.cap, cfg.threads);
    var es :| RunsUnder(cfg, s0, es) && After(s0, es) == s;
    AppendUnder(cfg, s0, es, e);
    s' := Apply(s, e);
  }

  lemma ReachStart<T(!new)>(cfg: Config) returns (s: State<T>)
    ensures s == Start<T>(cfg.cap, cfg.threads) && Reachable(cfg, s)
  {
    s := Start(cfg.cap, cfg.threads);
    var none: seq<Event<T>> := [];
    assert RunsUnder(cfg, s, none) && After(s, none) == s;
  }

  lemma ReachGetAsleep<T(!new)>(cfg: Config, s: State<T>, t: nat) returns (s': State<T>)
    requires Reachable(cfg, s) && t in cfg.consumers && t < |s.threads| && s.threads[t].Idle? && s.q.que == []
    ensures Reachable(cfg, s') && s' == s.(threads := s.threads[t := GetAsleep(false)])
  {
    s' := Reach(cfg, s, CallGet(t, false));
    s' := Reach(cfg, s', Pass(t));
    assert s'.threads == s.threads[t := GetAsleep(false)];
  }

  lemma ReachPutAsleep<T(!new)>(cfg: Config, s: State<T>, t: nat, v: T) returns (s': State<T>)
    requires Reachable(cfg, s) && t in cfg.producers && t < |s.threads| && s.threads[t].Idle? && |s.q.que| >= s.q.cap
    ensures Reachable(cfg, s') && s' == s.(threads := s.threads[t := PutAsleep(v)])
  {
    s' := Reach(cfg, s, CallPut(t, v));
    s' := Reach(cfg, s', Pass(t));
    assert s'.threads == s.threads[t := PutAsleep(v)];
  }

  lemma ReachPut<T(!new)>(cfg: Config, s: State<T>, t: nat, v: T) returns (s': State<T>)
    requires Reachable(cfg, s) && t in cfg.producers && t < |s.threads| && s.threads[t].Idle? && |s.q.que| < s.q.cap
    ensures Reachable(cfg, s') && s'.q == s.q.(que := s.q.que + [v])
    ensures s'.threads == s.threads[t := if s.q.que == [] then OwesNotEmpty else Idle]
  {
    s' := Reach(cfg, s, CallPut(t, v));
    s' := Reach(cfg, s', Pass(t));
  }

  ghost predicate OthersIdle<T>(s: State<T>, a: nat, b: nat) {
    forall t :: 0 <= t < |s.threads| && t != a && t != b ==> s.threads[t].Idle?
  }

  // Two consumers sleep; of two puts only the first signals, and it wakes one of them.
  lemma SecondPutUnsignalled<T(!new)>(cfg: Config, s: State<T>, v: T, a: nat, b: nat, p: nat) returns (s': State<T>)
    requires Reachable(cfg, s) && p in cfg.producers && a < |s.threads| && b < |s.threads| && p < |s.threads|
    requires s.q.que == [] && s.q.cap >= 2 && a != b && p != a && p != b
    requires s.threads[a].GetAsleep? && s.threads[b].GetAsleep? && OthersIdle(s, a, b)
    ensures Reachable(cfg, s') && s'.q == s.q.(que := [v, v])
    ensures s'.threads == s.threads[a := GetWoken(s.threads[a].timed)]
  {
    s' := ReachPut(cfg, s, p, v);
    s' := Reach(cfg, s', Notify(p, Some(a)));
    s' := ReachPut(cfg, s', p, v);
    assert s'.q.que == [v, v];
  }

  lemma OneTakenOtherStranded<T(!new)>(cfg: Config, s: State<T>, a: nat, b: nat) returns (s': State<T>)
    requires Reachable(cfg, s) && a < |s.threads| && b < |s.threads| && a != b && |s.q.que| == 2
    requires s.threads[a].GetWoken? && s.threads[b].GetAsleep? && OthersIdle(s, a, b)
    ensures Reachable(cfg, s') && ConsumerStranded(s')
  {
    s' := Reach(cfg, s, Pass(a));
    assert s'.threads[b].GetAsleep?;
  }

  // Two sleeping consumers and a capacity of two or more: the second put is not signalled.
  lemma TwoConsumersStrand<T(!new)>(cfg: Config, v: T, a: nat, b: nat, p: nat) returns (s: State<T>)
    requires TwoSided(cfg) && a in cfg.consumers && b in cfg.consumers && a != b && p in cfg.producers
    requires cfg.cap >= 2 || cfg.resizing.Free?
    ensures Reachable(cfg, s) && ConsumerStranded(s)
  {
    s := ReachStart(cfg);
    if cfg.cap < 2 {
      s := Reach(cfg, s, SetCapacity(2));
    }
    s := ReachGetAsleep(cfg, s, a);
    s := ReachGetAsleep(cfg, s, b);
    s := SecondPutUnsignalled(cfg, s, v, a, b, p);
    s := OneTakenOtherStranded(cfg, s, a, b);
  }

  // Fill the queue with try_put(), nobody being asleep.
  lemma {:induction false} ReachFull<T(!new)>(cfg: Config, start: State<T>, v: T, p: nat) returns (s: State<T>)
    requires Reachable(cfg, start) && p < |start.threads| && |start.q.que| <= start.q.cap
    requires forall t :: 0 <= t < |start.threads| ==> start.threads[t].Idle?
    ensures Reachable(cfg, s) && s.threads == start.threads && s.q.cap == start.q.cap && |s.q.que| == s.q.cap
    decreases start.q.cap - |start.q.que|
  {
    s := start;
    if |s.q.que| < s.q.cap {
      s := Reach(cfg, s, TryPut(p, v));
      if s.threads[p].OwesNotEmpty? {
        s := Reach(cfg, s, Notify(p, None));
      }
      assert s.threads == start.threads;
      s := ReachFull(cfg, s, v, p);
    }
  }

  // Two producers sleep; of two gets only the first signals, and it wakes one of them.
  lemma SecondGetUnsignalled<T(!new)>(cfg: Config, s: State<T>, a: nat, b: nat, k: nat) returns (s': State<T>)
    requires Reachable(cfg, s) && a < |s.threads| && b < |s.threads| && k < |s.threads|
    requires |s.q.que| == s.q.cap >= 2 && a != b && k != a && k != b
    requires s.threads[a].PutAsleep? && s.threads[b].PutAsleep? && OthersIdle(s, a, b)
    ensures Reachable(cfg, s') && s'.q.cap == s.q.cap && |s'.q.que| == s.q.cap - 2
    ensures s'.threads == s.threads[a := PutWoken(s.threads[a].val)]
  {
    s' := Reach(cfg, s, TryGet(k));
    s' := Reach(cfg, s', Notify(k, Some(a)));
    s' := Reach(cfg, s', TryGet(k));
  }

  lemma OnePutOtherStranded<T(!new)>(cfg: Config, s: State<T>, a: nat, b: nat) returns (s': State<T>)
    requires Reachable(cfg, s) && a < |s.threads| && b < |s.threads| && a != b && |s.q.que| + 2 == s.q.cap
    requires s.threads[a].PutWoken? && s.threads[b].PutAsleep? && OthersIdle(s, a, b)
    ensures Reachable(cfg, s') && ProducerStranded(s')
  {
    s' := Reach(cfg, s, Pass(a));
    assert s'.threads[b].PutAsleep?;
  }

  // Two producers asleep on a full queue of capacity two or more: two gets send one signal.
  lemma TwoProducersStrand<T(!new)>(cfg: Config, v: T, a: nat, b: nat, k: nat) returns (s: State<T>)
    requires TwoSided(cfg) && a in cfg.producers && b in cfg.producers && a != b && k in cfg.consumers
    requires cfg.cap >= 2
    ensures Reachable(cfg, s) && ProducerStranded(s)
  {
    s := ReachStart(cfg);
    s := ReachFull(cfg, s, v, k);
    s := ReachPutAsleep(cfg, s, a, v);
    s := ReachPutAsleep(cfg, s, b, v);
    s := SecondGetUnsignalled(cfg, s, a, b, k);
    s := OnePutOtherStranded(cfg, s, a, b);
  }

  // Raising the capacity signals nobody, so even a single producer is stranded.
  lemma RaisingStrandsAProducer<T(!new)>(cfg: Config, v: T, a: nat) returns (s: State<T>)
    requires TwoSided(cfg) && a in cfg.producers && cfg.resizing.Free?
    ensures Reachable(cfg, s) && ProducerStranded(s)
  {
    s := ReachStart(cfg);
    s := Reach(cfg, s, SetCapacity(1));
    s := ReachFull(cfg, s, v, a);
    s := ReachPutAsleep(cfg, s, a, v);
    s := Reach(cfg, s, SetCapacity(2));
    assert s.threads[a].PutAsleep?;
  }

  // ---- The exact conditions ----

  // No run strands a consumer if and only if there is one consumer, or the capacity is one and
  // never raised.
  lemma ConsumersSafeExactly<T(!new)>(cfg: Config, v: T)
    requires TwoSided(cfg)
    ensures (forall s: State<T> :: Reachable(cfg, s) ==> !ConsumerStranded(s))
       <==> AtMostOne(cfg.consumers) || (cfg.cap == 1 && !cfg.resizing.Free?)
  {
    if AtMostOne(cfg.consumers) || NeverRaisedFromOne(cfg) {
      forall s: State<T> | Reachable(cfg, s) ensures !ConsumerStranded(s) {
        if AtMostOne(cfg.consumers) {
          SingleConsumerNeverStranded(cfg, s);
        } else {
          CapacityOneNeverStrands(cfg, s);
        }
      }
    } else {
      var a, b :| a in cfg.consumers && b in cfg.consumers && a != b;
      var p :| p in cfg.producers;
      var s := TwoConsumersStrand(cfg, v, a, b, p);
    }
  }

  // No run strands a producer if and only if the capacity is never raised and there is one
  // producer or the capacity is one.
  lemma ProducersSafeExactly<T(!new)>(cfg: Config, v: T)
    requires TwoSided(cfg)
    ensures (forall s: State<T> :: Reachable(cfg, s) ==> !ProducerStranded(s))
       <==> !cfg.resizing.Free? && (AtMostOne(cfg.producers) || cfg.cap == 1)
  {
    if !cfg.resizing.Free? && (AtMostOne(cfg.producers) || cfg.cap == 1) {
      forall s: State<T> | Reachable(cfg, s) ensures !ProducerStranded(s) {
        if AtMostOne(cfg.producers) {
          SingleProducerNeverStranded(cfg, s);
        } else {
          CapacityOneNeverStrands(cfg, s);
        }
      }
    } else if cfg.resizing.Free? {
      var a :| a in cfg.producers;
      var s := RaisingStrandsAProducer(cfg, v, a);
    } else {
      var a, b :| a in cfg.producers && b in cfg.producers && a != b;
      var k :| k in cfg.consumers;
      var s := TwoProducersStrand(cfg, v, a, b, k);
    }
  }
}
