/**
 Any number of threads using one queue, interleaved at the granularity at which the mutex of
 mqtt/thread_queue.h is taken and released.  Every notify_one() is a step of its own, after the
 unlock, and a condition variable may also wake a thread spuriously or on a time-out.

 The machine refines an atomic first-in first-out queue, and its size is bounded by the largest
 capacity ever set.
 */
module QueueThreads {
  import opened Common
  import opened ThreadQueue

  datatype Thread<T> =
    | Idle                       // outside the queue's code
    | PutReady(val: T)           // about to take the lock in put()
    | PutAsleep(val: T)          // asleep on notFullCond_, not signalled
    | PutWoken(val: T)           // signalled: must take the lock and test again
    | GetReady(timed: bool)      // the same for get(), and for the timed gets
    | GetAsleep(timed: bool)
    | GetWoken(timed: bool)
    | OwesNotEmpty               // lock released, notEmptyCond_.notify_one() still to come
    | OwesNotFull                // lock released, notFullCond_.notify_one() still to come

  // `puts` and `gets` record the values in the order in which the lock was held;
  // `peak` is the largest capacity so far.
  datatype State<T> = State(q: Guarded<T>, threads: seq<Thread<T>>, puts: seq<T>, gets: seq<T>, peak: nat)

  datatype Event<T> =
    | CallPut(t: nat, val: T)
    | CallGet(t: nat, timed: bool)
    | TryPut(t: nat, val: T)
    | TryGet(t: nat)
    | Pass(t: nat)                       // take the lock, test, then go on or sleep
    | GiveUp(t: nat)                     // a timed get that finds nothing returns false
    | Notify(t: nat, woken: Option<nat>) // notify_one(): some sleeper, or nobody sleeps
    | Wake(t: nat)                       // spurious wake-up or time-out
    | SetCapacity(cap: nat)

  function Start<T>(cap: nat, n: nat): State<T> {
    State(Guarded([], cap), seq(n, i => Idle), [], [], cap)
  }

  // Inside get(), or inside put().
  predicate Getting<T>(th: Thread<T>) {
    th.GetReady? || th.GetAsleep? || th.GetWoken?
  }

  predicate Putting<T>(th: Thread<T>) {
    th.PutReady? || th.PutAsleep? || th.PutWoken?
  }

  predicate Sleeps<T>(owes: Thread<T>, sleeper: Thread<T>) {
    (owes.OwesNotEmpty? && sleeper.GetAsleep?) || (owes.OwesNotFull? && sleeper.PutAsleep?)
  }

  predicate Enabled<T>(s: State<T>, e: Event<T>) {
    match e
    case CallPut(t, _) => t < |s.threads| && s.threads[t].Idle?
    case CallGet(t, _) => t < |s.threads| && s.threads[t].Idle?
    case TryPut(t, _) => t < |s.threads| && s.threads[t].Idle?
    case TryGet(t) => t < |s.threads| && s.threads[t].Idle?
    case Pass(t) =>
      t < |s.threads| &&
      (s.threads[t].PutReady? || s.threads[t].PutWoken? || s.threads[t].GetReady? || s.threads[t].GetWoken?)
    case GiveUp(t) =>
      t < |s.threads| && s.q.que == [] && (s.threads[t].GetReady? || s.threads[t].GetWoken?) && s.threads[t].timed
    case Notify(t, woken) =>
      && t < |s.threads|
      && (s.threads[t].OwesNotEmpty? || s.threads[t].OwesNotFull?)
      && (match woken
          case Some(u) => u < |s.threads| && Sleeps(s.threads[t], s.threads[u])
          case None => forall u :: 0 <= u < |s.threads| ==> !Sleeps(s.threads[t], s.threads[u]))
    case Wake(t) => t < |s.threads| && (s.threads[t].PutAsleep? || s.threads[t].GetAsleep?)
    case SetCapacity(cap) => cap <= MAX_CAPACITY
  }

  function Woken<T>(th: Thread<T>): Thread<T> {
    match th
    case PutAsleep(val) => PutWoken(val)
    case GetAsleep(timed) => GetWoken(timed)
    case _ => th
  }

  // The critical section of a put by thread t, and of a get.
  function DoPut<T>(s: State<T>, t: nat, val: T, otherwise: Thread<T>): State<T>
    requires t < |s.threads|
  {
    match PutPass(s.q, val)
    case MustWait => s.(threads := s.threads[t := otherwise])
    case Accepted(q, notify) =>
      s.(q := q, threads := s.threads[t := if notify then OwesNotEmpty else Idle], puts := s.puts + [val])
  }

  function DoGet<T>(s: State<T>, t: nat, otherwise: Thread<T>): State<T>
    requires t < |s.threads|
  {
    match GetPass(s.q)
    case NothingThere => s.(threads := s.threads[t := otherwise])
    case Removed(q, val, notify) =>
      s.(q := q, threads := s.threads[t := if notify then OwesNotFull else Idle], gets := s.gets + [val])
  }

  function Apply<T>(s: State<T>, e: Event<T>): State<T>
    requires Enabled(s, e)
  {
    match e
    case CallPut(t, val) => s.(threads := s.threads[t := PutReady(val)])
    case CallGet(t, timed) => s.(threads := s.threads[t := GetReady(timed)])
    case TryPut(t, val) => DoPut(s, t, val, Idle)
    case TryGet(t) => DoGet(s, t, Idle)
    case Pass(t) =>
      var th := s.threads[t];
      if th.PutReady? || th.PutWoken? then DoPut(s, t, th.val, PutAsleep(th.val))
      else DoGet(s, t, GetAsleep(th.timed))
    case GiveUp(t) => s.(threads := s.threads[t := Idle])
    case Notify(t, woken) =>
      var released := s.threads[t := Idle];
      s.(threads := if woken.Some? then released[woken.value := Woken(released[woken.value])] else released)
    case Wake(t) => s.(threads := s.threads[t := Woken(s.threads[t])])
    case SetCapacity(cap) =>
      s.(q := s.q.(cap := cap), peak := if cap > s.peak then cap else s.peak)
  }

  // A run is a sequence of events, each enabled when its turn comes.
  predicate Runs<T>(s: State<T>, es: seq<Event<T>>)
    decreases |es|
  {
    es != [] ==> Enabled(s, es[0]) && Runs(Apply(s, es[0]), es[1..])
  }

  function After<T>(s: State<T>, es: seq<Event<T>>): State<T>
    requires Runs(s, es)
    decreases |es|
  {
    if es == [] then s else After(Apply(s, es[0]), es[1..])
  }

  // ---- Refinement of an atomic queue ----

  // What one step does to an atomic queue.
  datatype FifoOp<T> = Enqueue(val: T) | Dequeue(val: T) | Stutter

  ghost predicate FifoStep<T>(a: seq<T>, op: FifoOp<T>, b: seq<T>) {
    match op
    case Enqueue(val) => b == a + [val]
    case Dequeue(val) => a == [val] + b
    case Stutter => b == a
  }

  // The atomic operation a step stands for, read off the histories and not off the queue.
  function OpOf<T>(s: State<T>, e: Event<T>): FifoOp<T>
    requires Enabled(s, e)
  {
    var s' := Apply(s, e);
    if |s'.puts| > |s.puts| then Enqueue(s'.puts[|s.puts|])
    else if |s'.gets| > |s.gets| then Dequeue(s'.gets[|s.gets|])
    else Stutter
  }

  function OpsOf<T>(s: State<T>, es: seq<Event<T>>): seq<FifoOp<T>>
    requires Runs(s, es)
    decreases |es|
  {
    if es == [] then [] else [OpOf(s, es[0])] + OpsOf(Apply(s, es[0]), es[1..])
  }

  // A sequence of operations of an atomic queue that holds `a` before it and `b` after it.
  ghost predicate LegalHistory<T>(a: seq<T>, ops: seq<FifoOp<T>>, b: seq<T>)
    decreases |ops|
  {
    if ops == [] then a == b
    else match ops[0]
      case Enqueue(val) => LegalHistory(a + [val], ops[1..], b)
      case Dequeue(val) => a != [] && a[0] == val && LegalHistory(a[1..], ops[1..], b)
      case Stutter => LegalHistory(a, ops[1..], b)
  }

  lemma {:induction false} RefinesAtomicFifo<T>(s: State<T>, es: seq<Event<T>>)
    requires Runs(s, es)
    ensures LegalHistory(s.q.que, OpsOf(s, es), After(s, es).q.que)
    decreases |es|
  {
    if es != [] {
      RefinesAtomicFifo(Apply(s, es[0]), es[1..]);
      assert OpsOf(s, es)[1..] == OpsOf(Apply(s, es[0]), es[1..]);
      assert FifoStep(s.q.que, OpOf(s, es[0]), Apply(s, es[0]).q.que);
    }
  }

  // Values taken followed by values held are the values put; the size is bounded.
  ghost predicate Fifo<T>(s: State<T>) {
    && s.puts == s.gets + s.q.que
    && |s.q.que| <= s.peak
    && s.q.cap <= s.peak
  }

  lemma StepKeepsFifo<T>(s: State<T>, e: Event<T>)
    requires Fifo(s) && Enabled(s, e)
    ensures Fifo(Apply(s, e))
    ensures s.puts <= Apply(s, e).puts && s.gets <= Apply(s, e).gets
    // the size never grows while it is at or above the capacity
    ensures |Apply(s, e).q.que| > |s.q.que| ==> |s.q.que| < s.q.cap
  {
    var s' := Apply(s, e);
    if s'.gets != s.gets {
      assert s'.gets + s'.q.que == s.gets + s.q.que;
    }
  }

  // In any run of any number of threads.
  lemma {:induction false} FifoAlways<T>(s: State<T>, es: seq<Event<T>>)
    requires Fifo(s) && Runs(s, es)
    ensures Fifo(After(s, es))
    ensures s.puts <= After(s, es).puts && s.gets <= After(s, es).gets
    decreases |es|
  {
    if es != [] {
      StepKeepsFifo(s, es[0]);
      FifoAlways(Apply(s, es[0]), es[1..]);
    }
  }

  function MaxCapacitySet<T>(cap: nat, es: seq<Event<T>>): nat
    decreases |es|
  {
    if es == [] then cap
    else MaxCapacitySet(if es[0].SetCapacity? && es[0].cap > cap then es[0].cap else cap, es[1..])
  }

  lemma {:induction false} PeakIsMaxCapacitySet<T>(s: State<T>, es: seq<Event<T>>)
    requires Runs(s, es)
    ensures After(s, es).peak == MaxCapacitySet(s.peak, es)
    decreases |es|
  {
    if es != [] {
      PeakIsMaxCapacitySet(Apply(s, es[0]), es[1..]);
    }
  }

  // From a fresh queue: conservation, order, and the bound on the size.
  lemma QueueIsBoundedFifo<T>(cap: nat, n: nat, es: seq<Event<T>>)
    requires Runs(Start(cap, n), es)
    ensures var s := After(Start<T>(cap, n), es);
      s.puts == s.gets + s.q.que && |s.q.que| <= MaxCapacitySet(cap, es)
  {
    FifoAlways(Start<T>(cap, n), es);
    PeakIsMaxCapacitySet(Start<T>(cap, n), es);
  }

  // ---- What a call has done when it is over ----

  // Thread t, in this step, takes a value; or its time is up and it has found nothing.
  ghost predicate Takes<T>(s: State<T>, e: Event<T>, t: nat)
    requires Enabled(s, e)
  {
    e == Pass(t) && s.q.que != [] && Apply(s, e).gets == s.gets + [s.q.que[0]] && Apply(s, e).q.que == s.q.que[1..]
  }

  ghost predicate FindsNothing<T>(s: State<T>, e: Event<T>, t: nat)
    requires Enabled(s, e)
  {
    e == GiveUp(t) && s.q.que == [] && s.threads[t].timed && Apply(s, e).gets == s.gets
  }

  ghost predicate EndsGet<T>(s: State<T>, es: seq<Event<T>>, t: nat)
    requires Runs(s, es)
    decreases |es|
  {
    es != [] && (Takes(s, es[0], t) || FindsNothing(s, es[0], t) || EndsGet(Apply(s, es[0]), es[1..], t))
  }

  ghost predicate EndsPut<T>(s: State<T>, es: seq<Event<T>>, t: nat, val: T)
    requires Runs(s, es)
    decreases |es|
  {
    es != [] &&
    ((es[0] == Pass(t) && |s.q.que| < s.q.cap && Apply(s, es[0]).q.que == s.q.que + [val])
     || EndsPut(Apply(s, es[0]), es[1..], t, val))
  }

  predicate PuttingAt<T>(s: State<T>, t: nat) {
    t < |s.threads| && Putting(s.threads[t])
  }

  predicate GettingAt<T>(s: State<T>, t: nat) {
    t < |s.threads| && Getting(s.threads[t])
  }

  lemma StepEndsCall<T>(s: State<T>, e: Event<T>, t: nat)
    requires Enabled(s, e)
    ensures PuttingAt(s, t) ==>
      || (PuttingAt(Apply(s, e), t) && Apply(s, e).threads[t].val == s.threads[t].val)
      || (e == Pass(t) && |s.q.que| < s.q.cap && Apply(s, e).q.que == s.q.que + [s.threads[t].val])
    ensures GettingAt(s, t) ==>
      || (GettingAt(Apply(s, e), t) && Apply(s, e).threads[t].timed == s.threads[t].timed)
      || Takes(s, e, t) || FindsNothing(s, e, t)
  {
  }

  // In every run, a put() that is over has added its value, at a moment when there was room.
  lemma {:induction false} PutEndsWithItsValue<T>(s: State<T>, es: seq<Event<T>>, t: nat)
    requires Runs(s, es) && PuttingAt(s, t) && !PuttingAt(After(s, es), t)
    ensures EndsPut(s, es, t, s.threads[t].val)
    decreases |es|
  {
    StepEndsCall(s, es[0], t);
    if PuttingAt(Apply(s, es[0]), t) && Apply(s, es[0]).threads[t].val == s.threads[t].val {
      PutEndsWithItsValue(Apply(s, es[0]), es[1..], t);
    }
  }

  // And a get() that is over has taken the oldest value, or was a timed one that found the queue empty.
  lemma {:induction false} GetEndsWithTheOldest<T>(s: State<T>, es: seq<Event<T>>, t: nat)
    requires Runs(s, es) && GettingAt(s, t) && !GettingAt(After(s, es), t)
    ensures EndsGet(s, es, t)
    decreases |es|
  {
    StepEndsCall(s, es[0], t);
    if GettingAt(Apply(s, es[0]), t) {
      GetEndsWithTheOldest(Apply(s, es[0]), es[1..], t);
    }
  }

  // ---- Single calls, and sleepers that are woken ----

  lemma RunsOfTwo<T>(s: State<T>, a: Event<T>, b: Event<T>)
    requires Enabled(s, a) && Enabled(Apply(s, a), b)
    ensures Runs(s, [a, b]) && After(s, [a, b]) == Apply(Apply(s, a), b)
  {
    var rest := [b];
    assert Runs(Apply(s, a), rest) && After(Apply(s, a), rest) == Apply(Apply(s, a), b) by {
      assert rest[1..] == [];
    }
    assert [a, b][1..] == rest;
  }

  // Woken for no reason, a put() looks again: it adds its value if there is room, and sleeps again if not.
  lemma WokenPutLooks<T>(s: State<T>, t: nat)
    requires t < |s.threads| && s.threads[t].PutAsleep?
    ensures var es, val := [Wake(t), Pass(t)], s.threads[t].val;
      && Runs(s, es)
      && (|s.q.que| >= s.q.cap ==> After(s, es) == s)
      && (|s.q.que| < s.q.cap ==>
            !PuttingAt(After(s, es), t) && After(s, es).q == s.q.(que := s.q.que + [val])
            && After(s, es).puts == s.puts + [val])
  {
    var s1 := Apply(s, Wake(t));
    RunsOfTwo(s, Wake(t), Pass(t));
    if |s.q.que| >= s.q.cap {
      assert Apply(s1, Pass(t)).threads == s.threads;
    }
  }

  // And a get() takes the oldest value if there is one, sleeps again if not, and may give up if timed.
  lemma WokenGetLooks<T>(s: State<T>, t: nat)
    requires t < |s.threads| && s.threads[t].GetAsleep?
    ensures var es := [Wake(t), Pass(t)];
      && Runs(s, es)
      && (s.q.que == [] ==> After(s, es) == s)
      && (s.q.que != [] ==>
            !GettingAt(After(s, es), t) && After(s, es).q == s.q.(que := s.q.que[1..])
            && After(s, es).gets == s.gets + [s.q.que[0]])
    ensures s.q.que == [] && s.threads[t].timed ==>
      Runs(s, [Wake(t), GiveUp(t)]) && After(s, [Wake(t), GiveUp(t)]) == s.(threads := s.threads[t := Idle])
  {
    var s1 := Apply(s, Wake(t));
    RunsOfTwo(s, Wake(t), Pass(t));
    if s.q.que == [] {
      assert Apply(s1, Pass(t)).threads == s.threads;
      if s.threads[t].timed {
        RunsOfTwo(s, Wake(t), GiveUp(t));
        assert Apply(s1, GiveUp(t)).threads == s.threads[t := Idle];
      }
    }
  }

  // The calls that never wait.
  lemma TriesAtOnce<T>(s: State<T>, t: nat, val: T)
    requires t < |s.threads| && s.threads[t].Idle?
    ensures Enabled(s, TryPut(t, val)) && Enabled(s, Event<T>.TryGet(t))
    ensures var s' := Apply(s, TryPut(t, val));
      if |s.q.que| >= s.q.cap then s' == s
      else s'.q == s.q.(que := s.q.que + [val]) && s'.puts == s.puts + [val] && !PuttingAt(s', t)
    ensures var s' := Apply(s, Event<T>.TryGet(t));
      if s.q.que == [] then s' == s
      else s'.q == s.q.(que := s.q.que[1..]) && s'.gets == s.gets + [s.q.que[0]] && !GettingAt(s', t)
  {
    assert s.threads[t := Idle] == s.threads;
  }
}
