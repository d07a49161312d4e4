/**
 The queuing consumer API of the asynchronous client: start_consuming(), the two callbacks of
 the library that feed the queue, and consume_message() with its non-blocking variants.

 Thread 0 of the queue machine is the library's thread.  It runs one callback at a time, and a
 callback returns only when its put() has.  Every other thread may consume.
 */
module Consuming {
  import opened Common
  import opened ThreadQueue
  import opened QueueThreads

  const LIBRARY: nat := 0

  datatype Arrival<M> = Message(msg: M) | ConnectionLoss

  // The pointer that goes into the queue: null marks a lost connection.
  function Entry<M>(a: Arrival<M>): Option<M> {
    match a
    case Message(m) => Some(m)
    case ConnectionLoss => None
  }

  function Entries<M>(arrivals: seq<Arrival<M>>): seq<Option<M>> {
    seq(|arrivals|, i requires 0 <= i < |arrivals| => Entry(arrivals[i]))
  }

  // `arrivals` are the callbacks of the current session, in the order in which they began.
  datatype Client<M> = Client(queue: QueueThreads.State<Option<M>>, arrivals: seq<Arrival<M>>)

  datatype Step<M> =
    | StartConsuming
    | Callback(a: Arrival<M>)          // on_message_arrived() or on_connection_lost() reaches put()
    | InQueue(e: Event<Option<M>>)     // put() going on, or a consumer's call

  predicate CanStep<M>(s: Client<M>, st: Step<M>) {
    match st
    case StartConsuming =>
      // nobody is inside the queue that is replaced
      forall t :: 0 <= t < |s.queue.threads| ==> s.queue.threads[t].Idle?
    case Callback(a) => Enabled(s.queue, CallPut(LIBRARY, Entry(a)))
    case InQueue(e) =>
      && Enabled(s.queue, e)
      && (match e
          case CallPut(_, _) => false
          case TryPut(_, _) => false
          case SetCapacity(_) => false
          case CallGet(t, _) => t != LIBRARY
          case TryGet(t) => t != LIBRARY
          case _ => true)
  }

  function Take<M>(s: Client<M>, st: Step<M>): Client<M>
    requires CanStep(s, st)
  {
    match st
    case StartConsuming => Client(Start(MAX_CAPACITY, |s.queue.threads|), [])
    case Callback(a) => Client(Apply(s.queue, CallPut(LIBRARY, Entry(a))), s.arrivals + [a])
    case InQueue(e) => s.(queue := Apply(s.queue, e))
  }

  predicate Runs<M>(s: Client<M>, sts: seq<Step<M>>)
    decreases |sts|
  {
    sts != [] ==> CanStep(s, sts[0]) && Runs(Take(s, sts[0]), sts[1..])
  }

  function After<M>(s: Client<M>, sts: seq<Step<M>>): Client<M>
    requires Runs(s, sts)
    decreases |sts|
  {
    if sts == [] then s else After(Take(s, sts[0]), sts[1..])
  }

  // All arrivals are in the queue or through it, except the one whose callback is still in put().
  ghost predicate Inv<M>(s: Client<M>) {
    && LIBRARY < |s.queue.threads|
    && Fifo(s.queue)
    && (forall t :: 0 < t < |s.queue.threads| ==> !Putting(s.queue.threads[t]))
    && (var lib := s.queue.threads[LIBRARY];
        if Putting(lib) then Entries(s.arrivals) == s.queue.puts + [lib.val]
        else Entries(s.arrivals) == s.queue.puts)
  }

  lemma StepKeepsInv<M>(s: Client<M>, st: Step<M>)
    requires Inv(s) && CanStep(s, st)
    ensures Inv(Take(s, st))
  {
    match st
    case StartConsuming =>
    case Callback(a) =>
      assert Entries(s.arrivals + [a]) == Entries(s.arrivals) + [Entry(a)];
    case InQueue(e) =>
      StepKeepsFifo(s.queue, e);
  }

  lemma {:induction false} RunsKeepInv<M>(s: Client<M>, sts: seq<Step<M>>)
    requires Inv(s) && Runs(s, sts)
    ensures Inv(After(s, sts))
    decreases |sts|
  {
    if sts != [] {
      StepKeepsInv(s, sts[0]);
      RunsKeepInv(Take(s, sts[0]), sts[1..]);
    }
  }

  // What the consumers of a session have been handed is a prefix of its arrivals in order, with
  // a null pointer exactly where the connection was lost; what they have not been handed yet is
  // still in the queue or in the hands of the one callback that runs.
  lemma ConsumedIsPrefixOfArrivals<M>(n: nat, sts: seq<Step<M>>)
    requires n >= 1 && Runs(Client(Start<Option<M>>(MAX_CAPACITY, n), []), sts)
    ensures var s := After(Client(Start<Option<M>>(MAX_CAPACITY, n), []), sts);
      && s.queue.gets <= Entries(s.arrivals)
      && (forall i :: 0 <= i < |s.queue.gets| ==> (s.queue.gets[i].None? <==> s.arrivals[i].ConnectionLoss?))
      && |s.queue.gets| + |s.queue.q.que| + 1 >= |s.arrivals| >= |s.queue.gets| + |s.queue.q.que|
  {
    var s0 := Client(Start<Option<M>>(MAX_CAPACITY, n), []);
    RunsKeepInv(s0, sts);
    var s := After(s0, sts);
    assert s.queue.gets <= s.queue.puts <= Entries(s.arrivals);
    forall i | 0 <= i < |s.queue.gets|
      ensures s.queue.gets[i].None? <==> s.arrivals[i].ConnectionLoss?
    {
      assert s.queue.gets[i] == Entries(s.arrivals)[i];
    }
  }

  // ---- A session ----

  // The callbacks since consuming was last started, read off the steps.
  function SinceStart<M>(atFirst: seq<Arrival<M>>, sts: seq<Step<M>>): seq<Arrival<M>>
    decreases |sts|
  {
    if sts == [] then atFirst
    else
      match sts[0]
      case StartConsuming => SinceStart([], sts[1..])
      case Callback(a) => SinceStart(atFirst + [a], sts[1..])
      case InQueue(_) => SinceStart(atFirst, sts[1..])
  }

  // `arrivals` are the callbacks of the session, over every run.
  lemma {:induction false} ArrivalsOfTheSession<M>(s: Client<M>, sts: seq<Step<M>>)
    requires Runs(s, sts)
    ensures After(s, sts).arrivals == SinceStart(s.arrivals, sts)
    decreases |sts|
  {
    if sts != [] {
      ArrivalsOfTheSession(Take(s, sts[0]), sts[1..]);
    }
  }

  // A new session starts with an empty queue, of which nothing has been taken.
  lemma SessionStartsEmpty<M>(s: Client<M>)
    requires CanStep(s, StartConsuming)
    ensures var q := Take(s, StartConsuming).queue;
      q.q.que == [] && q.gets == [] && q.q.cap == MAX_CAPACITY && |q.threads| == |s.queue.threads|
  {
  }

  lemma TwoSteps<M>(s: Client<M>, a: Step<M>, b: Step<M>)
    requires CanStep(s, a) && CanStep(Take(s, a), b)
    ensures Runs(s, [a, b]) && After(s, [a, b]) == Take(Take(s, a), b)
  {
    var rest := [b];
    assert Runs(Take(s, a), rest) && After(Take(s, a), rest) == Take(Take(s, a), b) by {
      assert rest[1..] == [];
    }
    assert [a, b][1..] == rest;
  }

  // A callback that finds room, and a consumer that finds something, come through.
  lemma ArrivalIsQueued<M>(s: Client<M>, a: Arrival<M>)
    requires LIBRARY < |s.queue.threads| && s.queue.threads[LIBRARY].Idle? && |s.queue.q.que| < s.queue.q.cap
    ensures var sts := [Callback(a), InQueue(Pass(LIBRARY))];
      && Runs(s, sts) && After(s, sts).arrivals == s.arrivals + [a]
      && After(s, sts).queue.q == s.queue.q.(que := s.queue.q.que + [Entry(a)])
  {
    TwoSteps(s, Callback(a), InQueue(Pass(LIBRARY)));
  }

  lemma EntryIsConsumed<M>(s: Client<M>, t: nat, timed: bool)
    requires LIBRARY != t < |s.queue.threads| && s.queue.threads[t].Idle? && s.queue.q.que != []
    ensures var sts := [InQueue(CallGet(t, timed)), InQueue(Pass(t))];
      && Runs(s, sts) && After(s, sts).queue.gets == s.queue.gets + [s.queue.q.que[0]]
      && After(s, sts).queue.q == s.queue.q.(que := s.queue.q.que[1..])
  {
    TwoSteps(s, InQueue(CallGet(t, timed)), InQueue(Pass(t)));
  }

  // One that does not wait takes it at once.
  lemma EntryIsTaken<M>(s: Client<M>, t: nat)
    requires LIBRARY != t < |s.queue.threads| && s.queue.threads[t].Idle? && s.queue.q.que != []
    ensures var st := InQueue(TryGet(t));
      && CanStep(s, st) && Take(s, st).queue.gets == s.queue.gets + [s.queue.q.que[0]]
      && Take(s, st).queue.q == s.queue.q.(que := s.queue.q.que[1..])
  {
    assert CanStep(s, InQueue(TryGet(t)));
  }
}
