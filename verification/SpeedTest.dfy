/**
 The complete run of samples/pub_speed_test.cpp: the main thread publishes `n` messages, puts
 each delivery token in the queue and then a null token; the other thread takes tokens and
 waits for each to complete, until it takes the null one.

 Three things can go wrong, and `Env` says whether they can.  The library may complete a message with
 a failure, and then wait() throws and ends the waiting thread.  It may refuse a message, and then
 publish() throws: the future of the waiting thread is local to the try block, so its destructor
 waits for that thread before the handler puts the null token that would end it.  And the clock may
 show that publishing took no whole millisecond: main() divides by their number, which ends the
 process.

 The queue is the machine of `QueueThreads` with the main thread as thread 0 and the waiting
 thread as thread 1.  The MQTT library is the environment: it completes each published token
 once, whenever it likes.
 */
module SpeedTest {
  import opened Common
  import opened QueueThreads
  import W = QueueWakeups

  const PRODUCER: nat := 0
  const WAITER: nat := 1

  type Token = Option<nat>  // the i-th publish() makes token i; None is the null pointer

  datatype Env = Env(refuses: bool, fails: bool, instant: bool)

  datatype MainPc =
    | Trying      // in the try block, up to the end of the waiting thread
    | Reporting   // past fut.get(), about to print the rates
    | Catching    // in the handler
    | Killed      // by a division by zero
    | Ended

  datatype Test = Test(
    queue: QueueThreads.State<Token>,
    published: nat,       // calls of publish() that have returned
    sent: nat,            // calls of put() in the try block that have begun
    main: MainPc,
    refused: bool,        // a call of publish() has thrown
    again: bool,          // the call of put() in the handler has begun
    handled: nat,         // values from get() that the waiting thread has dealt with
    done: bool,           // the waiting thread has ended
    threw: bool,          // by an exception
    completed: set<nat>,  // tokens the library has completed
    failed: set<nat>)     // with a failure

  datatype Step =
    | Publish
    | Refuse               // publish() throws
    | InQueue(e: Event<Token>)
    | Complete(k: nat, ok: bool)
    | WaitReturns          // tok->wait()
    | WaitThrows
    | LeaveLoop            // if (!tok) break
    | Join                 // fut.get(), or the destructor of fut
    | Report(ms: nat)      // how long publishing took
    | Return

  // What the main thread puts: the tokens in the order of publishing, then the null token.
  function Items(n: nat): seq<Token> {
    seq(n, i => Some(i)) + [None]
  }

  function Begin(cap: nat): Test {
    Test(Start(cap, 2), 0, 0, Trying, false, false, 0, false, false, {}, {})
  }

  // Dealing with the value that get() has just returned.
  predicate Holding(s: Test) {
    |s.queue.threads| == 2 && s.queue.threads[WAITER].Idle? && |s.queue.gets| == s.handled + 1 && !s.done
  }

  predicate MainIdle(s: Test) {
    |s.queue.threads| == 2 && s.queue.threads[PRODUCER].Idle?
  }

  // The put() that the main thread comes to next.
  predicate PutsNext(n: nat, s: Test, val: Token) {
    if s.main.Trying? then
      !s.refused && s.sent <= n && (s.sent < n ==> s.published == s.sent + 1) && val == Items(n)[s.sent]
    else s.main.Catching? && !s.again && val == None
  }

  predicate CanStep(env: Env, n: nat, s: Test, st: Step) {
    match st
    case Publish => MainIdle(s) && s.main.Trying? && !s.refused && s.published == s.sent < n
    case Refuse => env.refuses && MainIdle(s) && s.main.Trying? && !s.refused && s.published == s.sent < n
    case InQueue(e) =>
      && Enabled(s.queue, e)
      && (match e
          case CallPut(t, val) => t == PRODUCER && PutsNext(n, s, val)
          case CallGet(t, timed) => t == WAITER && !timed && !s.done && |s.queue.gets| == s.handled
          case Pass(_) => true
          case Notify(_, _) => true
          case Wake(_) => true
          case _ => false)
    case Complete(k, ok) => k < s.published && k !in s.completed && (ok || env.fails)
    case WaitReturns =>
      Holding(s) && s.queue.gets[s.handled].Some? && s.queue.gets[s.handled].value in s.completed - s.failed
    case WaitThrows =>
      Holding(s) && s.queue.gets[s.handled].Some? && s.queue.gets[s.handled].value in s.failed
    case LeaveLoop => Holding(s) && s.queue.gets[s.handled].None?
    case Join => s.main.Trying? && MainIdle(s) && (s.refused || s.sent == n + 1) && s.done
    case Report(ms) => s.main.Reporting? && MainIdle(s) && (ms == 0 ==> env.instant)
    case Return => s.main.Catching? && MainIdle(s) && s.again
  }

  function Put(s: Test): Test {
    if s.main.Trying? then s.(sent := s.sent + 1) else s.(again := true)
  }

  function Take(env: Env, n: nat, s: Test, st: Step): Test
    requires CanStep(env, n, s, st)
  {
    match st
    case Publish => s.(published := s.published + 1)
    case Refuse => s.(refused := true)
    case InQueue(e) => (if e.CallPut? then Put(s) else s).(queue := Apply(s.queue, e))
    case Complete(k, ok) => s.(completed := s.completed + {k}, failed := if ok then s.failed else s.failed + {k})
    case WaitReturns => s.(handled := s.handled + 1)
    case WaitThrows => s.(done := true, threw := true)
    case LeaveLoop => s.(handled := s.handled + 1, done := true)
    case Join => s.(main := if s.refused || s.threw then Catching else Reporting)
    case Report(ms) => s.(main := if ms == 0 then Killed else Ended)
    case Return => s.(main := Ended)
  }

  predicate Spurious(st: Step) {
    st.InQueue? && st.e.Wake?
  }

  predicate Finished(s: Test) {
    s.main.Ended?
  }

  // ---- The invariant ----

  function Setup(cap: nat): W.Config {
    W.Config(cap, W.Fixed, 2, {PRODUCER}, {WAITER})
  }

  // The calls of put() that have begun.
  function Begun(s: Test): nat {
    s.sent + if s.again then 1 else 0
  }

  ghost predicate MainInv(n: nat, s: Test)
    requires |s.queue.threads| == 2
  {
    var th := s.queue.threads[PRODUCER];
    && s.sent <= n + 1
    && s.published <= n
    && (if s.sent <= n then s.sent <= s.published <= s.sent + 1 else s.published == n)
    && (s.refused ==> s.published == s.sent < n)
    && (s.main.Trying? ==> !s.again)
    && (s.main.Catching? ==> s.done && (s.refused || (s.threw && s.sent == n + 1)))
    && (s.main.Reporting? || s.main.Killed? ==>
          s.done && th.Idle? && !s.refused && !s.threw && !s.again && s.sent == n + 1)
    && (s.main.Ended? ==> s.done && th.Idle? && (if s.refused || s.threw then s.again else !s.again)
                          && (s.refused || s.sent == n + 1))
  }

  ghost predicate ProducerInv(n: nat, s: Test)
    requires |s.queue.threads| == 2 && s.sent <= n + 1
  {
    var th, puts := s.queue.threads[PRODUCER], s.queue.puts;
    && (th.Idle? || th.OwesNotEmpty? || Putting(th))
    && |puts| == (if Putting(th) then Begun(s) - 1 else Begun(s))
    && (Putting(th) && s.again ==> th.val == None)
    && (Putting(th) && !s.again ==>
          s.main.Trying? && !s.refused && s.sent > 0
          && s.published == (if s.sent <= n then s.sent else n) && th.val == Items(n)[s.sent - 1])
    && (if |puts| <= s.sent then puts == Items(n)[..|puts|] else puts == Items(n)[..s.sent] + [None])
  }

  ghost predicate WaiterInv(n: nat, s: Test)
    requires |s.queue.threads| == 2
  {
    var th := s.queue.threads[WAITER];
    && (th.Idle? || th.OwesNotFull? || (Getting(th) && !th.timed))
    && (Getting(th) ==> |s.queue.gets| == s.handled && !s.done)
    && (th.OwesNotFull? ==> |s.queue.gets| == s.handled + 1 && !s.done)
    && s.handled <= |s.queue.gets| <= s.handled + 1
    && |s.queue.gets| <= s.sent
    && (s.threw ==> s.done && |s.queue.gets| == s.handled + 1 && s.handled < n && s.handled in s.failed)
    && (if s.done && !s.threw then s.handled == |s.queue.gets| == n + 1 else s.handled <= n)
    && s.failed <= s.completed
    && (forall k :: k in s.completed ==> k < s.published)
    && (forall k :: 0 <= k < s.handled && k < n ==> k in s.completed && k !in s.failed)
  }

  ghost predicate Inv(env: Env, n: nat, cap: nat, s: Test) {
    && cap >= 1
    && W.Roles(Setup(cap), s.queue)
    && Fifo(s.queue)
    && MainInv(n, s)
    && ProducerInv(n, s)
    && WaiterInv(n, s)
    && (s.refused ==> env.refuses)
    && (s.main.Killed? ==> env.instant)
    && (s.failed != {} ==> env.fails)
    && W.ConsumersNotified(s.queue, true)
    && W.ProducersNotified(s.queue, true)
  }

  lemma TakenInOrder(n: nat, s: Test)
    requires |s.queue.threads| == 2 && s.sent <= n + 1
    requires Fifo(s.queue) && ProducerInv(n, s) && |s.queue.gets| <= s.sent
    ensures |s.queue.gets| <= |s.queue.puts| && s.queue.gets == Items(n)[..|s.queue.gets|]
  {
    assert s.queue.gets == s.queue.puts[..|s.queue.gets|];
  }

  // ---- Steps ----

  lemma StepKeepsMain(env: Env, n: nat, cap: nat, s: Test, st: Step)
    requires Inv(env, n, cap, s) && CanStep(env, n, s, st)
    ensures |Take(env, n, s, st).queue.threads| == 2 && MainInv(n, Take(env, n, s, st))
  {
  }

  lemma CallKeepsProducer(env: Env, n: nat, s: Test, val: Token)
    requires |s.queue.threads| == 2 && s.sent <= n + 1 && MainInv(n, s) && ProducerInv(n, s)
    requires CanStep(env, n, s, InQueue(CallPut(PRODUCER, val)))
    ensures var s' := Take(env, n, s, InQueue(CallPut(PRODUCER, val)));
      |s'.queue.threads| == 2 && s'.sent <= n + 1 && ProducerInv(n, s')
  {
  }

  // The value that a pass of put() adds is the next one.
  lemma PassKeepsProducer(env: Env, n: nat, s: Test, t: nat)
    requires |s.queue.threads| == 2 && s.sent <= n + 1 && ProducerInv(n, s) && !Putting(s.queue.threads[WAITER])
    requires CanStep(env, n, s, InQueue(Pass(t)))
    ensures var s' := Take(env, n, s, InQueue(Pass(t))); |s'.queue.threads| == 2 && ProducerInv(n, s')
  {
    var s' := Take(env, n, s, InQueue(Pass(t)));
    if |s'.queue.puts| > |s.queue.puts| && !s.again {
      assert s'.queue.puts == s.queue.puts + [Items(n)[|s.queue.puts|]];
    }
  }

  // A notify or a wake-up adds nothing.
  lemma SignalKeepsProducer(env: Env, n: nat, s: Test, e: Event<Token>)
    requires |s.queue.threads| == 2 && s.sent <= n + 1 && ProducerInv(n, s) && CanStep(env, n, s, InQueue(e))
    requires !e.CallPut? && !e.Pass?
    ensures var s' := Take(env, n, s, InQueue(e)); |s'.queue.threads| == 2 && ProducerInv(n, s')
  {
  }

  lemma OtherKeepsProducer(env: Env, n: nat, s: Test, st: Step)
    requires |s.queue.threads| == 2 && s.sent <= n + 1 && MainInv(n, s) && ProducerInv(n, s) && CanStep(env, n, s, st)
    requires !st.InQueue?
    ensures var s' := Take(env, n, s, st); |s'.queue.threads| == 2 && s'.sent <= n + 1 && ProducerInv(n, s')
  {
  }

  lemma StepKeepsProducer(env: Env, n: nat, cap: nat, s: Test, st: Step)
    requires Inv(env, n, cap, s) && CanStep(env, n, s, st)
    ensures var s' := Take(env, n, s, st); |s'.queue.threads| == 2 && s'.sent <= n + 1 && ProducerInv(n, s')
  {
    match st
    case InQueue(CallPut(_, val)) => CallKeepsProducer(env, n, s, val);
    case InQueue(Pass(t)) => PassKeepsProducer(env, n, s, t);
    case InQueue(e) => SignalKeepsProducer(env, n, s, e);
    case _ => OtherKeepsProducer(env, n, s, st);
  }

  lemma GetPassKeepsWaiter(env: Env, n: nat, cap: nat, s: Test)
    requires Inv(env, n, cap, s) && CanStep(env, n, s, InQueue(Pass(WAITER)))
    ensures var s' := Take(env, n, s, InQueue(Pass(WAITER))); |s'.queue.threads| == 2 && WaiterInv(n, s')
  {
    // while it gets, nothing has been put but what is put in the try block
    assert s.main.Trying? && !s.again;
  }

  lemma QueueStepKeepsWaiter(env: Env, n: nat, cap: nat, s: Test, e: Event<Token>)
    requires Inv(env, n, cap, s) && CanStep(env, n, s, InQueue(e)) && e != Pass(WAITER)
    ensures |Take(env, n, s, InQueue(e)).queue.threads| == 2 && WaiterInv(n, Take(env, n, s, InQueue(e)))
  {
  }

  lemma HandlingKeepsWaiter(env: Env, n: nat, cap: nat, s: Test, st: Step)
    requires Inv(env, n, cap, s) && CanStep(env, n, s, st) && (st.WaitReturns? || st.WaitThrows? || st.LeaveLoop?)
    ensures WaiterInv(n, Take(env, n, s, st))
  {
    TakenInOrder(n, s);
    assert s.queue.gets[s.handled] == Items(n)[s.handled];
  }

  lemma StepKeepsWaiter(env: Env, n: nat, cap: nat, s: Test, st: Step)
    requires Inv(env, n, cap, s) && CanStep(env, n, s, st)
    ensures |Take(env, n, s, st).queue.threads| == 2 && WaiterInv(n, Take(env, n, s, st))
  {
    match st
    case InQueue(e) =>
      if e == Pass(WAITER) { GetPassKeepsWaiter(env, n, cap, s); } else { QueueStepKeepsWaiter(env, n, cap, s, e); }
    case WaitReturns => HandlingKeepsWaiter(env, n, cap, s, st);
    case WaitThrows => HandlingKeepsWaiter(env, n, cap, s, st);
    case LeaveLoop => HandlingKeepsWaiter(env, n, cap, s, st);
    case _ =>
  }

  lemma StepKeepsInv(env: Env, n: nat, cap: nat, s: Test, st: Step)
    requires Inv(env, n, cap, s) && CanStep(env, n, s, st)
    ensures Inv(env, n, cap, Take(env, n, s, st))
  {
    StepKeepsMain(env, n, cap, s, st);
    StepKeepsProducer(env, n, cap, s, st);
    StepKeepsWaiter(env, n, cap, s, st);
    if st.InQueue? {
      StepKeepsFifo(s.queue, st.e);
      W.StepKeepsRoles(Setup(cap), s.queue, st.e);
      W.StepKeepsConsumersNotified(Setup(cap), s.queue, st.e, true);
      W.StepKeepsProducersNotified(Setup(cap), s.queue, st.e, true);
    }
  }

  // ---- Never stuck ----

  // What the library and the clock can do to the program without stopping it for good.
  predicate CanGoOn(n: nat, cap: nat, s: Test) {
    !s.refused && (s.threw ==> n < cap) && !s.main.Killed?
  }

  ghost predicate CanProceed(env: Env, n: nat, s: Test) {
    exists st :: CanStep(env, n, s, st) && !Spurious(st)
  }

  // What the main thread does next, unless it sleeps or waits for the other thread to end.
  lemma MainGoesOn(env: Env, n: nat, cap: nat, s: Test) returns (st: Step)
    requires Inv(env, n, cap, s) && CanGoOn(n, cap, s) && !Finished(s)
    requires !s.queue.threads[PRODUCER].PutAsleep?
    requires !(MainIdle(s) && s.main.Trying? && s.sent == n + 1 && !s.done)
    ensures CanStep(env, n, s, st) && !Spurious(st)
  {
    var p, w := s.queue.threads[PRODUCER], s.queue.threads[WAITER];
    if p.PutReady? || p.PutWoken? {
      st := InQueue(Pass(PRODUCER));
    } else if p.OwesNotEmpty? {
      st := InQueue(Notify(PRODUCER, if w.GetAsleep? then Some(WAITER) else None));
    } else if s.main.Catching? {
      st := if s.again then Return else InQueue(CallPut(PRODUCER, None));
    } else if s.main.Reporting? {
      st := Report(1);
    } else if s.sent == n + 1 {
      st := Join;
    } else {
      st := if s.published == s.sent < n then Publish else InQueue(CallPut(PRODUCER, Items(n)[s.sent]));
    }
  }

  // What the waiting thread, or the library for it, does next, unless it sleeps or has ended.
  lemma WaiterGoesOn(env: Env, n: nat, cap: nat, s: Test) returns (st: Step)
    requires Inv(env, n, cap, s) && !s.done && !s.queue.threads[WAITER].GetAsleep?
    ensures CanStep(env, n, s, st) && !Spurious(st)
  {
    var p, w := s.queue.threads[PRODUCER], s.queue.threads[WAITER];
    TakenInOrder(n, s);
    if w.GetReady? || w.GetWoken? {
      st := InQueue(Pass(WAITER));
    } else if w.OwesNotFull? {
      st := InQueue(Notify(WAITER, if p.PutAsleep? then Some(PRODUCER) else None));
    } else if |s.queue.gets| == s.handled {
      st := InQueue(CallGet(WAITER, false));
    } else if s.handled == n {
      st := LeaveLoop;
    } else {
      assert s.queue.gets[s.handled] == Some(s.handled);
      st := if s.handled !in s.completed then Complete(s.handled, true)
      else if s.handled in s.failed then WaitThrows else WaitReturns;
    }
  }

  // Asleep in put(), the main thread has a waiting thread that can go on.
  lemma AsleepIsServed(env: Env, n: nat, cap: nat, s: Test)
    requires Inv(env, n, cap, s) && CanGoOn(n, cap, s) && s.queue.threads[PRODUCER].PutAsleep?
    ensures !s.done && !s.queue.threads[WAITER].GetAsleep?
  {
    TakenInOrder(n, s);
    assert W.PutterAsleep(s.queue);
    SleeperIsSeen(s);
    // after an exception everything fits, so there is room, and nobody would owe the signal
    assert s.threw ==> |s.queue.q.que| == |s.queue.puts| - |s.queue.gets| <= n;
  }

  lemma SleeperIsSeen(s: Test)
    requires |s.queue.threads| == 2
    ensures s.queue.threads[WAITER].GetAsleep? ==> W.GetterAsleep(s.queue)
  {
  }

  // Waiting for the other thread to end, it has put the null token already.
  lemma JoinedIsServed(env: Env, n: nat, cap: nat, s: Test)
    requires Inv(env, n, cap, s) && MainIdle(s) && s.main.Trying? && s.sent == n + 1 && !s.done
    ensures !s.queue.threads[WAITER].GetAsleep?
  {
    TakenInOrder(n, s);
    SleeperIsSeen(s);
  }

  // In every reachable state that is not finished some step other than a spurious wake-up is
  // enabled, unless a publish has been refused, or too much is left for a queue without a reader, or
  // the process has been killed.
  lemma NeverStuck(env: Env, n: nat, cap: nat, s: Test)
    requires Inv(env, n, cap, s) && CanGoOn(n, cap, s) && !Finished(s)
    ensures CanProceed(env, n, s)
  {
    if s.queue.threads[PRODUCER].PutAsleep? {
      AsleepIsServed(env, n, cap, s);
      var st := WaiterGoesOn(env, n, cap, s);
    } else if MainIdle(s) && s.main.Trying? && s.sent == n + 1 && !s.done {
      JoinedIsServed(env, n, cap, s);
      var st := WaiterGoesOn(env, n, cap, s);
    } else {
      var st := MainGoesOn(env, n, cap, s);
    }
  }

  // ---- Always comes to an end ----

  function ProducerWork(th: Thread<Token>): nat {
    match th
    case PutReady(_) => 2
    case PutAsleep(_) => 1
    case PutWoken(_) => 2
    case OwesNotEmpty => 2
    case _ => 0
  }

  function WaiterWork(s: Test): nat
    requires |s.queue.threads| == 2
  {
    match s.queue.threads[WAITER]
    case GetReady(_) => 2
    case GetAsleep(_) => 1
    case GetWoken(_) => 2
    case OwesNotFull => 6
    case _ => if s.done then 0 else if |s.queue.gets| == s.handled then 3 else 4
  }

  function MainWork(s: Test): nat {
    (if s.refused then 0 else 1) + match s.main case Trying => 2 case Reporting => 1 case Catching => 1 case _ => 0
  }

  // How much is left to do.
  function Measure(n: nat, s: Test): int
    requires |s.queue.threads| == 2
  {
    2 * (n - s.published) + 3 * (n + 2 - Begun(s)) + (n + 2 - |s.queue.puts|) + 6 * (n + 1 - |s.queue.gets|)
    + (n - |s.completed|) + ProducerWork(s.queue.threads[PRODUCER]) + WaiterWork(s) + MainWork(s)
  }

  lemma CompletedBounded(s: set<nat>, n: nat)
    requires forall k :: k in s ==> k < n
    ensures |s| <= n
  {
    if n > 0 {
      CompletedBounded(s - {n - 1}, n - 1);
    } else {
      assert s == {};
    }
  }

  ghost predicate Progress(env: Env, n: nat, s: Test, st: Step)
    requires CanStep(env, n, s, st)
  {
    var s' := Take(env, n, s, st);
    |s.queue.threads| == 2 == |s'.queue.threads| && Measure(n, s') < Measure(n, s)
  }

  lemma PutPassWork(q: QueueThreads.State<Token>)
    requires Enabled(q, Pass(PRODUCER)) && |q.threads| == 2 && Putting(q.threads[PRODUCER])
    ensures var q' := Apply(q, Pass(PRODUCER));
      && |q'.threads| == 2 && q'.threads[WAITER] == q.threads[WAITER] && q'.gets == q.gets
      && |q.puts| <= |q'.puts| <= |q.puts| + 1
      && ProducerWork(q'.threads[PRODUCER]) < ProducerWork(q.threads[PRODUCER]) + |q'.puts| - |q.puts|
  {
  }

  lemma PutPassMakesProgress(env: Env, n: nat, s: Test)
    requires |s.queue.threads| == 2 && CanStep(env, n, s, InQueue(Pass(PRODUCER))) && Putting(s.queue.threads[PRODUCER])
    ensures Progress(env, n, s, InQueue(Pass(PRODUCER)))
  {
    PutPassWork(s.queue);
  }

  lemma GetPassMakesProgress(env: Env, n: nat, cap: nat, s: Test)
    requires Inv(env, n, cap, s) && CanStep(env, n, s, InQueue(Pass(WAITER)))
    ensures Progress(env, n, s, InQueue(Pass(WAITER)))
  {
  }

  lemma MainNotifyMakesProgress(env: Env, n: nat, cap: nat, s: Test, woken: Option<nat>)
    requires Inv(env, n, cap, s) && CanStep(env, n, s, InQueue(Notify(PRODUCER, woken)))
    ensures Progress(env, n, s, InQueue(Notify(PRODUCER, woken)))
  {
  }

  lemma WaiterNotifyMakesProgress(env: Env, n: nat, cap: nat, s: Test, woken: Option<nat>)
    requires Inv(env, n, cap, s) && CanStep(env, n, s, InQueue(Notify(WAITER, woken)))
    ensures Progress(env, n, s, InQueue(Notify(WAITER, woken)))
  {
  }

  lemma CallMakesProgress(env: Env, n: nat, cap: nat, s: Test, e: Event<Token>)
    requires Inv(env, n, cap, s) && CanStep(env, n, s, InQueue(e)) && (e.CallPut? || e.CallGet?)
    ensures Progress(env, n, s, InQueue(e))
  {
  }

  lemma CompletionMakesProgress(env: Env, n: nat, s: Test, k: nat, ok: bool)
    requires |s.queue.threads| == 2 && CanStep(env, n, s, Complete(k, ok))
    ensures Progress(env, n, s, Complete(k, ok))
  {
    assert |s.completed + {k}| == |s.completed| + 1;
  }

  lemma OutsideMakesProgress(env: Env, n: nat, s: Test, st: Step)
    requires |s.queue.threads| == 2 && CanStep(env, n, s, st) && !st.InQueue? && !st.Complete?
    ensures Progress(env, n, s, st)
  {
  }

  lemma MeasureFalls(env: Env, n: nat, cap: nat, s: Test, st: Step)
    requires Inv(env, n, cap, s) && CanStep(env, n, s, st) && !Spurious(st)
    ensures Progress(env, n, s, st)
  {
    match st
    case InQueue(Pass(t)) =>
      if t == PRODUCER { PutPassMakesProgress(env, n, s); } else { GetPassMakesProgress(env, n, cap, s); }
    case InQueue(Notify(t, woken)) =>
      if t == PRODUCER { MainNotifyMakesProgress(env, n, cap, s, woken); }
      else { WaiterNotifyMakesProgress(env, n, cap, s, woken); }
    case InQueue(e) => CallMakesProgress(env, n, cap, s, e);
    case Complete(k, ok) => CompletionMakesProgress(env, n, s, k, ok);
    case _ => OutsideMakesProgress(env, n, s, st);
  }

  lemma MeasureNonNegative(env: Env, n: nat, cap: nat, s: Test)
    requires Inv(env, n, cap, s)
    ensures Measure(n, s) >= 0
  {
    TakenInOrder(n, s);
    CompletedBounded(s.completed, n);
  }

  // ---- Whole runs ----

  predicate Runs(env: Env, n: nat, s: Test, sts: seq<Step>)
    decreases |sts|
  {
    sts != [] ==> CanStep(env, n, s, sts[0]) && Runs(env, n, Take(env, n, s, sts[0]), sts[1..])
  }

  function After(env: Env, n: nat, s: Test, sts: seq<Step>): Test
    requires Runs(env, n, s, sts)
    decreases |sts|
  {
    if sts == [] then s else After(env, n, Take(env, n, s, sts[0]), sts[1..])
  }

  predicate NoneSpurious(sts: seq<Step>) {
    forall i :: 0 <= i < |sts| ==> !Spurious(sts[i])
  }

  lemma {:induction false} RunsKeepInv(env: Env, n: nat, cap: nat, s: Test, sts: seq<Step>)
    requires Inv(env, n, cap, s) && Runs(env, n, s, sts)
    ensures Inv(env, n, cap, After(env, n, s, sts))
    decreases |sts|
  {
    if sts != [] {
      StepKeepsInv(env, n, cap, s, sts[0]);
      RunsKeepInv(env, n, cap, Take(env, n, s, sts[0]), sts[1..]);
    }
  }

  lemma {:induction false} RunsAreShort(env: Env, n: nat, cap: nat, s: Test, sts: seq<Step>)
    requires Inv(env, n, cap, s) && Runs(env, n, s, sts) && NoneSpurious(sts)
    ensures |sts| <= Measure(n, s)
    decreases |sts|
  {
    if sts == [] {
      MeasureNonNegative(env, n, cap, s);
    } else {
      StepKeepsInv(env, n, cap, s, sts[0]);
      MeasureFalls(env, n, cap, s, sts[0]);
      RunsAreShort(env, n, cap, Take(env, n, s, sts[0]), sts[1..]);
    }
  }

  // Whatever goes wrong, there is a bound on the length of every run without spurious wake-ups.
  lemma EndsInTime(env: Env, n: nat, cap: nat, sts: seq<Step>)
    requires cap >= 1 && Runs(env, n, Begin(cap), sts) && NoneSpurious(sts)
    ensures |sts| <= 13 * n + 20
  {
    RunsAreShort(env, n, cap, Begin(cap), sts);
  }

  // A run that has come to its end without an exception: the waiting thread has taken exactly the
  // published tokens, in order, and then the null one, and every token has completed.  After an
  // exception it has taken the tokens up to the one whose completion failed.
  lemma EndsWithAllTokensInOrder(env: Env, n: nat, cap: nat, sts: seq<Step>)
    requires cap >= 1 && Runs(env, n, Begin(cap), sts) && Finished(After(env, n, Begin(cap), sts))
    ensures var s := After(env, n, Begin(cap), sts);
      var k := |s.queue.gets|;
      && 1 <= k <= n + 1 && s.queue.gets == Items(n)[..k]
      && (!s.threw ==> k == n + 1 && s.queue.q.que == [] && forall i: nat :: i in s.completed - s.failed <==> i < n)
      && (s.threw ==> k <= n && k - 1 in s.failed && forall i :: 0 <= i < k - 1 ==> i in s.completed - s.failed)
      && (s.refused ==> s.threw)
  {
    var s := After(env, n, Begin(cap), sts);
    RunsKeepInv(env, n, cap, Begin(cap), sts);
    TakenInOrder(n, s);
  }
}
