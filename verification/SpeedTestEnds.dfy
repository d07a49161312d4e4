/**
 When does the program of samples/pub_speed_test.cpp come to its end?  Always, unless the library
 refuses a message: then the destructor of the future waits for the waiting thread, which waits for
 a null token that only the handler would put.  With a bounded queue a failed message can do the
 same, since nobody takes anything after it.  And publishing must have taken a millisecond.
 */
module SpeedTestEnds {
  import opened Common
  import opened ThreadQueue
  import Q = QueueThreads
  import opened SpeedTest

  lemma {:induction false} RunsAppend(env: Env, n: nat, s: Test, sts: seq<Step>, st: Step)
    requires Runs(env, n, s, sts) && CanStep(env, n, After(env, n, s, sts), st)
    ensures Runs(env, n, s, sts + [st])
    ensures After(env, n, s, sts + [st]) == Take(env, n, After(env, n, s, sts), st)
    decreases |sts|
  {
    if sts != [] {
      RunsAppend(env, n, Take(env, n, s, sts[0]), sts[1..], st);
      assert (sts + [st])[1..] == sts[1..] + [st];
    }
  }

  ghost function Left(env: Env, n: nat, cap: nat, s: Test): nat {
    if Inv(env, n, cap, s) && Measure(n, s) >= 0 then Measure(n, s) else 0
  }

  lemma OneStepLeft(env: Env, n: nat, cap: nat, s: Test) returns (st: Step)
    requires Inv(env, n, cap, s) && CanProceed(env, n, s)
    ensures CanStep(env, n, s, st) && Left(env, n, cap, Take(env, n, s, st)) < Left(env, n, cap, s)
  {
    st :| CanStep(env, n, s, st) && !Spurious(st);
    StepKeepsInv(env, n, cap, s, st);
    MeasureFalls(env, n, cap, s, st);
    MeasureNonNegative(env, n, cap, Take(env, n, s, st));
  }

  // Every run can be continued until nothing but spurious wake-ups is left.
  lemma {:induction false} RunsOut(env: Env, n: nat, cap: nat, sts: seq<Step>) returns (all: seq<Step>)
    requires cap >= 1 && Runs(env, n, Begin(cap), sts)
    ensures sts <= all && Runs(env, n, Begin(cap), all) && !CanProceed(env, n, After(env, n, Begin(cap), all))
    decreases Left(env, n, cap, After(env, n, Begin(cap), sts))
  {
    RunsKeepInv(env, n, cap, Begin(cap), sts);
    all := sts;
    if CanProceed(env, n, After(env, n, Begin(cap), sts)) {
      var st := OneStepLeft(env, n, cap, After(env, n, Begin(cap), sts));
      RunsAppend(env, n, Begin(cap), sts, st);
      all := RunsOut(env, n, cap, sts + [st]);
    }
  }

  // A refused publish: the handler waits for a thread that waits for the handler.
  ghost predicate Hangs(s: Test) {
    s.refused && !s.threw && !s.done && s.main.Trying?
  }

  lemma StepKeepsHanging(env: Env, n: nat, cap: nat, s: Test, st: Step)
    requires Inv(env, n, cap, s) && Hangs(s) && !env.fails && CanStep(env, n, s, st)
    ensures Hangs(Take(env, n, s, st))
  {
    TakenInOrder(n, s);
  }

  // If no message fails, a run in which a publish has been refused never comes to its end, however
  // it goes on.
  lemma {:induction false} RefusalHangs(env: Env, n: nat, cap: nat, s: Test, sts: seq<Step>)
    requires Inv(env, n, cap, s) && Hangs(s) && !env.fails && Runs(env, n, s, sts)
    ensures !Finished(After(env, n, s, sts))
    decreases |sts|
  {
    if sts != [] {
      StepKeepsHanging(env, n, cap, s, sts[0]);
      StepKeepsInv(env, n, cap, s, sts[0]);
      RefusalHangs(env, n, cap, Take(env, n, s, sts[0]), sts[1..]);
    }
  }

  // The run in which the first publish is refused.
  lemma RefusedAtOnce(env: Env, n: nat, cap: nat) returns (sts: seq<Step>)
    requires env.refuses && n > 0 && cap >= 1
    ensures Runs(env, n, Begin(cap), sts)
    ensures var s := After(env, n, Begin(cap), sts); s.refused && s.sent == 0 && !s.done && s.main.Trying?
  {
    var s := Begin(cap);
    assert CanStep(env, n, s, Refuse);
    var rest: seq<Step> := [];
    assert Runs(env, n, Take(env, n, s, Refuse), rest);
    sts := [Refuse];
    assert sts[1..] == rest;
  }

  // With nothing in the queue and nothing to be put there, the waiting thread never ends.
  lemma {:induction false} NothingToTake(env: Env, n: nat, cap: nat, s: Test, sts: seq<Step>)
    requires Inv(env, n, cap, s) && s.refused && s.sent == 0 && !s.done && s.main.Trying? && Runs(env, n, s, sts)
    ensures !Finished(After(env, n, s, sts))
    decreases |sts|
  {
    if sts != [] {
      StepKeepsInv(env, n, cap, s, sts[0]);
      NothingToTake(env, n, cap, Take(env, n, s, sts[0]), sts[1..]);
    }
  }

  // An exception at the first token, with too many puts to come for the capacity.
  ghost predicate Overfull(n: nat, cap: nat, s: Test) {
    s.threw && |s.queue.gets| == 1 && !s.refused && n >= cap
  }

  lemma {:induction false} OverfullNeverEnds(env: Env, n: nat, cap: nat, s: Test, sts: seq<Step>)
    requires Inv(env, n, cap, s) && Overfull(n, cap, s) && !env.refuses && Runs(env, n, s, sts)
    ensures !Finished(After(env, n, s, sts))
    decreases |sts|
  {
    if sts != [] {
      StepKeepsInv(env, n, cap, s, sts[0]);
      OverfullNeverEnds(env, n, cap, Take(env, n, s, sts[0]), sts[1..]);
    } else {
      assert s.queue.q.cap == cap;
    }
  }

  // ---- A first token that fails ----

  // The first message is published and its token put and taken.
  lemma FirstTaken(env: Env, n: nat, cap: nat) returns (sts: seq<Step>, s: Test)
    requires n > 0 && cap >= 1
    ensures Runs(env, n, Begin(cap), sts) && After(env, n, Begin(cap), sts) == s
    ensures s.published == 1 && s.main.Trying? && !s.refused && !s.done && s.handled == 0
    ensures s.completed == {} && s.failed == {} && s.queue.gets == [Some(0)] && Holding(s)
  {
    sts, s := FirstPut(env, n, cap);
    sts, s := GoOn(env, n, cap, sts, s, InQueue(Q.CallGet(WAITER, false)));
    sts, s := GoOn(env, n, cap, sts, s, InQueue(Q.Pass(WAITER)));
    if s.queue.threads[WAITER].OwesNotFull? {
      sts, s := GoOn(env, n, cap, sts, s, InQueue(Q.Notify(WAITER, None)));
    }
  }

  lemma GoOn(env: Env, n: nat, cap: nat, sts: seq<Step>, s: Test, st: Step) returns (sts': seq<Step>, s': Test)
    requires Runs(env, n, Begin(cap), sts) && After(env, n, Begin(cap), sts) == s && CanStep(env, n, s, st)
    ensures s' == Take(env, n, s, st) && Runs(env, n, Begin(cap), sts') && After(env, n, Begin(cap), sts') == s'
  {
    RunsAppend(env, n, Begin(cap), sts, st);
    sts', s' := sts + [st], Take(env, n, s, st);
  }

  lemma FirstCall(env: Env, n: nat, cap: nat) returns (sts: seq<Step>, s: Test)
    requires n > 0 && cap >= 1
    ensures Runs(env, n, Begin(cap), sts) && After(env, n, Begin(cap), sts) == s
    ensures s == Begin(cap).(published := 1, sent := 1, queue := s.queue)
    ensures s.queue == Q.Start(cap, 2).(threads := [Q.PutReady(Some(0)), Q.Idle])
  {
    sts, s := [], Begin(cap);
    sts, s := GoOn(env, n, cap, sts, s, Publish);
    sts, s := GoOn(env, n, cap, sts, s, InQueue(Q.CallPut(PRODUCER, Some(0))));
    assert s.queue.threads == [Q.PutReady(Some(0)), Q.Idle];
  }

  lemma FirstPut(env: Env, n: nat, cap: nat) returns (sts: seq<Step>, s: Test)
    requires n > 0 && cap >= 1
    ensures Runs(env, n, Begin(cap), sts) && After(env, n, Begin(cap), sts) == s
    ensures s.published == 1 && s.main.Trying? && !s.refused && !s.done && s.handled == 0
    ensures s.completed == {} && s.failed == {} && s.queue.gets == [] && s.queue.q == Guarded([Some(0)], cap)
    ensures s.queue.threads == [Q.Idle, Q.Idle]
  {
    sts, s := FirstCall(env, n, cap);
    sts, s := GoOn(env, n, cap, sts, s, InQueue(Q.Pass(PRODUCER)));
    sts, s := GoOn(env, n, cap, sts, s, InQueue(Q.Notify(PRODUCER, None)));
  }

  // Its completion fails, and the waiting thread ends.
  lemma FirstFails(env: Env, n: nat, cap: nat) returns (sts: seq<Step>)
    requires env.fails && n > 0 && cap >= 1
    ensures Runs(env, n, Begin(cap), sts)
    ensures var s := After(env, n, Begin(cap), sts); s.threw && |s.queue.gets| == 1 && !s.refused
  {
    var s;
    sts, s := FirstTaken(env, n, cap);
    sts, s := GoOn(env, n, cap, sts, s, Complete(0, false));
    sts, s := GoOn(env, n, cap, sts, s, WaitThrows);
  }

  // ---- The exact condition ----

  // Every run that cannot go on has come to its end.
  ghost predicate AlwaysFinishes(env: Env, n: nat, cap: nat) {
    forall sts | Runs(env, n, Begin(cap), sts) && !CanProceed(env, n, After(env, n, Begin(cap), sts)) ::
      Finished(After(env, n, Begin(cap), sts))
  }

  lemma {:induction false} RunsConcat(env: Env, n: nat, s: Test, sts: seq<Step>, more: seq<Step>)
    requires Runs(env, n, s, sts + more)
    ensures Runs(env, n, s, sts) && Runs(env, n, After(env, n, s, sts), more)
    ensures After(env, n, s, sts + more) == After(env, n, After(env, n, s, sts), more)
    decreases |sts|
  {
    if sts == [] {
      assert sts + more == more;
    } else {
      assert (sts + more)[1..] == sts[1..] + more;
      RunsConcat(env, n, Take(env, n, s, sts[0]), sts[1..], more);
    }
  }

  // A run after which the program cannot end any more disproves that it always finishes.
  lemma Disproves(env: Env, n: nat, cap: nat, sts: seq<Step>)
    requires cap >= 1 && Runs(env, n, Begin(cap), sts)
    requires forall more :: Runs(env, n, After(env, n, Begin(cap), sts), more) ==>
      !Finished(After(env, n, After(env, n, Begin(cap), sts), more))
    ensures !AlwaysFinishes(env, n, cap)
  {
    var all := RunsOut(env, n, cap, sts);
    var more := all[|sts|..];
    assert all == sts + more;
    RunsConcat(env, n, Begin(cap), sts, more);
  }

  lemma RefusalDisproves(env: Env, n: nat, cap: nat)
    requires cap >= 1 && n > 0 && env.refuses
    ensures !AlwaysFinishes(env, n, cap)
  {
    var sts := RefusedAtOnce(env, n, cap);
    var s := After(env, n, Begin(cap), sts);
    RunsKeepInv(env, n, cap, Begin(cap), sts);
    forall more | Runs(env, n, s, more) ensures !Finished(After(env, n, s, more)) {
      NothingToTake(env, n, cap, s, more);
    }
    Disproves(env, n, cap, sts);
  }

  lemma FailureDisproves(env: Env, n: nat, cap: nat)
    requires cap >= 1 && n >= cap && env.fails && !env.refuses
    ensures !AlwaysFinishes(env, n, cap)
  {
    var sts := FirstFails(env, n, cap);
    var s := After(env, n, Begin(cap), sts);
    RunsKeepInv(env, n, cap, Begin(cap), sts);
    forall more | Runs(env, n, s, more) ensures !Finished(After(env, n, s, more)) {
      OverfullNeverEnds(env, n, cap, s, more);
    }
    Disproves(env, n, cap, sts);
  }

  // ---- A division by zero ----

  lemma {:induction false} KilledForEver(env: Env, n: nat, cap: nat, s: Test, sts: seq<Step>)
    requires Inv(env, n, cap, s) && s.main.Killed? && Runs(env, n, s, sts)
    ensures !Finished(After(env, n, s, sts))
    decreases |sts|
  {
    if sts != [] {
      StepKeepsInv(env, n, cap, s, sts[0]);
      KilledForEver(env, n, cap, Take(env, n, s, sts[0]), sts[1..]);
    }
  }

  // What is possible when nothing goes wrong is possible anyway.
  lemma {:induction false} FineRunIsRun(env: Env, n: nat, s: Test, sts: seq<Step>)
    requires Runs(Env(false, false, false), n, s, sts)
    ensures Runs(env, n, s, sts) && After(env, n, s, sts) == After(Env(false, false, false), n, s, sts)
    decreases |sts|
  {
    if sts != [] {
      FineRunIsRun(env, n, Take(env, n, s, sts[0]), sts[1..]);
    }
  }

  lemma FineStep(n: nat, cap: nat, s: Test) returns (st: Step)
    requires Inv(Env(false, false, false), n, cap, s) && s.main.Trying?
    ensures CanStep(Env(false, false, false), n, s, st)
    ensures var s' := Take(Env(false, false, false), n, s, st);
      && (s'.main.Trying? || s'.main.Reporting?)
      && Left(Env(false, false, false), n, cap, s') < Left(Env(false, false, false), n, cap, s)
  {
    NeverStuck(Env(false, false, false), n, cap, s);
    st := OneStepLeft(Env(false, false, false), n, cap, s);
  }

  // When nothing goes wrong the program comes to print the rates.
  lemma {:induction false} ComesToReport(n: nat, cap: nat, sts: seq<Step>) returns (all: seq<Step>)
    requires cap >= 1 && Runs(Env(false, false, false), n, Begin(cap), sts)
    requires var s := After(Env(false, false, false), n, Begin(cap), sts); s.main.Trying? || s.main.Reporting?
    ensures Runs(Env(false, false, false), n, Begin(cap), all)
    ensures After(Env(false, false, false), n, Begin(cap), all).main.Reporting?
    decreases Left(Env(false, false, false), n, cap, After(Env(false, false, false), n, Begin(cap), sts))
  {
    var env := Env(false, false, false);
    RunsKeepInv(env, n, cap, Begin(cap), sts);
    all := sts;
    if After(env, n, Begin(cap), sts).main.Trying? {
      var st := FineStep(n, cap, After(env, n, Begin(cap), sts));
      RunsAppend(env, n, Begin(cap), sts, st);
      all := ComesToReport(n, cap, sts + [st]);
    }
  }

  lemma KilledRun(env: Env, n: nat, cap: nat) returns (sts: seq<Step>)
    requires cap >= 1 && env.instant
    ensures Runs(env, n, Begin(cap), sts) && After(env, n, Begin(cap), sts).main.Killed?
  {
    sts := ComesToReport(n, cap, []);
    FineRunIsRun(env, n, Begin(cap), sts);
    RunsKeepInv(env, n, cap, Begin(cap), sts);
    var s;
    sts, s := GoOn(env, n, cap, sts, After(env, n, Begin(cap), sts), Report(0));
  }

  lemma InstantDisproves(env: Env, n: nat, cap: nat)
    requires cap >= 1 && env.instant
    ensures !AlwaysFinishes(env, n, cap)
  {
    var sts := KilledRun(env, n, cap);
    var s := After(env, n, Begin(cap), sts);
    RunsKeepInv(env, n, cap, Begin(cap), sts);
    forall more | Runs(env, n, s, more) ensures !Finished(After(env, n, s, more)) {
      KilledForEver(env, n, cap, s, more);
    }
    Disproves(env, n, cap, sts);
  }

  predicate AllGoesWell(env: Env, n: nat, cap: nat) {
    !env.instant && (n == 0 || (!env.refuses && (!env.fails || n < cap)))
  }

  lemma OtherwiseFinishes(env: Env, n: nat, cap: nat, sts: seq<Step>)
    requires cap >= 1 && AllGoesWell(env, n, cap)
    requires Runs(env, n, Begin(cap), sts) && !CanProceed(env, n, After(env, n, Begin(cap), sts))
    ensures Finished(After(env, n, Begin(cap), sts))
  {
    RunsKeepInv(env, n, cap, Begin(cap), sts);
    var s := After(env, n, Begin(cap), sts);
    if !Finished(s) {
      NeverStuck(env, n, cap, s);
    }
  }

  // The program always comes to its end if and only if publishing takes a millisecond, and nothing is
  // published, or no publish is refused and, if a message can fail, the queue has room for all that
  // is put but the first token.  The queue of the program is unbounded, so for it: if and only if
  // publishing takes a millisecond and no publish is refused.
  lemma FinishesExactly(env: Env, n: nat, cap: nat)
    requires cap >= 1
    ensures AlwaysFinishes(env, n, cap)
       <==> !env.instant && (n == 0 || (!env.refuses && (!env.fails || n < cap)))
  {
    if AllGoesWell(env, n, cap) {
      forall sts | Runs(env, n, Begin(cap), sts) && !CanProceed(env, n, After(env, n, Begin(cap), sts))
        ensures Finished(After(env, n, Begin(cap), sts))
      {
        OtherwiseFinishes(env, n, cap, sts);
      }
    } else if env.instant {
      InstantDisproves(env, n, cap);
    } else if env.refuses {
      RefusalDisproves(env, n, cap);
    } else {
      FailureDisproves(env, n, cap);
    }
  }
}
