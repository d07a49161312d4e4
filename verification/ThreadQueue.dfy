/**
 The blocking queue of mqtt/thread_queue.h, one critical section at a time.

 `std::condition_variable::wait(g, pred)` tests `pred` with the mutex held, and either goes on
 or gives the mutex up and sleeps.  `PutPass` and `GetPass` are what one such pass through
 put() or get() does to the data behind `lock_`; the class performs the passes in place, and
 the module `QueueThreads` interleaves them between threads.
 */
module ThreadQueue {
  import opened Common

  // std::numeric_limits<size_t>::max()
  const MAX_CAPACITY: nat := 0xFFFF_FFFF_FFFF_FFFF

  // The data protected by lock_.
  datatype Guarded<T> = Guarded(que: seq<T>, cap: nat)

  // cap_-1 in unsigned arithmetic: it wraps when the capacity is zero.
  function CapMinusOne(cap: nat): nat {
    if cap == 0 then MAX_CAPACITY else cap - 1
  }

  datatype PutResult<T> = MustWait | Accepted(after: Guarded<T>, notify: bool)

  function PutPass<T>(q: Guarded<T>, val: T): PutResult<T> {
    if |q.que| >= q.cap then MustWait
    else Accepted(q.(que := q.que + [val]), q.que == [])
  }

  datatype GetResult<T> = NothingThere | Removed(after: Guarded<T>, val: T, notify: bool)

  function GetPass<T>(q: Guarded<T>): GetResult<T> {
    if q.que == [] then NothingThere
    else Removed(q.(que := q.que[1..]), q.que[0], |q.que| - 1 == CapMinusOne(q.cap))
  }

  class ThreadQueue<T> {
    var que: seq<T>
    var cap: nat

    function State(): Guarded<T>
      reads this
    {
      Guarded(que, cap)
    }

    // Every length and capacity fits in size_type.
    ghost predicate Valid()
      reads this
    {
      cap <= MAX_CAPACITY && |que| <= MAX_CAPACITY
    }

    constructor Unbounded()
      ensures Valid() && que == [] && cap == MAX_CAPACITY
    {
      que, cap := [], MAX_CAPACITY;
    }

    constructor (cap: nat)
      requires cap <= MAX_CAPACITY
      ensures Valid() && que == []
      ensures this.cap >= 1 && this.cap >= cap && this.cap in {cap, 1}
    {
      this.que := [];
      this.cap := if cap < 1 then 1 else cap;
    }

    // The queue keeps its items even when they are more than the new capacity.
    method SetCapacity(cap: nat)
      requires Valid() && cap <= MAX_CAPACITY
      modifies this
      ensures Valid() && this.cap == cap && que == old(que)
    {
      this.cap := cap;
    }

    method Size() returns (n: nat)
      requires Valid()
      ensures n == |que|
    {
      n := |que|;
    }

    // One pass of put(): `waits` when the caller goes (back) to sleep on notFullCond_,
    // `notify` when it must call notEmptyCond_.notify_one() after releasing the lock.
    method Put(val: T) returns (waits: bool, notify: bool)
      requires Valid()
      modifies this
      ensures Valid() && cap == old(cap)
      ensures waits == (|old(que)| >= cap)
      ensures que == if waits then old(que) else old(que) + [val]
      ensures notify == (!waits && old(que) == [])
      ensures PutPass(old(State()), val) == if waits then MustWait else Accepted(State(), notify)
    {
      waits, notify := |que| >= cap, false;
      if !waits {
        var wasEmpty := que == [];
        que := que + [val];
        notify := wasEmpty;
      }
    }

    method TryPut(val: T) returns (ok: bool, notify: bool)
      requires Valid()
      modifies this
      ensures Valid() && cap == old(cap)
      ensures ok == (|old(que)| < cap)
      ensures que == if ok then old(que) + [val] else old(que)
      ensures notify == (ok && old(que) == [])
      ensures PutPass(old(State()), val) == if ok then Accepted(State(), notify) else MustWait
    {
      var n := |que|;
      if n >= cap {
        return false, false;
      }
      que := que + [val];
      return true, n == 0;
    }

    // One pass of get(), and equally of try_get(), try_get_for() and try_get_until(): what
    // they do when the queue is empty is the caller's affair.
    method Get() returns (val: Option<T>, notify: bool)
      requires Valid()
      modifies this
      ensures Valid() && cap == old(cap)
      ensures old(que) == [] ==> val == None && que == [] && !notify
      ensures old(que) != [] ==> val == Some(old(que)[0]) && que == old(que)[1..]
      ensures old(que) != [] ==> notify == (|que| == CapMinusOne(cap))
      ensures GetPass(old(State())) == if val == None then NothingThere else Removed(State(), val.value, notify)
    {
      if que == [] {
        return None, false;
      }
      val := Some(que[0]);
      que := que[1..];
      notify := |que| == CapMinusOne(cap);
    }
  }
}
