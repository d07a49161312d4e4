/**
 The C callbacks of iclient_persistence.cpp over the in-memory store.  Each is proved to act as one
 call on a plain map; the lemmas say what a sequence of such calls gives back.
 */
module PersistenceCalls {
  import opened Common
  import opened StringCollections
  import opened Persistence

  datatype Code = Success | PersistenceError

  // A missing pointer is None or false.  The key of a put is not looked at by the callback, so it must be there.
  datatype Call =
    | Open(handle: bool, clientId: bool, serverUri: bool)
    | Close
    | Put(key: CString, bufcount: int, buffers: Option<seq<string>>, buflens: Option<seq<int>>)
    | Get(sought: Option<CString>, buffer: bool, buflen: bool)
    | Remove(removed: Option<CString>)
    | Keys(keys: bool, nkeys: bool)
    | Clear
    | ContainsKey(asked: Option<CString>)

  datatype Reply = Failed | Done | Data(text: string) | KeyList(keys: seq<string>)

  // The arrays that come with a put have bufcount entries, and each length fits its buffer.
  predicate Sized(bufcount: int, buffers: Option<seq<string>>, buflens: Option<seq<int>>) {
    buffers.Some? && buflens.Some? ==>
      && bufcount <= |buffers.value| && bufcount <= |buflens.value|
      && forall i :: 0 <= i < bufcount ==> 0 <= buflens.value[i] <= |buffers.value[i]|
  }

  predicate ProperCall(call: Call) {
    call.Put? ==> Sized(call.bufcount, call.buffers, call.buflens)
  }

  predicate Accepted(bufcount: int, buffers: Option<seq<string>>, buflens: Option<seq<int>>) {
    bufcount > 0 && buffers.Some? && buflens.Some?
  }

  // The pieces of memory that a put is given.
  function Pieces(bufcount: int, buffers: Option<seq<string>>, buflens: Option<seq<int>>): (pieces: seq<string>)
    requires Accepted(bufcount, buffers, buflens) && Sized(bufcount, buffers, buflens)
  {
    seq(bufcount, i requires 0 <= i < bufcount => buffers.value[i][..buflens.value[i]])
  }

  // ---- One call on a plain map ----

  function After(m: map<CString, string>, call: Call): map<CString, string>
    requires ProperCall(call)
  {
    match call
    case Put(key, n, buffers, lens) =>
      if Accepted(n, buffers, lens) then m[key := Concat(Pieces(n, buffers, lens))] else m
    case Remove(Some(key)) => m - {key}
    case Clear => map[]
    case _ => m
  }

  ghost predicate Answers(m: map<CString, string>, call: Call, reply: Reply) {
    match call
    case Open(handle, clientId, serverUri) => reply == if handle && clientId && serverUri then Done else Failed
    case Close => reply == Done
    case Put(_, n, buffers, lens) => reply == if Accepted(n, buffers, lens) then Done else Failed
    case Get(key, buffer, buflen) =>
      reply == if key.Some? && buffer && buflen && key.value in m then Data(m[key.value]) else Failed
    case Remove(key) => reply == if key.Some? && key.value in m then Done else Failed
    case Keys(keys, nkeys) =>
      if keys && nkeys then reply.KeyList? && Lists(reply.keys, m.Keys) else reply == Failed
    case Clear => reply == Done
    case ContainsKey(key) => reply == if key.Some? && key.value in m then Done else Failed
  }

  function Bare(rc: Code): Reply {
    if rc == Success then Done else Failed
  }

  function CTexts(cells: seq<Chars>): seq<string> {
    seq(|cells|, i requires 0 <= i < |cells| => CText(cells[i].text))
  }

  // (int) of a size_t: 32 bits, in two's complement.
  function ToInt(size: nat): int {
    (size + 0x8000_0000) % 0x1_0000_0000 - 0x8000_0000
  }

  // What the size and the number have in common, and the numbers that there are.
  lemma ToIntWraps(size: nat)
    ensures -0x8000_0000 <= ToInt(size) < 0x8000_0000
    ensures exists k: int :: size == ToInt(size) + k * 0x1_0000_0000
  {
    var k := (size + 0x8000_0000) / 0x1_0000_0000;
    assert size == ToInt(size) + k * 0x1_0000_0000;
  }

  // ---- The callbacks ----

  // The result is what the callback leaves in *handle.
  method PersistenceOpen(handle: bool, clientId: bool, serverUri: bool, context: MemPersistence?)
    returns (rc: Code, result: MemPersistence?)
    modifies if context == null then {} else {context}
    ensures rc == Success <==> handle && clientId && serverUri && context != null
    ensures context != null ==>
      && context.store == old(context.store) && context.open == (old(context.open) || rc == Success)
      && Answers(context.store, Call.Open(handle, clientId, serverUri), Bare(rc))
    ensures result == if rc == Success then context else null
  {
    if handle && clientId && serverUri && context != null {
      context.Open();
      return Success, context;
    }
    return PersistenceError, null;
  }

  method PersistenceClose(handle: MemPersistence?) returns (rc: Code)
    modifies if handle == null then {} else {handle}
    ensures rc == Success <==> handle != null
    ensures handle != null ==>
      && handle.store == old(handle.store) && !handle.open && Answers(handle.store, Call.Close, Bare(rc))
  {
    if handle != null {
      handle.Close();
      return Success;
    }
    return PersistenceError;
  }

  method PersistencePut(handle: MemPersistence?, key: CString, bufcount: int,
                        buffers: Option<seq<string>>, buflens: Option<seq<int>>)
    returns (rc: Code)
    requires Sized(bufcount, buffers, buflens)
    modifies if handle == null then {} else {handle}
    ensures rc == Success <==> handle != null && bufcount > 0 && buffers.Some? && buflens.Some?
    ensures handle != null ==>
      var call := Call.Put(key, bufcount, buffers, buflens);
      && handle.store == After(old(handle.store), call) && handle.open == old(handle.open)
      && Answers(old(handle.store), call, Bare(rc))
  {
    if handle != null && bufcount > 0 && buffers.Some? && buflens.Some? {
      var vec: seq<string> := [];
      for i := 0 to bufcount
        invariant vec == Pieces(bufcount, buffers, buflens)[..i]
      {
        vec := vec + [buffers.value[i][..buflens.value[i]]];
      }
      assert vec == Pieces(bufcount, buffers, buflens);
      handle.Put(key, vec);
      return Success;
    }
    return PersistenceError;
  }

  method PersistenceGet(handle: MemPersistence?, key: Option<CString>, buffer: bool, buflen: bool)
    returns (rc: Code, data: string, length: int)
    ensures rc == Success <==> handle != null && key.Some? && buffer && buflen && key.value in handle.store
    ensures rc == Success ==> length == ToInt(|data|) && (length == |data| <==> |data| < 0x8000_0000)
    ensures handle != null ==>
      Answers(handle.store, Call.Get(key, buffer, buflen), if rc == Success then Data(data) else Failed)
  {
    if handle != null && key.Some? && buffer && buflen {
      var sv := handle.Get(key.value);
      if sv.Some? {
        return Success, sv.value, ToInt(|sv.value|);
      }
    }
    return PersistenceError, "", 0;
  }

  method PersistenceRemove(handle: MemPersistence?, key: Option<CString>) returns (rc: Code)
    modifies if handle == null then {} else {handle}
    ensures rc == Success <==> handle != null && key.Some? && key.value in old(handle.store)
    ensures handle != null ==>
      && handle.store == After(old(handle.store), Call.Remove(key)) && handle.open == old(handle.open)
      && Answers(old(handle.store), Call.Remove(key), Bare(rc))
  {
    if handle != null && key.Some? {
      var found := handle.Remove(key.value);
      if found {
        return Success;
      }
    }
    return PersistenceError;
  }

  // What C reads through the array is the listing of the keys; no array comes with an empty store.
  method PersistenceKeys(handle: MemPersistence?, wantsKeys: bool, wantsCount: bool)
    returns (rc: Code, keys: Option<seq<Chars>>, nkeys: nat)
    modifies if handle == null then {} else {handle.ks}
    ensures rc == Success <==> handle != null && wantsKeys && wantsCount
    ensures var cells := if keys.Some? then keys.value else [];
      && (rc == Success ==> nkeys == |cells| && (keys.None? <==> nkeys == 0))
      && (handle != null ==>
            && (rc == Success ==> cells == handle.ks.coll)
            && Answers(handle.store, Call.Keys(wantsKeys, wantsCount),
                       if rc == Success then KeyList(CTexts(cells)) else Failed))
  {
    if handle != null && wantsKeys && wantsCount {
      var k := handle.Keys();
      var n := |k.coll|;
      KeysSurviveC(k.coll, handle.store.Keys);
      return Success, if n == 0 then None else Some(k.cArr), n;
    }
    return PersistenceError, None, 0;
  }

  lemma KeysSurviveC(cells: seq<Chars>, keys: set<CString>)
    requires Lists(Texts(cells), keys)
    ensures CTexts(cells) == Texts(cells)
  {
    forall i | 0 <= i < |cells| ensures CText(cells[i].text) == cells[i].text {
      assert Texts(cells)[i] in keys;
    }
  }

  method PersistenceClear(handle: MemPersistence?) returns (rc: Code)
    modifies if handle == null then {} else {handle}
    ensures rc == Success <==> handle != null
    ensures handle != null ==>
      && handle.store == After(old(handle.store), Call.Clear) && handle.open == old(handle.open)
      && Answers(old(handle.store), Call.Clear, Bare(rc))
  {
    if handle != null {
      handle.Clear();
      return Success;
    }
    return PersistenceError;
  }

  method PersistenceContainsKey(handle: MemPersistence?, key: Option<CString>) returns (rc: Code)
    ensures rc == Success <==> handle != null && key.Some? && key.value in handle.store
    ensures handle != null ==> Answers(handle.store, Call.ContainsKey(key), Bare(rc))
  {
    if handle != null && key.Some? && handle.ContainsKey(key.value) {
      return Success;
    }
    return PersistenceError;
  }

  // ---- Sequences of calls ----

  ghost predicate ProperCalls(calls: seq<Call>) {
    forall i :: 0 <= i < |calls| ==> ProperCall(calls[i])
  }

  // The map after calls on a store that was empty.
  ghost function Contents(calls: seq<Call>): map<CString, string>
    requires ProperCalls(calls)
  {
    if calls == [] then map[] else After(Contents(calls[..|calls| - 1]), calls[|calls| - 1])
  }

  predicate Puts(call: Call, key: CString) {
    call.Put? && call.key == key && Accepted(call.bufcount, call.buffers, call.buflens)
  }

  predicate Replaces(call: Call, key: CString) {
    Puts(call, key) || call == Call.Remove(Some(key)) || call == Call.Clear
  }

  // Call i is the put that still stands for the key.
  ghost predicate Stands(calls: seq<Call>, key: CString, i: nat) {
    i < |calls| && Puts(calls[i], key) && forall j :: i < j < |calls| ==> !Replaces(calls[j], key)
  }

  ghost predicate HasPut(calls: seq<Call>, key: CString) {
    exists i: nat :: Stands(calls, key, i)
  }

  lemma {:induction false} StandingPutIsHeld(calls: seq<Call>, key: CString, i: nat)
    requires ProperCalls(calls) && Stands(calls, key, i)
    ensures key in Contents(calls)
    ensures Contents(calls)[key] == Concat(Pieces(calls[i].bufcount, calls[i].buffers, calls[i].buflens))
    decreases |calls|
  {
    var n := |calls| - 1;
    if i < n {
      assert Stands(calls[..n], key, i);
      StandingPutIsHeld(calls[..n], key, i);
      assert !Replaces(calls[n], key);
    }
  }

  lemma {:induction false} HeldHasStandingPut(calls: seq<Call>, key: CString)
    requires ProperCalls(calls) && key in Contents(calls)
    ensures HasPut(calls, key)
    decreases |calls|
  {
    var n := |calls| - 1;
    if Puts(calls[n], key) {
      assert Stands(calls, key, n);
    } else {
      HeldHasStandingPut(calls[..n], key);
      var i: nat :| Stands(calls[..n], key, i);
      assert Stands(calls, key, i);
    }
  }

  // After any calls: get gives the buffers of the put that still stands, in order, and fails when there is none.
  lemma GetReturnsTheStandingPut(calls: seq<Call>, key: CString, reply: Reply)
    requires ProperCalls(calls) && Answers(Contents(calls), Call.Get(Some(key), true, true), reply)
    ensures reply == Failed <==> !HasPut(calls, key)
    ensures forall i: nat :: Stands(calls, key, i) ==>
      reply == Data(Concat(Pieces(calls[i].bufcount, calls[i].buffers, calls[i].buflens)))
  {
    forall i: nat | Stands(calls, key, i)
      ensures reply == Data(Concat(Pieces(calls[i].bufcount, calls[i].buffers, calls[i].buflens)))
    {
      StandingPutIsHeld(calls, key, i);
    }
    if key in Contents(calls) {
      HeldHasStandingPut(calls, key);
    }
  }

  // After any calls: keys lists, in ascending order and once each, the keys with a put that still stands.
  lemma KeysListsTheStandingPuts(calls: seq<Call>, keys: seq<string>)
    requires ProperCalls(calls) && Answers(Contents(calls), Call.Keys(true, true), KeyList(keys))
    ensures Ascending(keys) && |keys| == |Contents(calls)|
    ensures forall key: CString :: key in keys <==> HasPut(calls, key)
    ensures forall i, j :: 0 <= i < j < |keys| ==> keys[i] != keys[j]
  {
    ListingIsUnique(keys, keys, Contents(calls).Keys);
    forall key: CString ensures key in keys <==> HasPut(calls, key) {
      if key in Contents(calls) {
        HeldHasStandingPut(calls, key);
      }
      if HasPut(calls, key) {
        var i: nat :| Stands(calls, key, i);
        StandingPutIsHeld(calls, key, i);
      }
    }
    forall i, j | 0 <= i < j < |keys| ensures keys[i] != keys[j] {
      LessIsStrict(keys[i]);
    }
  }

  lemma OneMoreCall(calls: seq<Call>, call: Call)
    requires ProperCalls(calls) && ProperCall(call)
    ensures ProperCalls(calls + [call]) && Contents(calls + [call]) == After(Contents(calls), call)
  {
    assert (calls + [call])[..|calls|] == calls;
  }

  lemma LastApart<T>(a: seq<T>, after: seq<T>)
    requires after != []
    ensures var n := |after| - 1;
      a + after == a + after[..n] + [after[n]]
  {
  }

  // Calls that leave the same map can stand for each other.
  lemma {:induction false} SameFromThere(a: seq<Call>, b: seq<Call>, after: seq<Call>)
    requires ProperCalls(a) && ProperCalls(b) && ProperCalls(after) && Contents(a) == Contents(b)
    ensures ProperCalls(a + after) && ProperCalls(b + after) && Contents(a + after) == Contents(b + after)
    decreases |after|
  {
    if after == [] {
      assert a + after == a && b + after == b;
    } else {
      var n := |after| - 1;
      SameFromThere(a, b, after[..n]);
      OneMoreCall(a + after[..n], after[n]);
      OneMoreCall(b + after[..n], after[n]);
      LastApart(a, after);
      LastApart(b, after);
    }
  }

  // A call that fails leaves no trace: what follows is as if it had not been made.
  lemma FailedCallLeavesNoTrace(before: seq<Call>, call: Call, after: seq<Call>)
    requires ProperCalls(before) && ProperCall(call) && ProperCalls(after)
    requires Answers(Contents(before), call, Failed)
    ensures ProperCalls(before + [call]) && ProperCalls(before + [call] + after) && ProperCalls(before + after)
    ensures Contents(before + [call] + after) == Contents(before + after)
  {
    OneMoreCall(before, call);
    SameFromThere(before + [call], before, after);
  }
}
