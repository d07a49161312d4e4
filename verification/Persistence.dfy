/**
 The in-memory store of samples/sync_publish.cpp behind the C callbacks of iclient_persistence.cpp,
 against a plain map.
 */
module Persistence {
  import opened Common
  import opened StringCollections

  // Text that comes in through a char*, so without a NUL.
  type CString = s: string | '\0' !in s

  // ---- The order in which std::map goes through its keys ----

  predicate Less(a: string, b: string) {
    b != "" && (a == "" || a[0] < b[0] || (a[0] == b[0] && Less(a[1..], b[1..])))
  }

  // The first place in which two keys differ decides, or the end of the shorter one.
  ghost predicate DiffersAt(a: string, b: string, i: int) {
    && 0 <= i <= |a| && i < |b| && a[..i] == b[..i]
    && (i == |a| || a[i] < b[i])
  }

  lemma {:induction false} LessDiffers(a: string, b: string) returns (i: int)
    requires Less(a, b)
    ensures DiffersAt(a, b, i)
  {
    i := 0;
    if a != "" && a[0] == b[0] {
      var j := LessDiffers(a[1..], b[1..]);
      i := j + 1;
      assert a[..i] == [a[0]] + a[1..][..j] && b[..i] == [b[0]] + b[1..][..j];
    }
  }

  lemma {:induction false} DifferentIsLess(a: string, b: string, i: int)
    requires DiffersAt(a, b, i)
    ensures Less(a, b)
    decreases |a|
  {
    if i > 0 {
      assert a[0] == a[..i][0] == b[..i][0] == b[0];
      assert a[1..][..i - 1] == a[..i][1..] && b[1..][..i - 1] == b[..i][1..];
      DifferentIsLess(a[1..], b[1..], i - 1);
    }
  }

  lemma LessIsLexicographic(a: string, b: string)
    ensures Less(a, b) <==> exists i :: DiffersAt(a, b, i)
  {
    if Less(a, b) {
      var i := LessDiffers(a, b);
    }
    forall i | DiffersAt(a, b, i) ensures Less(a, b) {
      DifferentIsLess(a, b, i);
    }
  }

  ghost predicate Ascending(ks: seq<string>) {
    forall i, j :: 0 <= i < j < |ks| ==> Less(ks[i], ks[j])
  }

  ghost predicate Lists(ks: seq<string>, keys: set<string>) {
    Ascending(ks) && forall k :: k in ks <==> k in keys
  }

  lemma {:induction false} LessIsStrict(a: string)
    ensures !Less(a, a)
  {
    if a != "" {
      LessIsStrict(a[1..]);
    }
  }

  lemma {:induction false} LessIsTotal(a: string, b: string)
    ensures a == b || Less(a, b) || Less(b, a)
  {
    if a != "" && b != "" && a[0] == b[0] {
      LessIsTotal(a[1..], b[1..]);
      assert a == [a[0]] + a[1..] && b == [b[0]] + b[1..];
    }
  }

  lemma {:induction false} LessIsTransitive(a: string, b: string, c: string)
    requires Less(a, b) && Less(b, c)
    ensures Less(a, c)
  {
    if a != "" && a[0] == b[0] == c[0] {
      LessIsTransitive(a[1..], b[1..], c[1..]);
    }
  }

  ghost predicate Least(k: string, keys: set<string>) {
    k in keys && forall j :: j in keys ==> j == k || Less(k, j)
  }

  lemma {:induction false} LeastExists(keys: set<string>)
    requires keys != {}
    ensures exists k :: Least(k, keys)
    decreases |keys|
  {
    var k :| k in keys;
    if keys == {k} {
      assert Least(k, keys);
    } else {
      var rest := keys - {k};
      assert k in keys && k !in rest;
      LeastExists(rest);
      var m :| Least(m, rest);
      LessIsTotal(k, m);
      if Less(k, m) {
        forall j | j in keys ensures j == k || Less(k, j) {
          if j != k && j != m {
            LessIsTransitive(k, m, j);
          }
        }
        assert Least(k, keys);
      } else {
        assert Least(m, keys);
      }
    }
  }

  // The listing of a set of keys is determined by the set, and has each key once.
  lemma {:induction false} ListingIsUnique(a: seq<string>, b: seq<string>, keys: set<string>)
    requires Lists(a, keys) && Lists(b, keys)
    ensures a == b
    ensures |a| == |keys|
    decreases |a|
  {
    ListsSomething(a, keys);
    ListsSomething(b, keys);
    if keys != {} {
      FirstIsLeast(a, keys);
      FirstIsLeast(b, keys);
      if a[0] != b[0] {
        LessIsTransitive(a[0], b[0], a[0]);
        LessIsStrict(a[0]);
      }
      WithoutFirst(a, keys);
      WithoutFirst(b, keys);
      ListingIsUnique(a[1..], b[1..], keys - {a[0]});
      assert a == [a[0]] + a[1..] && b == [b[0]] + b[1..];
    }
  }

  lemma ListsSomething(ks: seq<string>, keys: set<string>)
    requires Lists(ks, keys)
    ensures ks != [] ==> keys != {}
  {
    if ks != [] {
      assert ks[0] in keys;
    }
  }

  lemma FirstIsLeast(ks: seq<string>, keys: set<string>)
    requires Lists(ks, keys) && keys != {}
    ensures ks != [] && Least(ks[0], keys)
  {
    var k :| k in keys;
    assert k in ks;
  }

  lemma WithoutFirst(ks: seq<string>, keys: set<string>)
    requires Lists(ks, keys) && ks != []
    ensures Lists(ks[1..], keys - {ks[0]}) && ks[0] in keys
  {
    assert ks == [ks[0]] + ks[1..];
    LessIsStrict(ks[0]);
  }

  // ---- The C++ store ----

  function Concat(bufs: seq<string>): string {
    if bufs == [] then "" else Concat(bufs[..|bufs| - 1]) + bufs[|bufs| - 1]
  }

  lemma ConcatOfOne(buf: string)
    ensures Concat([buf]) == buf
  {
    assert [buf][..0] == [];
    assert Concat([buf]) == Concat([]) + buf;
  }

  // The buffers one after the other, in order.
  lemma {:induction false} ConcatInOrder(x: seq<string>, y: seq<string>)
    ensures Concat(x + y) == Concat(x) + Concat(y)
  {
    if y == [] {
      assert x + y == x;
    } else {
      var n := |y| - 1;
      assert (x + y)[..|x + y| - 1] == x + y[..n];
      ConcatInOrder(x, y[..n]);
      assert Concat(x) + Concat(y[..n]) + y[n] == Concat(x) + (Concat(y[..n]) + y[n]);
    }
  }

  class MemPersistence {
    var open: bool
    var store: map<CString, string>
    // The static collection of keys(): the same one for every store of the program.
    const ks: StringCollection

    constructor (ks: StringCollection)
      ensures !open && store == map[] && this.ks == ks
    {
      open, store, this.ks := false, map[], ks;
    }

    method Open()
      modifies this`open
      ensures open
    {
      open := true;
    }

    method Close()
      modifies this`open
      ensures !open
    {
      open := false;
    }

    method Clear()
      modifies this`store
      ensures store == map[]
    {
      store := map[];
    }

    function ContainsKey(key: CString): bool
      reads this
    {
      key in store
    }

    method Keys() returns (keys: StringCollection)
      modifies ks
      ensures keys == ks && ks.Valid() && Lists(ks.Strings(), store.Keys)
    {
      ks.Clear();
      var rest := store.Keys;
      while rest != {}
        invariant rest <= store.Keys && ks.Valid()
        invariant Lists(ks.Strings(), store.Keys - rest)
        invariant forall k, j :: k in ks.Strings() && j in rest ==> Less(k, j)
      {
        LeastExists(rest);
        var k: CString :| k in rest && forall j :: j in rest ==> j == k || Less(k, j);
        ks.PushBack(k);
        rest := rest - {k};
      }
      assert store.Keys - rest == store.Keys;
      return ks;
    }

    method Put(key: CString, bufs: seq<string>)
      modifies this`store
      ensures store == old(store)[key := Concat(bufs)]
    {
      var str := "";
      for i := 0 to |bufs|
        invariant str == Concat(bufs[..i])
      {
        assert bufs[..i + 1][..i] == bufs[..i];
        str := str + bufs[i];
      }
      assert bufs[..|bufs|] == bufs;
      store := store[key := str];
    }

    // None stands for the persistence_exception.
    method Get(key: CString) returns (data: Option<string>)
      ensures data == if key in store then Some(store[key]) else None
    {
      if key !in store {
        return None;
      }
      return Some(store[key]);
    }

    method Remove(key: CString) returns (found: bool)
      modifies this`store
      ensures found == (key in old(store)) && store == old(store) - {key}
    {
      if key !in store {
        return false;
      }
      store := store - {key};
      return true;
    }
  }
}
