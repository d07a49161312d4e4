/** The list of strings of mqtt/string_collection.h, which also keeps an array of C pointers. */
module StringCollections {
  // The storage of one string; a pointer to it is what c_str() returns.
  class Chars {
    const text: string

    constructor (text: string)
      ensures this.text == text
    {
      this.text := text;
    }
  }

  function Texts(cells: seq<Chars>): (texts: seq<string>)
    ensures |texts| == |cells| && forall i :: 0 <= i < |cells| ==> texts[i] == cells[i].text
  {
    seq(|cells|, i requires 0 <= i < |cells| => cells[i].text)
  }

  // What C code reads through a pointer: everything before the first NUL.
  function CText(s: string): (r: string)
    ensures r <= s && '\0' !in r && (r == s || s[|r|] == '\0')
  {
    if s == "" || s[0] == '\0' then "" else [s[0]] + CText(s[1..])
  }

  class StringCollection {
    var coll: seq<Chars>
    var cArr: seq<Chars>

    // The C array points, entry by entry, to where the strings are now.
    ghost predicate Valid()
      reads this
    {
      cArr == coll
    }

    function Strings(): seq<string>
      reads this
    {
      Texts(coll)
    }

    constructor ()
      ensures Valid() && Strings() == []
    {
      coll, cArr := [], [];
    }

    constructor FromVector(vec: seq<string>)
      ensures Valid() && Strings() == vec
    {
      coll, cArr := [], [];
      new;
      coll := Stored(vec);
      UpdateCArr();
    }

    // A copy has storage of its own, and its array points there.
    constructor Copy(other: StringCollection)
      ensures Valid() && Strings() == other.Strings()
      ensures forall i :: 0 <= i < |cArr| ==> fresh(cArr[i])
    {
      coll, cArr := [], [];
      new;
      coll := Stored(other.Strings());
      UpdateCArr();
    }

    static method Stored(texts: seq<string>) returns (cells: seq<Chars>)
      ensures Texts(cells) == texts
      ensures forall i :: 0 <= i < |cells| ==> fresh(cells[i])
    {
      cells := [];
      for i := 0 to |texts|
        invariant |cells| == i && forall k :: 0 <= k < i ==> cells[k].text == texts[k] && fresh(cells[k])
      {
        var cell := new Chars(texts[i]);
        cells := cells + [cell];
      }
    }

    method UpdateCArr()
      modifies this`cArr
      ensures cArr == coll
    {
      cArr := [];
      for i := 0 to |coll|
        invariant cArr == coll[..i]
      {
        cArr := cArr + [coll[i]];
      }
    }

    // Vector growth may move every string to new storage, so the array is rebuilt.
    method PushBack(str: string)
      modifies this
      ensures Valid() && Strings() == old(Strings()) + [str]
    {
      var cells := coll;
      if * {
        cells := Stored(Texts(coll));
      }
      var cell := new Chars(str);
      coll := cells + [cell];
      UpdateCArr();
    }

    method Clear()
      modifies this
      ensures Valid() && Strings() == []
    {
      coll, cArr := [], [];
    }
  }
}
