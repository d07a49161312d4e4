/**
 The argument list of the RPC samples: printed by main() in samples/rpc_math_cli.cpp and parsed
 by main() in samples/rpc_math_srvr.cpp.  A number is what an input stream reads into a double in
 the classic locale.  How a real number is rounded to a double, and which ones are out of range so
 that the stream fails, is a parameter.
 */
module RpcArguments {
  import opened Common
  import opened Streams

  // ---- Numbers ----

  predicate IsDigit(c: char) {
    '0' <= c <= '9'
  }

  predicate AllDigits(s: string) {
    forall i :: 0 <= i < |s| ==> IsDigit(s[i])
  }

  function Magnitude(digits: string): nat
    requires AllDigits(digits)
  {
    if digits == "" then 0
    else 10 * Magnitude(digits[..|digits| - 1]) + (digits[|digits| - 1] as int - '0' as int)
  }

  // Ten times x, n times over; and the tenth of x.
  function Tens(x: real, n: nat): real {
    if n == 0 then x else 10.0 * Tens(x, n - 1)
  }

  function Tenths(x: real, n: nat): real {
    if n == 0 then x else Tenths(x, n - 1) / 10.0
  }

  datatype Exponent = Exponent(mark: char, sign: string, digits: string)

  // A decimal number by its parts.
  datatype Decimal = Decimal(sign: string, whole: string, frac: Option<string>, exp: Option<Exponent>)

  predicate IsSign(s: string) {
    s == "" || s == "+" || s == "-"
  }

  predicate IsMark(c: char) {
    c == 'e' || c == 'E'
  }

  predicate SomeDigits(d: Decimal) {
    d.whole != "" || (d.frac.Some? && d.frac.value != "")
  }

  // All but that digits are there.
  predicate Shaped(d: Decimal) {
    && IsSign(d.sign) && AllDigits(d.whole)
    && (d.frac.Some? ==> AllDigits(d.frac.value))
    && (d.exp.Some? ==> IsMark(d.exp.value.mark) && IsSign(d.exp.value.sign) && AllDigits(d.exp.value.digits))
  }

  predicate WellFormed(d: Decimal) {
    Shaped(d) && SomeDigits(d) && (d.exp.Some? ==> d.exp.value.digits != "")
  }

  function FracText(frac: Option<string>): string {
    if frac.Some? then "." + frac.value else ""
  }

  function ExpText(exp: Option<Exponent>): string {
    if exp.Some? then [exp.value.mark] + (exp.value.sign + exp.value.digits) else ""
  }

  function Text(d: Decimal): string {
    d.sign + (d.whole + (FracText(d.frac) + ExpText(d.exp)))
  }

  function Signed(sign: string, x: real): real {
    if sign == "-" then -x else x
  }

  function Mantissa(d: Decimal): real
    requires WellFormed(d)
  {
    var frac := if d.frac.Some? then Tenths(Magnitude(d.frac.value) as real, |d.frac.value|) else 0.0;
    Signed(d.sign, Magnitude(d.whole) as real + frac)
  }

  function Scaled(x: real, e: Exponent): real
    requires AllDigits(e.digits)
  {
    var n := Magnitude(e.digits);
    if e.sign == "-" then Tenths(x, n) else Tens(x, n)
  }

  function Value(d: Decimal): real
    requires WellFormed(d)
  {
    if d.exp.None? then Mantissa(d) else Scaled(Mantissa(d), d.exp.value)
  }

  // The double for a real number, or None when it is out of range.
  type Rounding = real -> Option<real>

  // The text t denotes a real number, for which x is the double.
  ghost predicate Denotes(fit: Rounding, t: string, x: real) {
    exists d :: WellFormed(d) && Text(d) == t && fit(Value(d)) == Some(x)
  }

  // ---- The stream operators ----

  function DigitsLength(s: string): (n: nat)
    ensures n <= |s| && AllDigits(s[..n])
    ensures n < |s| ==> !IsDigit(s[n])
  {
    if s == "" || !IsDigit(s[0]) then 0
    else
      var m := DigitsLength(s[1..]);
      assert s[..m + 1] == [s[0]] + s[1..][..m];
      m + 1
  }

  function ScanSign(s: string): (r: (string, string))
    ensures IsSign(r.0) && r.0 + r.1 == s
  {
    if s != "" && (s[0] == '+' || s[0] == '-') then ([s[0]], s[1..]) else ("", s)
  }

  function ScanDigits(s: string): (r: (string, string))
    ensures AllDigits(r.0) && r.0 + r.1 == s
  {
    var n := DigitsLength(s);
    (s[..n], s[n..])
  }

  function ScanFrac(s: string): (r: (Option<string>, string))
    ensures (r.0.Some? ==> AllDigits(r.0.value)) && FracText(r.0) + r.1 == s
  {
    if s != "" && s[0] == '.' then
      var (digits, rest) := ScanDigits(s[1..]);
      (Some(digits), rest)
    else (None, s)
  }

  function ScanExp(s: string): (r: (Option<Exponent>, string))
    ensures r.0.Some? ==> IsMark(r.0.value.mark) && IsSign(r.0.value.sign) && AllDigits(r.0.value.digits)
    ensures ExpText(r.0) + r.1 == s
  {
    if s != "" && IsMark(s[0]) then
      var (sign, afterSign) := ScanSign(s[1..]);
      var (digits, rest) := ScanDigits(afterSign);
      (Some(Exponent(s[0], sign, digits)), rest)
    else (None, s)
  }

  // The longest text that could be a number; an exponent is looked for only after a digit.
  function Scan(s: string): (r: (Decimal, string))
    ensures Shaped(r.0) && |r.1| <= |s| && (SomeDigits(r.0) ==> |r.1| < |s|)
  {
    var (sign, afterSign) := ScanSign(s);
    var (whole, afterWhole) := ScanDigits(afterSign);
    var (frac, afterFrac) := ScanFrac(afterWhole);
    var (exp, rest) :=
      if SomeDigits(Decimal(sign, whole, frac, None)) then ScanExp(afterFrac) else (None, afterFrac);
    (Decimal(sign, whole, frac, exp), rest)
  }

  // is >> c
  function ReadChar(s: string): (r: Option<(char, string)>)
    ensures r.Some? ==> |r.value.1| < |s|
  {
    var t := SkipSpaces(s);
    if t == "" then None else Some((t[0], t[1..]))
  }

  // is >> x
  function ReadNumber(fit: Rounding, s: string): (r: Option<(real, string)>)
    ensures r.Some? ==> |r.value.1| < |s|
  {
    var t := SkipSpaces(s);
    var (d, rest) := Scan(t);
    if WellFormed(d) && fit(Value(d)).Some? then Some((fit(Value(d)).value, rest)) else None
  }

  // ---- The parser ----

  datatype ArgError = Malformed | BadClosingDelimiter

  // The loop, when c is a comma: the last delimiter read and the numbers.
  function ReadItems(fit: Rounding, s: string, nums: seq<real>): (char, seq<real>)
    decreases |s|
  {
    match ReadNumber(fit, s)
    case None => (',', nums)
    case Some((x, afterNumber)) =>
      match ReadChar(afterNumber)
      case None => (',', nums)
      case Some((c, rest)) => if c == ',' then ReadItems(fit, rest, nums + [x]) else (c, nums + [x])
  }

  function Parsed(fit: Rounding, text: string): Result<seq<real>, ArgError> {
    match ReadChar(text)
    case None => Err(Malformed)
    case Some((c, rest)) =>
      if c != '[' then Err(Malformed)
      else
        var (last, nums) := ReadItems(fit, rest, []);
        if last == ']' then Ok(nums) else Err(BadClosingDelimiter)
  }

  method Parse(fit: Rounding, text: string) returns (r: Result<seq<real>, ArgError>)
    ensures r == Parsed(fit, text)
  {
    var start := ReadChar(text);
    if start.None? || start.value.0 != '[' {
      return Err(Malformed);
    }
    var rest := start.value.1;
    var nums: seq<real> := [];
    var c := ',';
    var good := true;
    while c == ',' && good
      invariant c == ',' && good ==> ReadItems(fit, rest, nums) == ReadItems(fit, start.value.1, [])
      invariant !(c == ',' && good) ==> (c, nums) == ReadItems(fit, start.value.1, [])
      decreases |rest|, if good then 1 else 0
    {
      var number := ReadNumber(fit, rest);
      if number.None? {
        good := false;
      } else {
        var delimiter := ReadChar(number.value.1);
        if delimiter.None? {
          good := false;
        } else {
          c, rest := delimiter.value.0, delimiter.value.1;
          nums := nums + [number.value.0];
        }
      }
    }
    if c != ']' {
      return Err(BadClosingDelimiter);
    }
    return Ok(nums);
  }

  // ---- The grammar: '[' number (',' number)* ']', with blanks between the symbols ----

  ghost predicate Blank(s: string) {
    forall i :: 0 <= i < |s| ==> IsSpace(s[i])
  }

  // s is: blanks, the number x, blanks, a delimiter, the rest.
  ghost predicate ItemAt(fit: Rounding, s: string, x: real, i: int, j: int, k: int) {
    && 0 <= i <= j <= k < |s|
    && Blank(s[..i]) && Denotes(fit, s[i..j], x) && Blank(s[j..k])
    && (s[k] == ',' || s[k] == ']')
  }

  ghost predicate Items(fit: Rounding, s: string, nums: seq<real>)
    decreases |nums|, 1
  {
    nums != [] && exists i, j, k :: ItemsAt(fit, s, nums, i, j, k)
  }

  // The first item, and then the end or more items.
  ghost predicate ItemsAt(fit: Rounding, s: string, nums: seq<real>, i: int, j: int, k: int)
    requires nums != []
    decreases |nums|, 0
  {
    ItemAt(fit, s, nums[0], i, j, k) && EndsOrGoesOn(fit, s[k], s[k + 1..], nums[1..])
  }

  ghost predicate EndsOrGoesOn(fit: Rounding, delimiter: char, rest: string, nums: seq<real>)
    decreases |nums|, 2
  {
    if nums == [] then delimiter == ']' else delimiter == ',' && Items(fit, rest, nums)
  }

  // Anything may follow the closing bracket.
  ghost predicate ArgumentList(fit: Rounding, text: string, nums: seq<real>) {
    exists i :: 0 <= i < |text| && Blank(text[..i]) && text[i] == '[' && Items(fit, text[i + 1..], nums)
  }

  // ---- The parser accepts exactly the grammar ----

  lemma {:induction false} DigitsThenOther(digits: string, rest: string)
    requires AllDigits(digits) && (rest == "" || !IsDigit(rest[0]))
    ensures DigitsLength(digits + rest) == |digits|
  {
    if digits == "" {
      assert digits + rest == rest;
    } else {
      assert (digits + rest)[1..] == digits[1..] + rest;
      DigitsThenOther(digits[1..], rest);
    }
  }

  lemma DigitsAreScanned(digits: string, rest: string)
    requires AllDigits(digits) && (rest == "" || !IsDigit(rest[0]))
    ensures ScanDigits(digits + rest) == (digits, rest)
  {
    DigitsThenOther(digits, rest);
  }

  lemma SignIsScanned(sign: string, rest: string)
    requires IsSign(sign) && (rest == "" || (rest[0] != '+' && rest[0] != '-'))
    ensures ScanSign(sign + rest) == (sign, rest)
  {
    if sign == "" {
      assert sign + rest == rest;
    } else {
      assert (sign + rest)[1..] == rest && [sign[0]] == sign;
    }
  }

  // What cannot go on with a number.
  predicate Stops(rest: string) {
    rest == "" || (!IsDigit(rest[0]) && rest[0] != '.' && !IsMark(rest[0]))
  }

  lemma FracIsScanned(frac: Option<string>, rest: string)
    requires (frac.Some? ==> AllDigits(frac.value)) && (rest == "" || (!IsDigit(rest[0]) && rest[0] != '.'))
    ensures ScanFrac(FracText(frac) + rest) == (frac, rest)
  {
    if frac.Some? {
      assert (FracText(frac) + rest)[1..] == frac.value + rest;
      DigitsAreScanned(frac.value, rest);
    } else {
      assert FracText(frac) + rest == rest;
    }
  }

  lemma ExpIsScanned(exp: Option<Exponent>, rest: string)
    requires exp.Some? ==> IsMark(exp.value.mark) && IsSign(exp.value.sign)
    requires exp.Some? ==> AllDigits(exp.value.digits) && exp.value.digits != ""
    requires Stops(rest)
    ensures ScanExp(ExpText(exp) + rest) == (exp, rest)
  {
    if exp.Some? {
      var e := exp.value;
      assert (ExpText(exp) + rest)[1..] == e.sign + (e.digits + rest);
      SignIsScanned(e.sign, e.digits + rest);
      DigitsAreScanned(e.digits, rest);
    } else {
      assert ExpText(exp) + rest == rest;
    }
  }

  lemma Regrouped(a: string, b: string, c: string, d: string, rest: string)
    ensures a + (b + (c + d)) + rest == a + (b + (c + (d + rest)))
  {
  }

  // How the parts of a number begin.
  lemma PartsBegin(d: Decimal, rest: string)
    requires WellFormed(d) && Stops(rest)
    ensures var t2 := ExpText(d.exp) + rest; t2 == "" || (!IsDigit(t2[0]) && t2[0] != '.')
    ensures var t1 := FracText(d.frac) + (ExpText(d.exp) + rest); t1 == "" || !IsDigit(t1[0])
    ensures var t0 := d.whole + (FracText(d.frac) + (ExpText(d.exp) + rest)); t0 != "" && t0[0] != '+' && t0[0] != '-'
  {
  }

  lemma ScannedByParts(s: string, d: Decimal, afterSign: string, afterWhole: string, afterFrac: string, rest: string)
    requires WellFormed(d) && ScanSign(s) == (d.sign, afterSign) && ScanDigits(afterSign) == (d.whole, afterWhole)
    requires ScanFrac(afterWhole) == (d.frac, afterFrac) && ScanExp(afterFrac) == (d.exp, rest)
    ensures Scan(s) == (d, rest)
  {
  }

  lemma SignComesFirst(d: Decimal, rest: string)
    requires WellFormed(d) && Stops(rest)
    ensures var t0 := d.whole + (FracText(d.frac) + (ExpText(d.exp) + rest));
      ScanSign(Text(d) + rest) == (d.sign, t0)
  {
    Regrouped(d.sign, d.whole, FracText(d.frac), ExpText(d.exp), rest);
    PartsBegin(d, rest);
    SignIsScanned(d.sign, d.whole + (FracText(d.frac) + (ExpText(d.exp) + rest)));
  }

  lemma WholeComesNext(d: Decimal, rest: string)
    requires WellFormed(d) && Stops(rest)
    ensures var t1 := FracText(d.frac) + (ExpText(d.exp) + rest);
      ScanDigits(d.whole + t1) == (d.whole, t1)
  {
    PartsBegin(d, rest);
    DigitsAreScanned(d.whole, FracText(d.frac) + (ExpText(d.exp) + rest));
  }

  lemma FracComesThen(d: Decimal, rest: string)
    requires WellFormed(d) && Stops(rest)
    ensures ScanFrac(FracText(d.frac) + (ExpText(d.exp) + rest)) == (d.frac, ExpText(d.exp) + rest)
  {
    PartsBegin(d, rest);
    FracIsScanned(d.frac, ExpText(d.exp) + rest);
  }

  // A number is read to its end, and by its parts.
  lemma NumberIsScanned(d: Decimal, rest: string)
    requires WellFormed(d) && Stops(rest)
    ensures Scan(Text(d) + rest) == (d, rest)
  {
    SignComesFirst(d, rest);
    WholeComesNext(d, rest);
    FracComesThen(d, rest);
    ExpIsScanned(d.exp, rest);
    var t2 := ExpText(d.exp) + rest;
    var t1 := FracText(d.frac) + t2;
    ScannedByParts(Text(d) + rest, d, d.whole + t1, t1, t2, rest);
  }

  lemma NumberBegins(d: Decimal)
    requires WellFormed(d)
    ensures Text(d) != "" && !IsSpace(Text(d)[0])
  {
  }

  lemma SkipTo(s: string, i: nat)
    requires i <= |s| && Blank(s[..i]) && (i < |s| ==> !IsSpace(s[i]))
    ensures SkipSpaces(s) == s[i..]
  {
    SkipsAllSpaces(s[..i], s[i..]);
    assert s[..i] + s[i..] == s;
  }

  // A number after blanks, with something after it that stops it.
  lemma NumberAfterBlanks(fit: Rounding, s: string, number: string, x: real, rest: string)
    requires SkipSpaces(s) == number + rest && Denotes(fit, number, x) && Stops(rest)
    ensures ReadNumber(fit, s) == Some((x, rest))
  {
    var d :| WellFormed(d) && Text(d) == number && fit(Value(d)) == Some(x);
    NumberIsScanned(d, rest);
  }

  lemma DenotedBegins(fit: Rounding, number: string, x: real)
    requires Denotes(fit, number, x)
    ensures number != "" && !IsSpace(number[0])
  {
    var d :| WellFormed(d) && Text(d) == number && fit(Value(d)) == Some(x);
    NumberBegins(d);
  }

  lemma Rejoined(s: string, i: nat, j: nat)
    requires i <= j <= |s|
    ensures s[i..] == s[i..j] + s[j..] && (i < j ==> s[i..j][0] == s[i])
  {
  }

  lemma NumberIsRead(fit: Rounding, s: string, x: real, i: nat, j: nat)
    requires i <= j <= |s| && Blank(s[..i]) && Denotes(fit, s[i..j], x) && Stops(s[j..])
    ensures ReadNumber(fit, s) == Some((x, s[j..]))
  {
    var number, rest := s[i..j], s[j..];
    DenotedBegins(fit, number, x);
    Rejoined(s, i, j);
    SkipTo(s, i);
    NumberAfterBlanks(fit, s, number, x, rest);
  }

  lemma CharIsRead(s: string, j: nat, k: nat)
    requires j <= k < |s| && Blank(s[j..k]) && !IsSpace(s[k])
    ensures ReadChar(s[j..]) == Some((s[k], s[k + 1..]))
  {
    var t := s[j..];
    assert t[..k - j] == s[j..k];
    SkipTo(t, k - j);
    assert t[k - j..] == s[k..];
  }

  lemma ItemIsRead(fit: Rounding, s: string, x: real, i: int, j: int, k: int)
    requires ItemAt(fit, s, x, i, j, k)
    ensures ReadNumber(fit, s) == Some((x, s[j..])) && ReadChar(s[j..]) == Some((s[k], s[k + 1..]))
  {
    assert Stops(s[j..]) by {
      assert s[j..][0] == s[j];
      if j < k {
        assert s[j] == s[j..k][0];
      }
    }
    NumberIsRead(fit, s, x, i, j);
    CharIsRead(s, j, k);
  }

  lemma PiecesAt(s: string, i: nat, a: string, b: string)
    requires i <= |s| && s[i..] == a + b
    ensures i + |a| <= |s| && s[i..i + |a|] == a && s[i + |a|..] == b
  {
    assert |s[i..]| == |a| + |b|;
    assert s[i..][..|a|] == s[i..i + |a|];
    assert s[i..][|a|..] == s[i + |a|..];
  }

  // The parts, put together again, are what was scanned.
  lemma ScanKeepsText(s: string)
    ensures Text(Scan(s).0) + Scan(s).1 == s
  {
    var (d, rest) := Scan(s);
    var (sign, afterSign) := ScanSign(s);
    var (whole, afterWhole) := ScanDigits(afterSign);
    var (frac, afterFrac) := ScanFrac(afterWhole);
    assert ExpText(d.exp) + rest == afterFrac;
    Regrouped(sign, whole, FracText(frac), ExpText(d.exp), rest);
  }

  lemma ReadDenotes(fit: Rounding, s: string, x: real, rest: string) returns (number: string)
    requires ReadNumber(fit, s) == Some((x, rest))
    ensures Denotes(fit, number, x) && number + rest == SkipSpaces(s)
  {
    var d := Scan(SkipSpaces(s)).0;
    ScanKeepsText(SkipSpaces(s));
    number := Text(d);
  }

  lemma BlankBefore(s: string) returns (i: nat)
    ensures i <= |s| && Blank(s[..i]) && s[i..] == SkipSpaces(s)
  {
    SkippedIsBlank(s);
    i := |s| - |SkipSpaces(s)|;
  }

  // Conversely: where the number and the delimiter that were read stand in the text.
  lemma NumberStandsAt(s: string, number: string, afterNumber: string) returns (i: nat, j: nat)
    requires number + afterNumber == SkipSpaces(s)
    ensures i <= j <= |s| && Blank(s[..i]) && s[i..j] == number && afterNumber == s[j..]
  {
    i := BlankBefore(s);
    j := i + |number|;
    PiecesAt(s, i, number, afterNumber);
  }

  lemma ReadNumberAt(fit: Rounding, s: string, x: real, afterNumber: string) returns (i: nat, j: nat)
    requires ReadNumber(fit, s) == Some((x, afterNumber))
    ensures i <= j <= |s| && Blank(s[..i]) && Denotes(fit, s[i..j], x) && afterNumber == s[j..]
  {
    var number := ReadDenotes(fit, s, x, afterNumber);
    i, j := NumberStandsAt(s, number, afterNumber);
  }

  lemma ReadCharAt(s: string, j: nat, c: char, rest: string) returns (k: nat)
    requires j <= |s| && ReadChar(s[j..]) == Some((c, rest))
    ensures j <= k < |s| && Blank(s[j..k]) && s[k] == c && rest == s[k + 1..]
  {
    var t := s[j..];
    SkippedIsBlank(t);
    var n := |t| - |SkipSpaces(t)|;
    k := j + n;
    assert t[n..] == s[k..] && s[k..][1..] == s[k + 1..];
    forall m | 0 <= m < n ensures IsSpace(s[j..k][m]) {
      assert s[j..k][m] == t[m];
    }
  }

  lemma ReadIsItem(fit: Rounding, s: string, x: real, afterNumber: string, c: char, rest: string)
    returns (i: int, j: int, k: int)
    requires ReadNumber(fit, s) == Some((x, afterNumber)) && ReadChar(afterNumber) == Some((c, rest))
    requires c == ',' || c == ']'
    ensures ItemAt(fit, s, x, i, j, k) && s[k] == c && s[k + 1..] == rest
  {
    i, j := ReadNumberAt(fit, s, x, afterNumber);
    k := ReadCharAt(s, j, c, rest);
  }

  lemma ReadOneItem(fit: Rounding, s: string, before: seq<real>, x: real, afterNumber: string, c: char, rest: string)
    requires ReadNumber(fit, s) == Some((x, afterNumber)) && ReadChar(afterNumber) == Some((c, rest))
    ensures ReadItems(fit, s, before) == if c == ',' then ReadItems(fit, rest, before + [x]) else (c, before + [x])
  {
  }

  // The reader's first round on a text of the grammar.
  lemma FirstItemIsRead(fit: Rounding, s: string, nums: seq<real>, before: seq<real>)
    returns (delimiter: char, rest: string)
    requires Items(fit, s, nums)
    ensures EndsOrGoesOn(fit, delimiter, rest, nums[1..])
    ensures ReadItems(fit, s, before)
         == if delimiter == ',' then ReadItems(fit, rest, before + [nums[0]]) else (delimiter, before + [nums[0]])
  {
    var i, j, k :| ItemsAt(fit, s, nums, i, j, k);
    ItemIsRead(fit, s, nums[0], i, j, k);
    delimiter, rest := s[k], s[k + 1..];
    ReadOneItem(fit, s, before, nums[0], s[j..], delimiter, rest);
  }

  lemma OneMore(before: seq<real>, nums: seq<real>)
    requires nums != []
    ensures before + [nums[0]] + nums[1..] == before + nums
    ensures nums[1..] == [] ==> before + [nums[0]] == before + nums
  {
  }

  lemma {:induction false} ItemsAreRead(fit: Rounding, s: string, nums: seq<real>, before: seq<real>)
    requires Items(fit, s, nums)
    ensures ReadItems(fit, s, before) == (']', before + nums)
    decreases |nums|
  {
    OneMore(before, nums);
    var delimiter, rest := FirstItemIsRead(fit, s, nums, before);
    if nums[1..] != [] {
      ItemsAreRead(fit, rest, nums[1..], before + [nums[0]]);
    }
  }

  // The reader's last steps, split off a reading that ends with a closing bracket.
  lemma Split(all: seq<real>, before: seq<real>, x: real)
    requires |before| < |all| && all[..|before| + 1] == before + [x]
    ensures all[..|before|] == before && all[|before|..] == [x] + all[|before| + 1..]
  {
    assert all[|before|] == all[..|before| + 1][|before|] == x;
    assert all[..|before|] == all[..|before| + 1][..|before|];
  }

  lemma ItemThenItems(fit: Rounding, s: string, x: real, nums: seq<real>, i: int, j: int, k: int)
    requires ItemAt(fit, s, x, i, j, k) && EndsOrGoesOn(fit, s[k], s[k + 1..], nums)
    ensures Items(fit, s, [x] + nums)
  {
    var all := [x] + nums;
    assert all[1..] == nums;
    assert ItemsAt(fit, s, all, i, j, k);
  }

  lemma ItemsFrom(fit: Rounding, s: string, x: real, afterNumber: string, c: char, rest: string, nums: seq<real>)
    requires ReadNumber(fit, s) == Some((x, afterNumber)) && ReadChar(afterNumber) == Some((c, rest))
    requires (c == ',' || c == ']') && EndsOrGoesOn(fit, c, rest, nums)
    ensures Items(fit, s, [x] + nums)
  {
    var i, j, k := ReadIsItem(fit, s, x, afterNumber, c, rest);
    ItemThenItems(fit, s, x, nums, i, j, k);
  }

  // The first of them, when the rest is known to be items.
  lemma ReadsBegin(fit: Rounding, s: string, before: seq<real>, x: real, afterNumber: string, c: char, rest: string,
                   all: seq<real>)
    requires ReadNumber(fit, s) == Some((x, afterNumber)) && ReadChar(afterNumber) == Some((c, rest))
    requires (c == ',' || c == ']') && |before| < |all| && all[..|before| + 1] == before + [x]
    requires EndsOrGoesOn(fit, c, rest, all[|before| + 1..])
    ensures all[..|before|] == before && Items(fit, s, all[|before|..])
  {
    Split(all, before, x);
    ItemsFrom(fit, s, x, afterNumber, c, rest, all[|before| + 1..]);
  }

  lemma {:induction false} ReadsAreItems(fit: Rounding, s: string, before: seq<real>)
    requires ReadItems(fit, s, before).0 == ']'
    ensures var all := ReadItems(fit, s, before).1;
      |before| < |all| && all[..|before|] == before && Items(fit, s, all[|before|..])
    decreases |s|
  {
    var (x, afterNumber) := ReadNumber(fit, s).value;
    var (c, rest) := ReadChar(afterNumber).value;
    ReadOneItem(fit, s, before, x, afterNumber, c, rest);
    var all := ReadItems(fit, s, before).1;
    if c == ',' {
      ReadsAreItems(fit, rest, before + [x]);
    } else {
      assert all[|before| + 1..] == [];
    }
    ReadsBegin(fit, s, before, x, afterNumber, c, rest, all);
  }

  lemma FirstCharAt(text: string, c: char, rest: string) returns (i: nat)
    requires ReadChar(text) == Some((c, rest))
    ensures i < |text| && Blank(text[..i]) && text[i] == c && rest == text[i + 1..]
  {
    assert text[0..] == text;
    i := ReadCharAt(text, 0, c, rest);
    assert text[0..i] == text[..i];
  }

  lemma FirstCharIsRead(text: string, i: nat)
    requires i < |text| && Blank(text[..i]) && !IsSpace(text[i])
    ensures ReadChar(text) == Some((text[i], text[i + 1..]))
  {
    assert text[0..] == text && text[0..i] == text[..i];
    CharIsRead(text, 0, i);
  }

  lemma AllReadAreItems(fit: Rounding, s: string)
    requires ReadItems(fit, s, []).0 == ']'
    ensures Items(fit, s, ReadItems(fit, s, []).1)
  {
    ReadsAreItems(fit, s, []);
    var nums := ReadItems(fit, s, []).1;
    assert nums[0..] == nums;
  }

  lemma AcceptedIsGrammatical(fit: Rounding, text: string, nums: seq<real>)
    requires Parsed(fit, text) == Ok(nums)
    ensures ArgumentList(fit, text, nums)
  {
    var (c, rest) := ReadChar(text).value;
    var i := FirstCharAt(text, c, rest);
    AllReadAreItems(fit, rest);
  }

  lemma AllItemsAreRead(fit: Rounding, s: string, nums: seq<real>)
    requires Items(fit, s, nums)
    ensures ReadItems(fit, s, []) == (']', nums)
  {
    ItemsAreRead(fit, s, nums, []);
    assert [] + nums == nums;
  }

  lemma BracketedIsAccepted(fit: Rounding, text: string, rest: string, nums: seq<real>)
    requires ReadChar(text) == Some(('[', rest)) && ReadItems(fit, rest, []) == (']', nums)
    ensures Parsed(fit, text) == Ok(nums)
  {
  }

  lemma GrammaticalIsAccepted(fit: Rounding, text: string, nums: seq<real>)
    requires ArgumentList(fit, text, nums)
    ensures Parsed(fit, text) == Ok(nums)
  {
    var i :| 0 <= i < |text| && Blank(text[..i]) && text[i] == '[' && Items(fit, text[i + 1..], nums);
    FirstCharIsRead(text, i);
    AllItemsAreRead(fit, text[i + 1..], nums);
    BracketedIsAccepted(fit, text, text[i + 1..], nums);
  }

  // Accepted texts are exactly the argument lists of the grammar, up to what follows the closing
  // bracket, and the numbers are the grammar's; so an accepted list is never empty.
  lemma AcceptsExactlyTheGrammar(fit: Rounding, text: string, nums: seq<real>)
    ensures Parsed(fit, text) == Ok(nums) <==> ArgumentList(fit, text, nums)
    ensures Parsed(fit, text) == Ok(nums) ==> nums != []
  {
    if Parsed(fit, text) == Ok(nums) {
      AcceptedIsGrammatical(fit, text, nums);
    }
    if ArgumentList(fit, text, nums) {
      GrammaticalIsAccepted(fit, text, nums);
    }
  }

  ghost predicate BeginsWithBracket(text: string) {
    exists i :: 0 <= i < |text| && Blank(text[..i]) && text[i] == '['
  }

  // The other two outcomes: malformed exactly when no opening bracket comes first, and otherwise
  // a bad closing delimiter exactly when no list of the grammar follows.
  lemma RejectsExactlyTheRest(fit: Rounding, text: string)
    ensures Parsed(fit, text) == Err(Malformed) <==> !BeginsWithBracket(text)
    ensures Parsed(fit, text) == Err(BadClosingDelimiter)
       <==> BeginsWithBracket(text) && forall nums :: !ArgumentList(fit, text, nums)
  {
    if BeginsWithBracket(text) {
      var i :| 0 <= i < |text| && Blank(text[..i]) && text[i] == '[';
      FirstCharIsRead(text, i);
    }
    if Parsed(fit, text) != Err(Malformed) {
      var (c, rest) := ReadChar(text).value;
      var i := FirstCharAt(text, c, rest);
    }
    if Parsed(fit, text).Ok? {
      AcceptedIsGrammatical(fit, text, Parsed(fit, text).value);
    }
    forall nums | ArgumentList(fit, text, nums) ensures Parsed(fit, text) == Ok(nums) {
      GrammaticalIsAccepted(fit, text, nums);
    }
  }

  // ---- The printer ----

  function Joined(args: seq<string>): string {
    if args == [] then "" else Joined(args[..|args| - 1]) + args[|args| - 1] + ", "
  }

  function Printed(args: seq<string>): string
    requires args != []
  {
    "[ " + Joined(args[..|args| - 1]) + args[|args| - 1] + " ]"
  }

  method Print(args: seq<string>) returns (os: string)
    requires args != []
    ensures os == Printed(args)
  {
    os := "[ ";
    for i := 0 to |args| - 1
      invariant os == "[ " + Joined(args[..i])
    {
      assert args[..i + 1][..i] == args[..i];
      os := os + args[i] + ", ";
    }
    os := os + args[|args| - 1] + " ]";
  }

  // ---- Round trip ----

  // The texts denote the numbers, one by one.
  ghost predicate AllDenote(fit: Rounding, args: seq<string>, nums: seq<real>) {
    |args| == |nums| && forall i :: 0 <= i < |args| ==> Denotes(fit, args[i], nums[i])
  }

  // The printed text after the opening bracket, from the front.
  function Tail(args: seq<string>): string
    requires args != []
  {
    " " + args[0] + (if |args| == 1 then " ]" else "," + Tail(args[1..]))
  }

  lemma {:induction false} JoinedTail(args: seq<string>, last: string)
    ensures " " + Joined(args) + last + " ]" == Tail(args + [last])
  {
    if args == [] {
      assert args + [last] == [last];
    } else {
      JoinedFront(args);
      JoinedTail(args[1..], last);
      assert (args + [last])[1..] == args[1..] + [last];
      assert " " + (args[0] + ", " + Joined(args[1..])) + last + " ]"
          == " " + args[0] + "," + (" " + Joined(args[1..]) + last + " ]");
    }
  }

  lemma Regroup(a: string, b: string, c: string, d: string)
    ensures a + b + c + d == a + (b + c + d)
  {
  }

  lemma {:induction false} JoinedFront(args: seq<string>)
    requires args != []
    ensures Joined(args) == args[0] + ", " + Joined(args[1..])
  {
    var n := |args| - 1;
    if n == 0 {
      assert Joined(args) == Joined(args[..0]) + args[0] + ", ";
      assert args[1..] == [];
    } else {
      JoinedFront(args[..n]);
      assert args[..n][1..] == args[1..][..n - 1];
      Regroup(args[0] + ", ", Joined(args[1..n]), args[n], ", ");
    }
  }

  // A number between a blank and m blanks with a delimiter after them.
  lemma PrintedItemAt(fit: Rounding, s: string, number: string, x: real, after: string, m: nat, j: int, k: int)
    requires m < |after| && Denotes(fit, number, x) && Blank(after[..m]) && (after[m] == ',' || after[m] == ']')
    requires s == " " + number + after && j == 1 + |number| && k == j + m
    ensures ItemAt(fit, s, x, 1, j, k) && s[k] == after[m] && s[k + 1..] == after[m + 1..]
  {
    assert s[j..] == after;
    assert s[..1] == " " && s[1..j] == number;
    assert s[j..][..m] == s[j..k];
    assert s[j..][m + 1..] == s[k + 1..];
  }

  // What follows the first printed number, and the blanks before its delimiter.
  function AfterFirst(args: seq<string>): string
    requires args != []
  {
    if |args| == 1 then " ]" else "," + Tail(args[1..])
  }

  lemma TailBegins(args: seq<string>)
    requires args != []
    ensures Tail(args) == " " + args[0] + AfterFirst(args)
  {
  }

  lemma AfterFirstBegins(args: seq<string>) returns (m: nat)
    requires args != []
    ensures var after := AfterFirst(args);
      && m < |after| && Blank(after[..m])
      && if |args| == 1 then after[m] == ']' else after[m] == ',' && after[m + 1..] == Tail(args[1..])
  {
    var after := AfterFirst(args);
    m := if |args| == 1 then 1 else 0;
    if |args| > 1 {
      assert after[1..] == Tail(args[1..]);
    }
  }

  lemma FirstThenItems(fit: Rounding, s: string, nums: seq<real>, i: int, j: int, k: int, c: char, rest: string)
    requires nums != [] && ItemAt(fit, s, nums[0], i, j, k) && s[k] == c && s[k + 1..] == rest
    requires EndsOrGoesOn(fit, c, rest, nums[1..])
    ensures Items(fit, s, nums)
  {
    assert ItemsAt(fit, s, nums, i, j, k);
  }

  lemma DelimiterOf(fit: Rounding, c: char, rest: string, nums: seq<real>)
    requires EndsOrGoesOn(fit, c, rest, nums)
    ensures c == ',' || c == ']'
  {
  }

  // The first printed number, and after it what the rest of the text has been shown to be.
  lemma PrintedThenItems(fit: Rounding, s: string, number: string, after: string, m: nat, nums: seq<real>)
    requires nums != [] && Denotes(fit, number, nums[0]) && s == " " + number + after
    requires m < |after| && Blank(after[..m]) && EndsOrGoesOn(fit, after[m], after[m + 1..], nums[1..])
    ensures Items(fit, s, nums)
  {
    var j := 1 + |number|;
    DelimiterOf(fit, after[m], after[m + 1..], nums[1..]);
    PrintedItemAt(fit, s, number, nums[0], after, m, j, j + m);
    FirstThenItems(fit, s, nums, 1, j, j + m, after[m], after[m + 1..]);
  }

  lemma {:induction false} TailIsItems(fit: Rounding, args: seq<string>, nums: seq<real>)
    requires args != [] && AllDenote(fit, args, nums)
    ensures Items(fit, Tail(args), nums)
    decreases |args|
  {
    var after := AfterFirst(args);
    var m := AfterFirstBegins(args);
    if |args| > 1 {
      TailIsItems(fit, args[1..], nums[1..]);
    }
    TailBegins(args);
    PrintedThenItems(fit, Tail(args), args[0], after, m, nums);
  }

  lemma PrintedIsTail(args: seq<string>)
    requires args != []
    ensures Printed(args) == "[" + Tail(args)
  {
    var n := |args| - 1;
    JoinedTail(args[..n], args[n]);
    assert args[..n] + [args[n]] == args;
  }

  // Parsing what was printed gives the numbers back, for every non-empty list.
  lemma PrintedIsParsedBack(fit: Rounding, args: seq<string>, nums: seq<real>)
    requires args != [] && AllDenote(fit, args, nums)
    ensures Parsed(fit, Printed(args)) == Ok(nums)
  {
    var text := Printed(args);
    PrintedIsTail(args);
    TailIsItems(fit, args, nums);
    assert text[0] == '[' && text[1..] == Tail(args);
    assert Blank(text[..0]);
    GrammaticalIsAccepted(fit, text, nums);
  }
}
