/** The few pieces of PHP's value semantics that the helpers rely on:
    truthiness, string conversion, implode/explode, trim and the array `+` operator. */
module Php {

  datatype Option<T> = None | Some(value: T) {
    function GetOr(default: T): T {
      match this
      case Some(v) => v
      case None => default
    }
  }

  /** A PHP runtime error a call can end in. */
  datatype PhpError =
    | UndefinedMethod(className: string, methodName: string)  // a call to a method the class lacks
    | NotStringable(className: string)                    // an object used as a string

  /** A call that either returns a value or ends in a PHP error. */
  datatype Result<T> = Ok(value: T) | Err(error: PhpError)

  /** A scalar option value as a caller may pass it in an `$options` array. */
  datatype Value = Null | Bool(b: bool) | Int(i: int) | Str(s: string)

  /** PHP truthiness of a string: only "" and "0" are falsy. */
  predicate TruthyString(s: string) {
    s != "" && s != "0"
  }

  /** PHP truthiness of a scalar (`if ($v)`, `!empty($v)`). */
  predicate Truthy(v: Value) {
    match v
    case Null => false
    case Bool(b) => b
    case Int(i) => i != 0
    case Str(s) => TruthyString(s)
  }

  predicate IsDigit(c: char) {
    '0' <= c <= '9'
  }

  /** The value of a string of decimal digits, read left to right. */
  function DigitsValue(s: string): int
    requires forall i :: 0 <= i < |s| ==> IsDigit(s[i])
  {
    if |s| == 0 then 0 else DigitsValue(s[..|s| - 1]) * 10 + (s[|s| - 1] as int - '0' as int)
  }

  /** Decimal notation of a natural number, as `(string)` produces it. */
  function NatToString(n: nat): (r: string)
    ensures |r| >= 1
    ensures forall i :: 0 <= i < |r| ==> IsDigit(r[i])
    ensures |r| > 1 ==> r[0] != '0'
    ensures DigitsValue(r) == n
  {
    var d := [('0' as int + n % 10) as char];
    if n < 10 then d
    else
      var r := NatToString(n / 10) + d;
      assert r[..|r| - 1] == NatToString(n / 10);
      r
  }

  /** `(string) $i` for a PHP integer. */
  function IntToString(i: int): (r: string)
    ensures i >= 0 ==> r == NatToString(i)
    ensures i < 0 ==> r == "-" + NatToString(-i)
  {
    if i >= 0 then NatToString(i) else "-" + NatToString(-i)
  }

  /** Conversion of a scalar to string, as `.` concatenation performs it. */
  function ValueToString(v: Value): (r: string)
    ensures v.Str? ==> r == v.s
    ensures v.Null? || v == Bool(false) ==> r == ""
    ensures v == Bool(true) ==> r == "1"
  {
    match v
    case Null => ""
    case Bool(b) => if b then "1" else ""
    case Int(i) => IntToString(i)
    case Str(s) => s
  }

  /** `implode($sep, $parts)`. */
  function Join(sep: string, parts: seq<string>): (r: string)
    ensures |parts| == 0 ==> r == ""
    ensures |parts| == 1 ==> r == parts[0]
  {
    if |parts| == 0 then ""
    else if |parts| == 1 then parts[0]
    else parts[0] + sep + Join(sep, parts[1..])
  }

  /** Three parts joined: the separator between each pair. */
  lemma JoinThree(sep: string, a: string, b: string, c: string)
    ensures Join(sep, [a, b, c]) == a + sep + b + sep + c
  {
    assert [a, b, c][1..] == [b, c] && [b, c][1..] == [c];
    assert Join(sep, [b, c]) == b + sep + c;
  }

  /** Joining truthy strings gives a falsy string only when there are none of them. */
  lemma JoinTruthy(sep: string, parts: seq<string>)
    requires |sep| > 0
    requires forall i :: 0 <= i < |parts| ==> TruthyString(parts[i])
    ensures TruthyString(Join(sep, parts)) <==> |parts| > 0
  {
    if |parts| > 1 {
      assert |Join(sep, parts)| >= |parts[0]| + |sep| >= 2;
    }
  }

  /** `explode($d, $s)` for a one-character delimiter: the pieces between the delimiters,
      in order; joining them again with the delimiter gives back the input. */
  function Split(s: string, d: char): (parts: seq<string>)
    ensures |parts| >= 1
    ensures forall i :: 0 <= i < |parts| ==> d !in parts[i]
    ensures Join([d], parts) == s
  {
    if |s| == 0 then [""]
    else
      var rest := Split(s[1..], d);
      if s[0] == d then
        assert s == [d] + s[1..];
        [""] + rest
      else
        var parts := [[s[0]] + rest[0]] + rest[1..];
        assert |rest| > 1 ==> Join([d], rest) == rest[0] + [d] + Join([d], rest[1..]);
        assert |parts| > 1 ==> Join([d], parts) == parts[0] + [d] + Join([d], parts[1..]);
        assert s == [s[0]] + s[1..];
        parts
  }

  /** Splitting a join of delimiter-free pieces gives back the pieces. */
  lemma {:induction false} SplitJoin(parts: seq<string>, d: char)
    requires |parts| >= 1
    requires forall i :: 0 <= i < |parts| ==> d !in parts[i]
    ensures Split(Join([d], parts), d) == parts
  {
    if |parts| == 1 {
      SplitPiece(parts[0], d);
    } else {
      SplitJoin(parts[1..], d);
      SplitPrefix(parts[0], Join([d], parts[1..]), d);
      assert [parts[0]] + parts[1..] == parts;
    }
  }

  /** A string without the delimiter splits into itself alone. */
  lemma {:induction false} SplitPiece(p: string, d: char)
    requires d !in p
    ensures Split(p, d) == [p]
  {
    if |p| > 0 {
      SplitPiece(p[1..], d);
      assert [p[0]] + p[1..] == p;
    }
  }

  /** Splitting `p + d + rest`, where `p` has no delimiter, puts `p` in front of the
      pieces of `rest`. */
  lemma {:induction false} SplitPrefix(p: string, rest: string, d: char)
    requires d !in p
    ensures Split(p + [d] + rest, d) == [p] + Split(rest, d)
  {
    var s := p + [d] + rest;
    if |p| == 0 {
      assert s[0] == d && s[1..] == rest;
    } else {
      assert s[0] == p[0] && s[1..] == p[1..] + [d] + rest;
      SplitPrefix(p[1..], rest, d);
      assert [p[0]] + p[1..] == p;
    }
  }

  /** The elements that `array_filter` keeps (the truthy ones), in order. */
  function KeepTruthy(xs: seq<string>): (r: seq<string>)
    ensures |r| <= |xs|
    ensures forall i :: 0 <= i < |r| ==> TruthyString(r[i])
    ensures forall x :: x in r <==> x in xs && TruthyString(x)
    ensures |xs| == 1 ==> r == (if TruthyString(xs[0]) then xs else [])
  {
    if |xs| == 0 then []
    else if TruthyString(xs[0]) then [xs[0]] + KeepTruthy(xs[1..])
    else KeepTruthy(xs[1..])
  }

  /** Filtering a concatenation filters each part: the kept elements stay in their
      order, each as often as it occurs. */
  lemma {:induction false} KeepTruthyAppend(a: seq<string>, b: seq<string>)
    ensures KeepTruthy(a + b) == KeepTruthy(a) + KeepTruthy(b)
  {
    if |a| > 0 {
      assert (a + b)[1..] == a[1..] + b;
      KeepTruthyAppend(a[1..], b);
    } else {
      assert a + b == b;
    }
  }

  /** The characters PHP's `trim` strips by default: space, tab, newline, carriage
      return, NUL and vertical tab. */
  predicate IsTrimSpace(c: char) {
    c == ' ' || c == '\t' || c == '\n' || c == '\r' || c == '\0' || c == '\U{000B}'
  }

  /** How many trim characters `s` starts with. */
  function LeadingSpaces(s: string): (n: nat)
    ensures n <= |s|
    ensures forall i :: 0 <= i < n ==> IsTrimSpace(s[i])
    ensures n == |s| || !IsTrimSpace(s[n])
  {
    if |s| == 0 || !IsTrimSpace(s[0]) then 0 else 1 + LeadingSpaces(s[1..])
  }

  /** How many trim characters `s` ends with. */
  function TrailingSpaces(s: string): (n: nat)
    ensures n <= |s|
    ensures forall i :: |s| - n <= i < |s| ==> IsTrimSpace(s[i])
    ensures n == |s| || !IsTrimSpace(s[|s| - 1 - n])
  {
    if |s| == 0 || !IsTrimSpace(s[|s| - 1]) then 0 else 1 + TrailingSpaces(s[..|s| - 1])
  }

  /** `trim($s)`: `s` without its leading and trailing trim characters; "" when it has
      nothing else. */
  function Trim(s: string): (r: string)
    ensures LeadingSpaces(s) + |r| <= |s|
    ensures r == s[LeadingSpaces(s)..LeadingSpaces(s) + |r|]
    ensures forall i :: LeadingSpaces(s) + |r| <= i < |s| ==> IsTrimSpace(s[i])
    ensures r == [] || (!IsTrimSpace(r[0]) && !IsTrimSpace(r[|r| - 1]))
    ensures (forall i :: 0 <= i < |s| ==> IsTrimSpace(s[i])) ==> r == []
  {
    var k := LeadingSpaces(s);
    if k == |s| then ""
    else
      var e := TrailingSpaces(s);
      s[k..|s| - e]
  }

  /** A string that neither starts nor ends with a trim character is its own trim. */
  lemma TrimUntouched(s: string)
    requires s != [] && !IsTrimSpace(s[0]) && !IsTrimSpace(s[|s| - 1])
    ensures Trim(s) == s
  {
    assert LeadingSpaces(s) == 0 && TrailingSpaces(s) == 0;
  }

  /** PHP's array union `$a + $b`: every key of `a` keeps its value, the keys only `b`
      has are added with `b`'s values. */
  function UnionLeft<K, V>(a: map<K, V>, b: map<K, V>): (r: map<K, V>)
    ensures r.Keys == a.Keys + b.Keys
    ensures forall k :: k in a ==> r[k] == a[k]
    ensures forall k :: k in b && k !in a ==> r[k] == b[k]
  {
    b + a
  }
}
