/**
 * The JavaScript primitives the vault relies on, stated over `string = seq<char>`:
 * `String.prototype.trim`, `split` on one character, `Array.prototype.join`,
 * `String.prototype.includes`, the `Number(...)` conversion of a string and
 * `Number.prototype.toString` of an integer, plus the shape of a thrown value.
 */
module Js {
  import opened Wrappers

  /** What a `throw` can carry: an `Error` object, a bare string, or anything else. */
  datatype Thrown = ErrorValue(message: string) | StringValue(text: string) | OtherValue

  /** The characters `trim` removes: ECMAScript WhiteSpace and LineTerminator. */
  predicate IsWhitespace(c: char) {
    || c == '\t' || c == '\n' || c == '\U{000B}' || c == '\U{000C}' || c == '\r' || c == ' '
    || c == '\U{00A0}' || c == '\U{1680}' || ('\U{2000}' <= c <= '\U{200A}')
    || c == '\U{2028}' || c == '\U{2029}' || c == '\U{202F}' || c == '\U{205F}'
    || c == '\U{3000}' || c == '\U{FEFF}'
  }

  /** A string with no whitespace at either end (what `trim` returns). */
  predicate IsTrimmed(s: string) {
    s == [] || (!IsWhitespace(s[0]) && !IsWhitespace(s[|s| - 1]))
  }

  /** `p` occurs in `s` starting at index `i`. */
  predicate OccursAt(s: string, p: string, i: int) {
    0 <= i && i + |p| <= |s| && s[i..i + |p|] == p
  }

  /** Drops leading whitespace. */
  function TrimStart(s: string): string {
    if s != [] && IsWhitespace(s[0]) then TrimStart(s[1..]) else s
  }

  /** Drops trailing whitespace. */
  function TrimEnd(s: string): string {
    if s != [] && IsWhitespace(s[|s| - 1]) then TrimEnd(s[..|s| - 1]) else s
  }

  /** `s.trim()`. */
  function Trim(s: string): string {
    TrimEnd(TrimStart(s))
  }

  /** `TrimStart` returns the suffix of `s` after its leading whitespace run. */
  lemma {:induction false} TrimStartSpec(s: string)
    ensures var r := TrimStart(s);
            && |r| <= |s| && r == s[|s| - |r|..]
            && (r == [] || !IsWhitespace(r[0]))
            && forall i :: 0 <= i < |s| - |r| ==> IsWhitespace(s[i])
  {
    if s != [] && IsWhitespace(s[0]) {
      TrimStartSpec(s[1..]);
    }
  }

  /** `TrimEnd` returns the prefix of `s` before its trailing whitespace run. */
  lemma {:induction false} TrimEndSpec(s: string)
    ensures var r := TrimEnd(s);
            && |r| <= |s| && r == s[..|r|]
            && (r == [] || !IsWhitespace(r[|r| - 1]))
            && forall i :: |r| <= i < |s| ==> IsWhitespace(s[i])
  {
    if s != [] && IsWhitespace(s[|s| - 1]) {
      TrimEndSpec(s[..|s| - 1]);
    }
  }

  /**
   * `trim` returns a slice of `s` with no whitespace at either end, and what it
   * cuts off on either side is whitespace only.
   */
  lemma TrimSpec(s: string)
    ensures IsTrimmed(Trim(s))
    ensures exists i :: && OccursAt(s, Trim(s), i)
                        && (forall j :: 0 <= j < i ==> IsWhitespace(s[j]))
                        && (forall j :: i + |Trim(s)| <= j < |s| ==> IsWhitespace(s[j]))
  {
    var t := TrimStart(s);
    var r := TrimEnd(t);
    TrimStartSpec(s);
    TrimEndSpec(t);
    var i := |s| - |t|;
    assert s[i..][..|r|] == s[i..i + |r|];
    assert OccursAt(s, r, i);
    forall j | i + |r| <= j < |s| ensures IsWhitespace(s[j]) {
      assert s[j] == t[j - i];
    }
  }

  /** Trimming a string that is already trimmed changes nothing (so `trim` is idempotent). */
  lemma TrimOfTrimmed(s: string)
    requires IsTrimmed(s)
    ensures Trim(s) == s
  {
    assert TrimStart(s) == s;
  }

  /** A single space in front of a trimmed, non-empty string is removed by `trim`. */
  lemma TrimLeadingSpace(t: string)
    requires t != [] && IsTrimmed(t)
    ensures Trim(" " + t) == t
  {
    assert (" " + t)[1..] == t;
    assert TrimStart(" " + t) == TrimStart(t) == t;
    TrimOfTrimmed(t);
  }

  /** `s.split(sep)` for a one-character separator: the maximal separator-free pieces, in order. */
  function Split(s: string, sep: char): (r: seq<string>)
    ensures |r| >= 1
    ensures forall i :: 0 <= i < |r| ==> sep !in r[i]
    ensures Join(r, [sep]) == s
  {
    if s == [] then [""]
    else
      var rest := Split(s[1..], sep);
      if s[0] == sep then
        assert s == [sep] + s[1..];
        [""] + rest
      else
        var r := [[s[0]] + rest[0]] + rest[1..];
        JoinCons(rest, [sep]);
        JoinCons(r, [sep]);
        assert s == [s[0]] + s[1..];
        r
  }

  /** `parts.join(sep)`. */
  function Join(parts: seq<string>, sep: string): string {
    if |parts| == 0 then ""
    else if |parts| == 1 then parts[0]
    else parts[0] + sep + Join(parts[1..], sep)
  }

  /** Unfolds `Join` once on a non-empty list. */
  lemma JoinCons(parts: seq<string>, sep: string)
    requires |parts| >= 1
    ensures Join(parts, sep) == parts[0] + (if |parts| == 1 then "" else sep + Join(parts[1..], sep))
  {
  }

  /** A separator-free string splits into itself. */
  lemma {:induction false} SplitNoSeparator(s: string, sep: char)
    requires sep !in s
    ensures Split(s, sep) == [s]
  {
    if s != [] {
      SplitNoSeparator(s[1..], sep);
      assert [s[0]] + s[1..] == s;
    }
  }

  /** Splitting at the first separator: the separator-free head becomes the first piece. */
  lemma {:induction false} SplitAtSeparator(a: string, sep: char, b: string)
    requires sep !in a
    ensures Split(a + [sep] + b, sep) == [a] + Split(b, sep)
  {
    var s := a + [sep] + b;
    if a == [] {
      assert s[1..] == b;
    } else {
      assert s[1..] == a[1..] + [sep] + b;
      SplitAtSeparator(a[1..], sep, b);
      assert [a[0]] + a[1..] == a;
    }
  }

  /** `s.includes(p)`: `p` occurs as a contiguous slice of `s`. */
  function Includes(s: string, p: string): (r: bool)
    ensures r <==> exists i :: OccursAt(s, p, i)
  {
    if |s| < |p| then false
    else if s[..|p|] == p then
      assert OccursAt(s, p, 0);
      true
    else
      var r := Includes(s[1..], p);
      assert forall i :: OccursAt(s, p, i) ==> i >= 1 && OccursAt(s[1..], p, i - 1) by {
        forall i | OccursAt(s, p, i) ensures i >= 1 && OccursAt(s[1..], p, i - 1) {
          assert s[1..][i - 1..i - 1 + |p|] == s[i..i + |p|];
        }
      }
      assert r ==> exists i :: OccursAt(s, p, i) by {
        if r {
          var j :| OccursAt(s[1..], p, j);
          assert s[j + 1..j + 1 + |p|] == s[1..][j..j + |p|];
          assert OccursAt(s, p, j + 1);
        }
      }
      r
  }

  /** A non-empty run of decimal digits. */
  predicate IsDigits(s: string) {
    |s| > 0 && forall i :: 0 <= i < |s| ==> '0' <= s[i] <= '9'
  }

  /** The value of a run of decimal digits, read most significant first. */
  function DigitsValue(s: string): nat
    requires forall i :: 0 <= i < |s| ==> '0' <= s[i] <= '9'
  {
    if s == [] then 0 else DigitsValue(s[..|s| - 1]) * 10 + (s[|s| - 1] - '0') as int
  }

  /**
   * `Number(s)` restricted to integers: surrounding whitespace is ignored, a blank
   * string is 0, an optionally signed run of decimal digits is its value, and
   * anything else is `NaN`, written `None`.
   */
  function ParseNum(s: string): Option<int> {
    var t := Trim(s);
    if t == "" then Some(0)
    else if t[0] == '-' then (if IsDigits(t[1..]) then Some(0 - DigitsValue(t[1..])) else None)
    else if t[0] == '+' then (if IsDigits(t[1..]) then Some(DigitsValue(t[1..])) else None)
    else if IsDigits(t) then Some(DigitsValue(t))
    else None
  }

  /** `Number(null)`, as returned by `FormData.get` for a missing entry, is 0. */
  function NumberOf(field: Option<string>): Option<int> {
    match field
    case None => Some(0)
    case Some(s) => ParseNum(s)
  }

  function DigitChar(d: nat): char
    requires d < 10
  {
    ('0' as int + d) as char
  }

  /** The decimal digits of a natural number, without leading zeros. */
  function NatToDigits(n: nat): string {
    if n < 10 then [DigitChar(n)] else NatToDigits(n / 10) + [DigitChar(n % 10)]
  }

  /** `n.toString()` for an integer `n`. */
  function IntToString(n: int): string {
    if n < 0 then "-" + NatToDigits(-n) else NatToDigits(n)
  }

  /** Reading back the digits of `n` gives `n`. */
  lemma {:induction false} NatToDigitsValue(n: nat)
    ensures IsDigits(NatToDigits(n)) && DigitsValue(NatToDigits(n)) == n
  {
    var s := NatToDigits(n);
    if n >= 10 {
      NatToDigitsValue(n / 10);
      assert s[..|s| - 1] == NatToDigits(n / 10);
    }
  }

  /** `Number(n.toString()) === n`: printing an integer and parsing it back is the identity. */
  lemma ParseNumOfIntToString(n: int)
    ensures ParseNum(IntToString(n)) == Some(n)
  {
    var s := IntToString(n);
    var d := NatToDigits(if n < 0 then -n else n);
    NatToDigitsValue(if n < 0 then -n else n);
    assert IsTrimmed(s);
    TrimOfTrimmed(s);
    if n < 0 {
      assert s[1..] == d;
    }
  }
}
