/** The Python built-ins the core relies on: `str.split` with a separator,
    `int()` on a string and `round(x, 3)`. */
module Builtins {
  import opened Values

  // ---------------------------------------------------------------------
  // str.split(sep) and sep.join(parts)
  // ---------------------------------------------------------------------

  /** `s.split(sep)`: the pieces between separators, empty pieces included. */
  function Split(s: string, sep: char): (parts: seq<string>)
    ensures |parts| >= 1
    ensures forall i :: 0 <= i < |parts| ==> sep !in parts[i]
  {
    if s == [] then [""]
    else
      var rest := Split(s[1..], sep);
      if s[0] == sep then [""] + rest
      else [[s[0]] + rest[0]] + rest[1..]
  }

  /** `sep.join(parts)`. */
  function Join(parts: seq<string>, sep: char): string
    requires |parts| >= 1
    decreases |parts|
  {
    if |parts| == 1 then parts[0] else parts[0] + [sep] + Join(parts[1..], sep)
  }

  /** Joining the pieces of a split gives the original string back. */
  lemma {:induction false} JoinSplit(s: string, sep: char)
    ensures Join(Split(s, sep), sep) == s
  {
    if s != [] {
      var rest := Split(s[1..], sep);
      JoinSplit(s[1..], sep);
      if s[0] == sep {
        assert Split(s, sep)[1..] == rest;
        assert s == [sep] + s[1..];
      } else {
        var parts := Split(s, sep);
        if |rest| == 1 {
          assert parts == [[s[0]] + rest[0]];
        } else {
          assert parts[1..] == rest[1..];
          assert Join(rest, sep) == rest[0] + [sep] + Join(rest[1..], sep);
        }
        assert s == [s[0]] + s[1..];
      }
    }
  }

  /** A piece without the separator splits to itself. */
  lemma {:induction false} SplitNoSep(a: string, sep: char)
    requires sep !in a
    ensures Split(a, sep) == [a]
  {
    if a != [] {
      SplitNoSep(a[1..], sep);
      assert [a[0]] + a[1..] == a;
    }
  }

  /** Splitting `a + sep + rest` peels `a` off the front when `a` has no separator. */
  lemma {:induction false} SplitPrefix(a: string, rest: string, sep: char)
    requires sep !in a
    ensures Split(a + [sep] + rest, sep) == [a] + Split(rest, sep)
  {
    if a == [] {
      assert a + [sep] + rest == [sep] + rest;
      assert ([sep] + rest)[1..] == rest;
    } else {
      var s := a + [sep] + rest;
      assert s[1..] == a[1..] + [sep] + rest;
      SplitPrefix(a[1..], rest, sep);
      assert [a[0]] + a[1..] == a;
    }
  }

  /** Splitting at a separator between `a` and `b` splits each side apart:
      the pieces of `a` followed by the pieces of `b`. */
  lemma {:induction false} SplitConcat(a: string, b: string, sep: char)
    ensures Split(a + [sep] + b, sep) == Split(a, sep) + Split(b, sep)
  {
    if a == [] {
      var s := a + [sep] + b;
      assert s == [sep] + b && s[1..] == b;
    } else {
      SplitConcat(a[1..], b, sep);
      SplitConcatStep(a, b, sep);
    }
  }

  /** One step of `SplitConcat`: from the tail of `a` to all of `a`. */
  lemma SplitConcatStep(a: string, b: string, sep: char)
    requires a != []
    requires Split(a[1..] + [sep] + b, sep) == Split(a[1..], sep) + Split(b, sep)
    ensures Split(a + [sep] + b, sep) == Split(a, sep) + Split(b, sep)
  {
    var s := a + [sep] + b;
    assert s[0] == a[0] && s[1..] == a[1..] + [sep] + b;
    var front, back := Split(a[1..], sep), Split(b, sep);
    if a[0] == sep {
      ConsAssoc("", front, back);
    } else {
      ConsTailAssoc([a[0]] + front[0], front, back);
    }
  }

  lemma ConsAssoc(x: string, front: seq<string>, back: seq<string>)
    ensures [x] + (front + back) == ([x] + front) + back
  {
  }

  lemma ConsTailAssoc(x: string, front: seq<string>, back: seq<string>)
    requires |front| >= 1
    ensures (front + back)[1..] == front[1..] + back
    ensures [x] + (front + back)[1..] == ([x] + front[1..]) + back
  {
  }

  /** Splitting a join of separator-free pieces gives the pieces back. */
  lemma {:induction false} SplitJoin(parts: seq<string>, sep: char)
    requires |parts| >= 1
    requires forall i :: 0 <= i < |parts| ==> sep !in parts[i]
    ensures Split(Join(parts, sep), sep) == parts
    decreases |parts|
  {
    if |parts| == 1 {
      SplitNoSep(parts[0], sep);
    } else {
      SplitJoin(parts[1..], sep);
      SplitPrefix(parts[0], Join(parts[1..], sep), sep);
      assert [parts[0]] + parts[1..] == parts;
    }
  }

  // ---------------------------------------------------------------------
  // int(s) for a string s
  // ---------------------------------------------------------------------

  /** The characters `int()` strips from both ends (Python's whitespace). */
  predicate IsSpace(c: char) {
    var n := c as int;
    (9 <= n <= 13) || (28 <= n <= 32) || n == 0x85 || n == 0xA0 || n == 0x1680
    || (0x2000 <= n <= 0x200A) || n == 0x2028 || n == 0x2029 || n == 0x202F
    || n == 0x205F || n == 0x3000
  }

  predicate IsDigit(c: char) { '0' <= c <= '9' }

  function StripLeft(s: string): string {
    if s != [] && IsSpace(s[0]) then StripLeft(s[1..]) else s
  }

  function StripRight(s: string): string {
    if s != [] && IsSpace(s[|s| - 1]) then StripRight(s[..|s| - 1]) else s
  }

  /** `s.strip()` */
  function Strip(s: string): string { StripRight(StripLeft(s)) }

  /** Digits with single underscores between them, as `int()` accepts. */
  predicate IsDigitString(t: string) {
    && |t| > 0 && IsDigit(t[0]) && IsDigit(t[|t| - 1])
    && (forall i :: 0 <= i < |t| ==> IsDigit(t[i]) || t[i] == '_')
    && (forall i :: 0 < i < |t| && t[i] == '_' ==> IsDigit(t[i - 1]))
    && (forall i :: 0 <= i < |t| - 1 && t[i] == '_' ==> IsDigit(t[i + 1]))
  }

  /** The number the digits of `t` spell, underscores skipped. */
  function DigitsValue(t: string): nat {
    if t == [] then 0
    else if t[|t| - 1] == '_' then DigitsValue(t[..|t| - 1])
    else
      var d := t[|t| - 1] as int - '0' as int;
      DigitsValue(t[..|t| - 1]) * 10 + (if 0 <= d <= 9 then d else 0)
  }

  /** `int(s)` for a string: None where Python raises ValueError. A blank
      string raises; an accepted one is, once stripped, digits and underscores
      after an optional sign, and only a leading '-' gives a negative number. */
  function ParseInt(s: string): (r: Option<int>)
    ensures Strip(s) == [] ==> r.None?
    ensures r.Some? ==> forall i :: 0 <= i < |Strip(s)| ==>
              IsDigit(Strip(s)[i]) || Strip(s)[i] == '_' || (i == 0 && (Strip(s)[i] == '+' || Strip(s)[i] == '-'))
    ensures r.Some? && r.value < 0 ==> Strip(s)[0] == '-'
  {
    var t := Strip(s);
    if |t| > 0 && (t[0] == '+' || t[0] == '-') then
      if IsDigitString(t[1..]) then
        assert forall i :: 1 <= i < |t| ==> t[i] == t[1..][i - 1];
        Some(if t[0] == '-' then -(DigitsValue(t[1..]) as int) else DigitsValue(t[1..]))
      else None
    else if IsDigitString(t) then Some(DigitsValue(t))
    else None
  }

  /** `str(n)` for a natural number. */
  function Decimal(n: nat): (s: string)
    ensures |s| >= 1
    ensures forall i :: 0 <= i < |s| ==> IsDigit(s[i])
  {
    var d := [('0' as int + n % 10) as char];
    if n < 10 then d else Decimal(n / 10) + d
  }

  /** `str(i)` for an integer. */
  function IntToString(i: int): string {
    if i < 0 then "-" + Decimal(-i) else Decimal(i)
  }

  lemma {:induction false} DecimalValue(n: nat)
    ensures DigitsValue(Decimal(n)) == n
  {
    var s := Decimal(n);
    if n >= 10 {
      DecimalValue(n / 10);
      assert s[..|s| - 1] == Decimal(n / 10);
    }
  }

  lemma StripDigits(s: string)
    requires |s| >= 1
    requires !IsSpace(s[0]) && !IsSpace(s[|s| - 1])
    ensures Strip(s) == s
  {
  }

  lemma DigitNotSpace(c: char)
    requires IsDigit(c)
    ensures !IsSpace(c)
  {
  }

  /** A digit string parses to the number it spells. */
  lemma ParseDigits(t: string)
    requires IsDigitString(t)
    ensures ParseInt(t) == Some(DigitsValue(t))
  {
    DigitNotSpace(t[0]);
    DigitNotSpace(t[|t| - 1]);
    StripDigits(t);
  }

  /** A minus sign before a digit string negates its value. */
  lemma ParseNegative(t: string)
    requires IsDigitString(t)
    ensures ParseInt("-" + t) == Some(-(DigitsValue(t) as int))
  {
    var s := "-" + t;
    DigitNotSpace(t[|t| - 1]);
    assert s[0] == '-' && s[|s| - 1] == t[|t| - 1] && s[1..] == t;
    StripDigits(s);
  }

  /** Whitespace before a string that starts with a non-space is stripped. */
  lemma {:induction false} StripLeftSpaces(w: string, x: string)
    requires forall i :: 0 <= i < |w| ==> IsSpace(w[i])
    requires x != [] && !IsSpace(x[0])
    ensures StripLeft(w + x) == x
    decreases |w|
  {
    if w == [] {
      assert w + x == x;
    } else {
      assert (w + x)[1..] == w[1..] + x;
      StripLeftSpaces(w[1..], x);
    }
  }

  /** Whitespace after a string that ends with a non-space is stripped. */
  lemma {:induction false} StripRightSpaces(x: string, w: string)
    requires forall i :: 0 <= i < |w| ==> IsSpace(w[i])
    requires x != [] && !IsSpace(x[|x| - 1])
    ensures StripRight(x + w) == x
    decreases |w|
  {
    if w == [] {
      assert x + w == x;
    } else {
      var s := x + w;
      assert s[..|s| - 1] == x + w[..|w| - 1];
      StripRightSpaces(x, w[..|w| - 1]);
    }
  }

  /** `s.strip()` of `x` padded with whitespace on both sides is `x`. */
  lemma StripPadded(w1: string, x: string, w2: string)
    requires forall i :: 0 <= i < |w1| ==> IsSpace(w1[i])
    requires forall i :: 0 <= i < |w2| ==> IsSpace(w2[i])
    requires x != [] && !IsSpace(x[0]) && !IsSpace(x[|x| - 1])
    ensures Strip(w1 + x + w2) == x
  {
    assert w1 + x + w2 == w1 + (x + w2);
    StripLeftSpaces(w1, x + w2);
    StripRightSpaces(x, w2);
  }

  /** Padding with whitespace does not change what `int()` makes of a
      string that starts and ends with a non-space. */
  lemma ParsePaddedAs(w1: string, x: string, w2: string)
    requires forall i :: 0 <= i < |w1| ==> IsSpace(w1[i])
    requires forall i :: 0 <= i < |w2| ==> IsSpace(w2[i])
    requires x != [] && !IsSpace(x[0]) && !IsSpace(x[|x| - 1])
    ensures ParseInt(w1 + x + w2) == ParseInt(x)
  {
    StripPadded(w1, x, w2);
    StripDigits(x);
  }

  /** A plus sign before a digit string keeps its value. */
  lemma ParsePositive(t: string)
    requires IsDigitString(t)
    ensures ParseInt("+" + t) == Some(DigitsValue(t))
  {
    var s := "+" + t;
    DigitNotSpace(t[|t| - 1]);
    assert s[0] == '+' && s[|s| - 1] == t[|t| - 1] && s[1..] == t;
    StripDigits(s);
  }

  /** `int()` of digits with single underscores, padded with whitespace and
      after an optional sign ("", "+" or "-"), is the number the digits
      spell, negated for '-': such strings are accepted, and their value is
      fixed. */
  lemma ParseIntPadded(w1: string, sign: string, t: string, w2: string)
    requires IsDigitString(t)
    requires sign == "" || sign == "+" || sign == "-"
    requires forall i :: 0 <= i < |w1| ==> IsSpace(w1[i])
    requires forall i :: 0 <= i < |w2| ==> IsSpace(w2[i])
    ensures ParseInt(w1 + sign + t + w2) == Some(if sign == "-" then -(DigitsValue(t) as int) else DigitsValue(t))
  {
    var x := sign + t;
    DigitNotSpace(t[0]);
    DigitNotSpace(t[|t| - 1]);
    assert x[|x| - 1] == t[|t| - 1] && x[0] == (if sign == "" then t[0] else sign[0]);
    if sign == "" {
      assert x == t;
      ParseDigits(t);
    } else if sign == "+" {
      ParsePositive(t);
    } else {
      ParseNegative(t);
    }
    ParsePaddedAs(w1, x, w2);
    ConcatAssoc(w1, sign, t, w2);
  }

  lemma ConcatAssoc(a: string, b: string, c: string, d: string)
    ensures a + b + c + d == a + (b + c) + d
  {
  }

  /** `int(str(i)) == i`: the decimal form of every integer parses back to it. */
  lemma ParseIntToString(i: int)
    ensures ParseInt(IntToString(i)) == Some(i)
  {
    var n: nat := if i < 0 then -i else i;
    var digits := Decimal(n);
    DecimalValue(n);
    assert IsDigitString(digits);
    if i < 0 {
      ParseNegative(digits);
    } else {
      ParseDigits(digits);
    }
  }

  // ---------------------------------------------------------------------
  // round(x, 3)
  // ---------------------------------------------------------------------

  /** The integer nearest to x, ties to the even one. */
  function RoundHalfEven(x: real): (n: int)
    ensures -0.5 <= n as real - x <= 0.5
    ensures (n as real - x == 0.5 || x - n as real == 0.5) ==> n % 2 == 0
  {
    var f := x.Floor;
    var frac := x - f as real;
    if frac < 0.5 then f
    else if frac > 0.5 then f + 1
    else if f % 2 == 0 then f else f + 1
  }

  /** `round(x, 3)`: the nearest multiple of 0.001, ties to the even one. */
  function Round3(x: real): (r: real)
    ensures (r * 1000.0).Floor as real == r * 1000.0
    ensures -0.0005 <= r - x <= 0.0005
    ensures r - x == 0.0005 || x - r == 0.0005 ==> (r * 1000.0).Floor % 2 == 0
  {
    var n := RoundHalfEven(x * 1000.0);
    assert (n as real / 1000.0) * 1000.0 == n as real;
    assert n as real / 1000.0 - x == (n as real - x * 1000.0) / 1000.0;
    n as real / 1000.0
  }

  /** A multiple of 0.001 is left as it is, so rounding twice is rounding once. */
  lemma Round3Exact(n: int)
    ensures Round3(n as real / 1000.0) == n as real / 1000.0
  {
    var x := n as real / 1000.0;
    assert x * 1000.0 == n as real;
  }

  lemma Round3Idempotent(x: real)
    ensures Round3(Round3(x)) == Round3(x)
  {
    Round3Exact(RoundHalfEven(x * 1000.0));
  }

  /** `round(v, 3)` on a Python value: ints (and bools) come back as ints,
      floats are rounded, anything else raises TypeError. */
  function RoundValue(v: Value): (r: Result<Value>)
    ensures r.Ok? <==> AsNumber(v).Some?
    ensures r.Ok? ==> AsNumber(r.value).Some?
    ensures r.Ok? && v.Float? ==> -0.0005 <= AsNumber(r.value).value - v.r <= 0.0005
    ensures r.Ok? && !v.Float? ==> AsNumber(r.value) == AsNumber(v)
    ensures v.Float? ==> r == Ok(Float(Round3(v.r)))
    ensures v.Int? ==> r == Ok(v)
    ensures v.Bool? ==> r == Ok(Int(if v.b then 1 else 0))
    ensures r.Err? ==> r.error == TypeError
  {
    match v
    case Int(i) => Ok(Int(i))
    case Bool(b) => Ok(Int(if b then 1 else 0))
    case Float(x) => Ok(Float(Round3(x)))
    case _ => Err(TypeError)
  }

  /** `int(k)` for a dictionary key. */
  function KeyToInt(k: Key): Option<int> {
    match k
    case IntKey(i) => Some(i)
    case StrKey(s) => ParseInt(s)
  }
}
