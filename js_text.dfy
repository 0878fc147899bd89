/**
 * The JavaScript conversions between strings and numbers that the server relies on
 * (`String(n)`, `Number(s)`, `parseInt(s)`, `s.split(c)`, `parts.join(c)`),
 * restricted to integers: every number the core stores or parses is an integer.
 */
module JsText {

  /** A JavaScript number obtained from a string: an integer, or NaN. */
  datatype JsNum = NaN | Num(value: int) {

    /** JavaScript truthiness: 0 and NaN are falsy, every other number is truthy. */
    predicate Truthy() {
      Num? && value != 0
    }
  }

  predicate IsDigit(c: char) {
    '0' <= c <= '9'
  }

  predicate AllDigits(s: string) {
    forall i :: 0 <= i < |s| ==> IsDigit(s[i])
  }

  function DigitChar(d: nat): (c: char)
    requires d < 10
    ensures IsDigit(c)
  {
    ('0' as int + d) as char
  }

  function DigitValue(c: char): (d: nat)
    requires IsDigit(c)
    ensures d < 10
  {
    c as int - '0' as int
  }

  /** Decimal rendering of a natural number, as `String(n)` writes it. */
  function NatToString(n: nat): (s: string)
    ensures |s| > 0 && AllDigits(s)
    ensures n < 10 <==> |s| == 1
  {
    if n < 10 then [DigitChar(n)] else NatToString(n / 10) + [DigitChar(n % 10)]
  }

  /** `String(n)` (and template interpolation `${n}`) for an integer. */
  function IntToString(n: int): (t: string)
    ensures |t| > 0 && (t[0] == '-' <==> n < 0)
    ensures AllDigits(if n < 0 then t[1..] else t) && (n < 0 ==> |t| > 1)
  {
    if n < 0 then "-" + NatToString(-n) else NatToString(n)
  }

  /** `String(v)` for a number read back from a string. */
  function NumToString(n: JsNum): string {
    match n
    case NaN => "NaN"
    case Num(v) => IntToString(v)
  }

  /** The value of a non-empty run of decimal digits. */
  function DigitsValue(s: string): nat
    requires AllDigits(s)
  {
    if s == [] then 0 else DigitsValue(s[..|s| - 1]) * 10 + DigitValue(s[|s| - 1])
  }

  /**
   * `Number(s)`: the empty string is 0, an optionally signed run of decimal digits is
   * its value, anything else is NaN.
   */
  function ToNumber(s: string): (r: JsNum)
    ensures s == "" ==> r == Num(0)
    ensures s != "" && AllDigits(s) ==> r == Num(DigitsValue(s))
    ensures s != "" && !IsDigit(s[0]) && s[0] != '-' && s[0] != '+' ==> r == NaN
    ensures |s| > 1 && !AllDigits(s[1..]) ==> r == NaN
    ensures r.Num? && r.value < 0 ==> s[0] == '-'
  {
    if s == "" then Num(0)
    else if AllDigits(s) then Num(DigitsValue(s))
    else if |s| > 1 && s[0] == '-' && AllDigits(s[1..]) then Num(0 - DigitsValue(s[1..]))
    else if |s| > 1 && s[0] == '+' && AllDigits(s[1..]) then Num(DigitsValue(s[1..]))
    else NaN
  }

  /** The longest prefix of `s` made of decimal digits. */
  function DigitPrefix(s: string): (p: string)
    ensures p <= s && AllDigits(p)
    ensures |p| < |s| ==> !IsDigit(s[|p|])
  {
    if s != [] && IsDigit(s[0]) then [s[0]] + DigitPrefix(s[1..]) else []
  }

  /**
   * `parseInt(s)` and `parseInt(s, 10)`: an optional sign, then the longest run of decimal
   * digits; NaN when there is no digit.
   */
  function ParseInt(s: string): (r: JsNum)
    ensures var u := if s != [] && (s[0] == '-' || s[0] == '+') then s[1..] else s;
      r.NaN? <==> u == [] || !IsDigit(u[0])
    ensures r.Num? && r.value < 0 ==> s[0] == '-'
  {
    var signed := s != [] && (s[0] == '-' || s[0] == '+');
    var digits := DigitPrefix(if signed then s[1..] else s);
    if digits == [] then NaN
    else if signed && s[0] == '-' then Num(0 - DigitsValue(digits))
    else Num(DigitsValue(digits))
  }

  /** `s.split(c)` for a one-character separator. */
  function Split(s: string, c: char): (parts: seq<string>)
    ensures |parts| >= 1
    ensures forall i :: 0 <= i < |parts| ==> c !in parts[i]
  {
    if s == [] then [""]
    else
      var rest := Split(s[1..], c);
      if s[0] == c then [""] + rest else [[s[0]] + rest[0]] + rest[1..]
  }

  /** `parts.join(c)`. */
  function Join(parts: seq<string>, c: char): string
    requires |parts| >= 1
  {
    if |parts| == 1 then parts[0] else parts[0] + [c] + Join(parts[1..], c)
  }

  // ---------------------------------------------------------------------------
  // Round trips

  lemma {:induction false} DigitsValueOfNat(n: nat)
    ensures DigitsValue(NatToString(n)) == n
  {
    if n >= 10 {
      var s := NatToString(n);
      assert s[..|s| - 1] == NatToString(n / 10);
      DigitsValueOfNat(n / 10);
    }
  }

  /** `Number('-' + d)` for a run of digits `d` is minus their value. */
  lemma ToNumberNegated(d: string)
    requires d != [] && AllDigits(d)
    ensures ToNumber("-" + d) == Num(0 - DigitsValue(d))
  {
    var s := "-" + d;
    assert s[1..] == d;
    assert !IsDigit(s[0]);
  }

  /** `Number(String(n)) === n` for every integer. */
  lemma ToNumberOfIntToString(n: int)
    ensures ToNumber(IntToString(n)) == Num(n)
  {
    if n < 0 {
      var d := NatToString(-n);
      assert IntToString(n) == "-" + d;
      ToNumberNegated(d);
      DigitsValueOfNat(-n);
    } else {
      var d := NatToString(n);
      assert IntToString(n) == d;
      DigitsValueOfNat(n);
      assert ToNumber(d) == Num(DigitsValue(d));
    }
  }

  lemma {:induction false} DigitPrefixOfDigits(d: string, rest: string)
    requires AllDigits(d)
    requires rest == [] || !IsDigit(rest[0])
    ensures DigitPrefix(d + rest) == d
  {
    if d != [] {
      assert (d + rest)[1..] == d[1..] + rest;
      DigitPrefixOfDigits(d[1..], rest);
    }
  }

  /** `parseInt(String(n) + rest) === n` for n >= 0 when `rest` does not continue the digits. */
  lemma ParseIntOfNatString(n: nat, rest: string)
    requires rest == [] || !IsDigit(rest[0])
    ensures ParseInt(NatToString(n) + rest) == Num(n)
  {
    var d := NatToString(n);
    var s := d + rest;
    assert s[0] == d[0];
    DigitPrefixOfDigits(d, rest);
    DigitsValueOfNat(n);
  }

  /** `String(n)` holds no character other than a minus sign and digits. */
  lemma IntToStringHasNo(n: int, c: char)
    requires c != '-' && !IsDigit(c)
    ensures c !in IntToString(n)
  {
    var s := IntToString(n);
    forall i | 0 <= i < |s|
      ensures s[i] != c
    {
      if n < 0 && i > 0 {
        assert s[i] == NatToString(-n)[i - 1];
      }
    }
  }

  lemma {:induction false} SplitWithout(a: string, c: char)
    requires c !in a
    ensures Split(a, c) == [a]
  {
    if a != [] {
      assert a[0] in a;
      SplitWithout(a[1..], c);
      assert [a[0]] + a[1..] == a;
    }
  }

  lemma {:induction false} SplitAround(a: string, c: char, b: string)
    requires c !in a
    ensures Split(a + [c] + b, c) == [a] + Split(b, c)
  {
    if a == [] {
      assert a + [c] + b == [c] + b;
    } else {
      assert a[0] in a;
      assert (a + [c] + b)[0] == a[0];
      assert (a + [c] + b)[1..] == a[1..] + [c] + b;
      SplitAround(a[1..], c, b);
      assert [a[0]] + a[1..] == a;
    }
  }

  /** Splitting a join of separator-free parts gives the parts back. */
  lemma {:induction false} SplitJoin(parts: seq<string>, c: char)
    requires |parts| >= 1
    requires forall i :: 0 <= i < |parts| ==> c !in parts[i]
    ensures Split(Join(parts, c), c) == parts
  {
    if |parts| == 1 {
      SplitWithout(parts[0], c);
    } else {
      SplitJoin(parts[1..], c);
      SplitAround(parts[0], c, Join(parts[1..], c));
    }
  }

  /** Joining the pieces of a split gives the string back. */
  lemma {:induction false} JoinSplit(s: string, c: char)
    ensures Join(Split(s, c), c) == s
  {
    if s != [] {
      JoinSplit(s[1..], c);
      var rest := Split(s[1..], c);
      if s[0] != c && |rest| > 1 {
        assert Join(rest, c) == rest[0] + [c] + Join(rest[1..], c);
      }
    }
  }
}
