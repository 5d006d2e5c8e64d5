/** The few JavaScript built-ins the frontend's arithmetic rests on: integral
    numbers with NaN, `parseInt(s, 10)`, indexing that may be `undefined`,
    and `Array.prototype.slice` with its index resolution. */
module JsRuntime {
  import opened Wrappers
  import opened Text

  /** An integral JavaScript number, or NaN. */
  datatype JsNumber = NaN | Num(n: int)

  /** `a + b`: NaN is contagious. */
  function Add(a: JsNumber, b: int): JsNumber {
    match a
    case NaN => NaN
    case Num(x) => Num(x + b)
  }

  function Max(a: int, b: int): int { if a < b then b else a }
  function Min(a: int, b: int): int { if a < b then a else b }

  /** `Math.min(a, b)`: NaN if either is NaN. */
  function JsMin(a: JsNumber, b: int): (r: JsNumber)
    ensures a.NaN? <==> r.NaN?
    ensures a.Num? ==> r.n <= a.n && r.n <= b && (r.n == a.n || r.n == b)
  {
    match a
    case NaN => NaN
    case Num(x) => Num(Min(x, b))
  }

  /** `s[k]`: `undefined` (None) for NaN, for a negative index and past the end. */
  function At<T>(s: seq<T>, k: JsNumber): (r: Option<T>)
    ensures r.Some? <==> k.Num? && 0 <= k.n < |s|
    ensures r.Some? ==> r.value == s[k.n]
  {
    if k.Num? && 0 <= k.n < |s| then Some(s[k.n]) else None
  }

  /** How `slice` resolves an index against a length: NaN is 0, a negative
      index counts from the end (but not before 0), and an index past the
      end is the end. */
  function RelativeIndex(k: JsNumber, len: nat): (i: nat)
    ensures i <= len
    ensures k.Num? && 0 <= k.n <= len ==> i == k.n
    ensures k.NaN? ==> i == 0
  {
    match k
    case NaN => 0
    case Num(x) => if x < 0 then Max(len + x, 0) else Min(x, len)
  }

  /** `s.slice(start, end)`: the elements from the resolved start up to the
      resolved end, in order, and nothing when the end is not after the start. */
  function Slice<T>(s: seq<T>, start: JsNumber, end: JsNumber): (r: seq<T>)
    ensures var from, to := RelativeIndex(start, |s|), RelativeIndex(end, |s|);
            && |r| == (if from < to then to - from else 0)
            && forall i :: 0 <= i < |r| ==> r[i] == s[from + i]
  {
    var from, to := RelativeIndex(start, |s|), RelativeIndex(end, |s|);
    if from < to then s[from..to] else []
  }

  /** The characters `parseInt` skips in front (the common ones). */
  predicate IsSpace(ch: char) {
    ch == ' ' || ch == '\t' || ch == '\n' || ch == '\r' || ch == '\U{000B}' || ch == '\U{000C}' ||
    ch == '\U{00A0}' || ch == '\U{FEFF}'
  }

  function SkipSpaces(s: string): (t: string)
    ensures |t| <= |s|
    ensures t != [] ==> !IsSpace(t[0])
  {
    if s != [] && IsSpace(s[0]) then SkipSpaces(s[1..]) else s
  }

  /** The longest prefix of decimal digits. */
  function DigitPrefix(s: string): (d: string)
    ensures |d| <= |s| && AllDigits(d)
    ensures |d| < |s| ==> !IsDigit(s[|d|])
  {
    if s != [] && IsDigit(s[0]) then
      var rest := DigitPrefix(s[1..]);
      [s[0]] + rest
    else []
  }

  /** The digit prefix is a prefix of the text. */
  lemma DigitPrefixIsPrefix(s: string)
    ensures DigitPrefix(s) == s[..|DigitPrefix(s)|]
  {
    if s != [] && IsDigit(s[0]) {
      DigitPrefixIsPrefix(s[1..]);
      assert s[..|DigitPrefix(s)|] == [s[0]] + s[1..][..|DigitPrefix(s[1..])|];
    }
  }

  /** `parseInt(s, 10)`: spaces, an optional sign, then as many digits as
      there are; no digit at all is NaN, and whatever follows is ignored. */
  function ParseInt(s: string): (r: JsNumber)
    ensures SkipSpaces(s) == "" ==> r.NaN?
  {
    ParseSigned(SkipSpaces(s))
  }

  /** The sign, then the digits. */
  function ParseSigned(t: string): JsNumber {
    if t != [] && t[0] == '-' then Negate(ParseDigits(t[1..]))
    else if t != [] && t[0] == '+' then ParseDigits(t[1..])
    else ParseDigits(t)
  }

  /** The value of the digit prefix, NaN when there is none. */
  function ParseDigits(b: string): (r: JsNumber)
    ensures r.NaN? <==> DigitPrefix(b) == []
  {
    var digits := DigitPrefix(b);
    if digits == [] then NaN else Num(DigitsValue(digits))
  }

  function Negate(a: JsNumber): JsNumber {
    match a
    case NaN => NaN
    case Num(x) => Num(0 - x)
  }

  lemma DigitPrefixOfDigits(s: string, rest: string)
    requires AllDigits(s) && (rest == [] || !IsDigit(rest[0]))
    ensures DigitPrefix(s + rest) == s
  {
    if s != [] {
      assert (s + rest)[1..] == s[1..] + rest;
      DigitPrefixOfDigits(s[1..], rest);
    } else {
      assert s + rest == rest;
    }
  }

  /** Unsigned digits followed by a non-digit parse to their value. */
  lemma ParseIntOfDigits(p: string, rest: string)
    requires p != [] && AllDigits(p) && (rest == [] || !IsDigit(rest[0]))
    ensures ParseInt(p + rest) == Num(DigitsValue(p))
  {
    var s := p + rest;
    assert s[0] == p[0];
    assert SkipSpaces(s) == s;
    DigitPrefixOfDigits(p, rest);
    assert ParseDigits(s) == Num(DigitsValue(p));
  }

  /** With a leading minus sign they parse to the negated value. */
  lemma ParseIntOfNegatedDigits(p: string, rest: string)
    requires p != [] && AllDigits(p) && (rest == [] || !IsDigit(rest[0]))
    ensures ParseInt("-" + (p + rest)) == Num(0 - DigitsValue(p))
  {
    var s := "-" + (p + rest);
    assert s[0] == '-' && s[1..] == p + rest;
    assert SkipSpaces(s) == s;
    DigitPrefixOfDigits(p, rest);
    assert ParseDigits(s[1..]) == Num(DigitsValue(p));
  }

  /** `parseInt` reads back an integer printed in decimal, with any text
      after the digits ignored. */
  lemma ParseIntOfIntToString(i: int, rest: string)
    requires rest == [] || !IsDigit(rest[0])
    ensures ParseInt(IntToString(i) + rest) == Num(i)
  {
    if i < 0 {
      var p := NatToString(-i);
      NatToStringValue(-i);
      ParseIntOfNegatedDigits(p, rest);
      AppendAssoc("-", p, rest);
    } else {
      NatToStringValue(i);
      ParseIntOfDigits(NatToString(i), rest);
    }
  }

  /** Text that does not start with a digit after the spaces and sign is NaN. */
  lemma ParseIntNoDigits(s: string)
    requires forall i :: 0 <= i < |s| ==> !IsDigit(s[i])
    ensures ParseInt(s).NaN?
  {
    var t := SkipSpaces(s);
    SkipSpacesSuffix(s);
    var body := if t != [] && (t[0] == '-' || t[0] == '+') then t[1..] else t;
    if body != [] {
      assert body[0] in s;
    }
  }

  lemma SkipSpacesSuffix(s: string)
    ensures SkipSpaces(s) == s[|s| - |SkipSpaces(s)|..]
  {
    if s != [] && IsSpace(s[0]) {
      SkipSpacesSuffix(s[1..]);
    }
  }
}
