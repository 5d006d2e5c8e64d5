/** String operations shared by the Go services and the TypeScript frontend.

    - `Split` is Go's `strings.Split` and JavaScript's `String.prototype.split`
      for a one-character separator (the two agree there: n separators give
      n + 1 pieces, empty pieces are kept, and "" gives [""]).
    - `Trim` is Go's `strings.Trim` with a one-character cutset.
    - `NatToString`/`IntToString` are `%d` formatting (and JavaScript's number
      to string conversion for integers); `Atoi` is Go's `strconv.Atoi` on a
      64-bit platform. */
module Text {
  import opened Wrappers

  // ---------------------------------------------------------------------
  // Splitting and joining

  function Split(s: string, sep: char): (parts: seq<string>)
    ensures |parts| >= 1
    ensures forall i :: 0 <= i < |parts| ==> sep !in parts[i]
  {
    if |s| == 0 then [""]
    else
      var rest := Split(s[1..], sep);
      if s[0] == sep then [""] + rest
      else [[s[0]] + rest[0]] + rest[1..]
  }

  /** Go's `strings.Join`: the pieces with one separator between neighbours. */
  function Join(parts: seq<string>, sep: char): string
  {
    if |parts| == 0 then ""
    else if |parts| == 1 then parts[0]
    else parts[0] + [sep] + Join(parts[1..], sep)
  }

  /** A string without the separator is one piece. */
  lemma {:induction false} SplitWithoutSeparator(s: string, sep: char)
    requires sep !in s
    ensures Split(s, sep) == [s]
  {
    if |s| > 0 {
      assert sep !in s[1..] by {
        forall i | 0 <= i < |s[1..]| ensures s[1..][i] != sep { assert s[1..][i] == s[i + 1]; }
      }
      SplitWithoutSeparator(s[1..], sep);
      assert [s[0]] + s[1..] == s;
    }
  }

  /** One step of `Split`: the first character either ends the first piece
      or joins it. */
  lemma SplitCons(c: char, t: string, sep: char)
    ensures Split([c] + t, sep)
         == if c == sep then [""] + Split(t, sep) else [[c] + Split(t, sep)[0]] + Split(t, sep)[1..]
  {
    assert ([c] + t)[1..] == t;
  }

  /** Splitting at one separator splits the two sides independently. */
  /** The inductive step of `SplitConcat`: a character put in front of both
      `tail` and `tail.b` keeps the split of `tail.b` the split of `tail`
      followed by that of `b`. */
  lemma SplitConcatStep(c: char, tail: string, b: string, sep: char)
    requires Split(tail + [sep] + b, sep) == Split(tail, sep) + Split(b, sep)
    ensures Split([c] + tail + [sep] + b, sep) == Split([c] + tail, sep) + Split(b, sep)
  {
    assert [c] + tail + [sep] + b == [c] + (tail + [sep] + b);
    SplitCons(c, tail + [sep] + b, sep);
    SplitCons(c, tail, sep);
    if c == sep {
      AppendAssoc([""], Split(tail, sep), Split(b, sep));
    } else {
      ConsFirstPiece([c], Split(tail, sep), Split(b, sep));
    }
  }

  lemma AppendAssoc<T>(x: seq<T>, y: seq<T>, z: seq<T>)
    ensures x + (y + z) == (x + y) + z
  {
  }

  /** Gluing a prefix to the first piece commutes with appending pieces. */
  lemma ConsFirstPiece(p: string, ra: seq<string>, rb: seq<string>)
    requires |ra| >= 1
    ensures [p + (ra + rb)[0]] + (ra + rb)[1..] == ([p + ra[0]] + ra[1..]) + rb
  {
    assert (ra + rb)[0] == ra[0];
    assert (ra + rb)[1..] == ra[1..] + rb;
  }

  lemma {:induction false} SplitConcat(a: string, b: string, sep: char)
    ensures Split(a + [sep] + b, sep) == Split(a, sep) + Split(b, sep)
  {
    if |a| == 0 {
      assert a + [sep] + b == [sep] + b;
      SplitCons(sep, b, sep);
    } else {
      SplitConcat(a[1..], b, sep);
      SplitConcatStep(a[0], a[1..], b, sep);
      assert [a[0]] + a[1..] == a;
    }
  }

  /** Splitting `a.t.g.z` where `a` and `z` are single tokens. */
  lemma SplitFourParts(a: string, t: string, g: string, z: string, sep: char)
    requires sep !in a && sep !in z
    ensures Split(a + [sep] + t + [sep] + g + [sep] + z, sep) == [a] + Split(t, sep) + Split(g, sep) + [z]
  {
    var tail := g + [sep] + z;
    SplitThreeParts(a, t, tail, sep);
    assert a + [sep] + t + [sep] + g + [sep] + z == a + [sep] + t + [sep] + tail;
    SplitConcat(g, z, sep);
    SplitWithoutSeparator(z, sep);
    assert [a] + Split(t, sep) + (Split(g, sep) + [z]) == [a] + Split(t, sep) + Split(g, sep) + [z];
  }

  /** Splitting `a.t.z` where `a` is a single token. */
  lemma SplitThreeParts(a: string, t: string, z: string, sep: char)
    requires sep !in a
    ensures Split(a + [sep] + t + [sep] + z, sep) == [a] + Split(t, sep) + Split(z, sep)
  {
    var tail := t + [sep] + z;
    assert a + [sep] + t + [sep] + z == a + [sep] + tail;
    SplitConcat(a, tail, sep);
    SplitConcat(t, z, sep);
    SplitWithoutSeparator(a, sep);
  }

  /** Joining the pieces of a split gives the string back. */
  lemma {:induction false} JoinSplit(s: string, sep: char)
    ensures Join(Split(s, sep), sep) == s
  {
    if |s| > 0 {
      JoinSplit(s[1..], sep);
      var rest := Split(s[1..], sep);
      if s[0] == sep {
        assert ([""] + rest)[1..] == rest;
        assert s == [sep] + s[1..];
      } else {
        var parts := [[s[0]] + rest[0]] + rest[1..];
        if |rest| == 1 {
          assert parts == [[s[0]] + rest[0]];
          assert s == [s[0]] + s[1..];
        } else {
          assert parts[1..] == rest[1..];
          assert Join(rest, sep) == rest[0] + [sep] + Join(rest[1..], sep);
          assert s == [s[0]] + s[1..];
        }
      }
    }
  }

  /** A string is cut uniquely at its first separator. */
  lemma CutAtFirst(a: string, b: string, a': string, b': string, sep: char)
    requires sep !in a && sep !in a'
    requires a + [sep] + b == a' + [sep] + b'
    ensures a == a' && b == b'
  {
    SplitConcat(a, b, sep);
    SplitConcat(a', b', sep);
    SplitWithoutSeparator(a, sep);
    SplitWithoutSeparator(a', sep);
    assert ([a] + Split(b, sep))[0] == a;
    assert ([a'] + Split(b', sep))[0] == a';
    assert ([a] + Split(b, sep))[1..] == Split(b, sep);
    assert ([a'] + Split(b', sep))[1..] == Split(b', sep);
    JoinSplit(b, sep);
    JoinSplit(b', sep);
  }

  // ---------------------------------------------------------------------
  // Prefixes, suffixes and trimming

  predicate StartsWith(s: string, prefix: string) {
    |prefix| <= |s| && s[..|prefix|] == prefix
  }

  predicate EndsWith(s: string, suffix: string) {
    |suffix| <= |s| && s[|s| - |suffix|..] == suffix
  }

  /** The end of the run of `c` that starts at index `i`. */
  function LeadingRun(s: string, c: char, i: nat): (k: nat)
    requires i <= |s|
    ensures i <= k <= |s| && (k < |s| ==> s[k] != c)
    ensures forall j :: i <= j < k ==> s[j] == c
    decreases |s| - i
  {
    if i < |s| && s[i] == c then LeadingRun(s, c, i + 1) else i
  }

  /** The start of the run of `c` that ends just before index `j`. */
  function TrailingRun(s: string, c: char, j: nat): (k: nat)
    requires j <= |s|
    ensures k <= j && (k > 0 ==> s[k - 1] != c)
    ensures forall i :: k <= i < j ==> s[i] == c
  {
    if j > 0 && s[j - 1] == c then TrailingRun(s, c, j - 1) else j
  }

  /** Drops every leading `c`. */
  function TrimLeft(s: string, c: char): (t: string)
    ensures |t| <= |s| && t == s[|s| - |t|..]
    ensures t != [] ==> t[0] != c
    ensures forall i :: 0 <= i < |s| - |t| ==> s[i] == c
  {
    s[LeadingRun(s, c, 0)..]
  }

  /** Drops every trailing `c`. */
  function TrimRight(s: string, c: char): (t: string)
    ensures |t| <= |s| && t == s[..|t|]
    ensures t != [] ==> t[|t| - 1] != c
    ensures forall i :: |t| <= i < |s| ==> s[i] == c
  {
    s[..TrailingRun(s, c, |s|)]
  }

  /** Go's `strings.Trim(s, string(c))`. */
  function Trim(s: string, c: char): (t: string)
    ensures |t| <= |s|
    ensures t != [] ==> t[0] != c && t[|t| - 1] != c
    ensures t == [] <==> forall i :: 0 <= i < |s| ==> s[i] == c
  {
    var l := TrimLeft(s, c);
    var t := TrimRight(l, c);
    assert t != [] ==> t[0] == l[0];
    assert l != [] ==> t != [];
    t
  }

  /** Trimming removes only copies of `c` at the two ends: the result is the
      interior of the string, in place. */
  lemma {:induction false} TrimKeepsInterior(s: string, c: char)
    ensures var k := |s| - |TrimLeft(s, c)|;
            var t := Trim(s, c);
            && k + |t| <= |s|
            && s == s[..k] + t + s[k + |t|..]
            && Only(s[..k], c)
            && Only(s[k + |t|..], c)
  {
    TrimSidesKeepInterior(s, c);
    assert Trim(s, c) == TrimRight(TrimLeft(s, c), c);
  }

  /** The same for the two halves of `Trim`, one after the other. */
  lemma {:induction false} TrimSidesKeepInterior(s: string, c: char)
    ensures var k := |s| - |TrimLeft(s, c)|;
            var t := TrimRight(TrimLeft(s, c), c);
            && k + |t| <= |s|
            && s == s[..k] + t + s[k + |t|..]
            && Only(s[..k], c)
            && Only(s[k + |t|..], c)
  {
    var l := TrimLeft(s, c);
    var t := TrimRight(l, c);
    TrimPieces(s, l, t, c);
  }

  /** Every character of `s` is `c`. */
  predicate Only(s: string, c: char) {
    forall i :: 0 <= i < |s| ==> s[i] == c
  }

  /** The same, for any `l` that `s` ends with after a run of `c`, and any `t`
      that `l` starts with before a run of `c`. */
  lemma {:induction false} TrimPieces(s: string, l: string, t: string, c: char)
    requires |l| <= |s| && l == s[|s| - |l|..] && forall i :: 0 <= i < |s| - |l| ==> s[i] == c
    requires |t| <= |l| && t == l[..|t|] && forall i :: |t| <= i < |l| ==> l[i] == c
    ensures var k := |s| - |l|;
            && k + |t| <= |s|
            && s == s[..k] + t + s[k + |t|..]
            && Only(s[..k], c)
            && Only(s[k + |t|..], c)
  {
    var k := |s| - |l|;
    assert t == s[k..k + |t|];
    forall i | k + |t| <= i < |s| ensures s[i] == c {
      assert s[i] == l[i - k];
    }
    CutInThree(s, k, k + |t|);
  }

  lemma CutInThree(s: string, i: nat, j: nat)
    requires i <= j <= |s|
    ensures s == s[..i] + s[i..j] + s[j..]
  {
    assert s[..j] == s[..i] + s[i..j];
    assert s == s[..j] + s[j..];
  }

  /** Trimming twice is trimming once. */
  lemma TrimIdempotent(s: string, c: char)
    ensures Trim(Trim(s, c), c) == Trim(s, c)
  {
    var t := Trim(s, c);
    assert TrimLeft(t, c) == t;
    assert TrimRight(t, c) == t;
  }

  /** An extra `c` in front or behind changes nothing. */
  lemma TrimLeftAppend(s: string, c: char)
    ensures TrimLeft(s + [c], c) == if TrimLeft(s, c) == [] then [] else TrimLeft(s, c) + [c]
  {
    LeadingRunAppend(s, c, 0);
    var k := LeadingRun(s, c, 0);
    if k < |s| {
      assert (s + [c])[k..] == s[k..] + [c];
    }
  }

  lemma {:induction false} LeadingRunAppend(s: string, c: char, i: nat)
    requires i <= |s|
    ensures LeadingRun(s + [c], c, i) == if LeadingRun(s, c, i) == |s| then |s| + 1 else LeadingRun(s, c, i)
    decreases |s| - i
  {
    assert (s + [c])[i] == if i < |s| then s[i] else c;
    if i < |s| && s[i] == c {
      LeadingRunAppend(s, c, i + 1);
    } else if i == |s| {
      assert LeadingRun(s + [c], c, i + 1) == i + 1;
    }
  }

  lemma TrimIgnoresOuterSeparators(s: string, c: char)
    ensures Trim([c] + s, c) == Trim(s, c)
    ensures Trim(s + [c], c) == Trim(s, c)
  {
    TrimIgnoresLeadingSeparator(s, c);
    TrimIgnoresTrailingSeparator(s, c);
  }

  lemma TrimIgnoresLeadingSeparator(s: string, c: char)
    ensures Trim([c] + s, c) == Trim(s, c)
  {
    assert ([c] + s)[1..] == s;
    assert TrimLeft([c] + s, c) == TrimLeft(s, c);
  }

  lemma TrimIgnoresTrailingSeparator(s: string, c: char)
    ensures Trim(s + [c], c) == Trim(s, c)
  {
    TrimLeftAppend(s, c);
    var l := TrimLeft(s, c);
    TrimRightAppend(l, c);
    assert Trim(s + [c], c) == TrimRight(TrimLeft(s + [c], c), c);
    assert Trim(s, c) == TrimRight(l, c);
  }

  lemma TrimRightAppend(s: string, c: char)
    ensures TrimRight(s + [c], c) == TrimRight(s, c)
  {
    assert (s + [c])[|s|] == c;
    assert TrailingRun(s + [c], c, |s| + 1) == TrailingRun(s + [c], c, |s|);
    TrailingRunAppend(s, c, |s|);
    assert (s + [c])[..TrailingRun(s, c, |s|)] == s[..TrailingRun(s, c, |s|)];
  }

  lemma {:induction false} TrailingRunAppend(s: string, c: char, j: nat)
    requires j <= |s|
    ensures TrailingRun(s + [c], c, j) == TrailingRun(s, c, j)
  {
    if j > 0 {
      assert (s + [c])[j - 1] == s[j - 1];
      if s[j - 1] == c {
        TrailingRunAppend(s, c, j - 1);
      }
    }
  }

  // ---------------------------------------------------------------------
  // Decimal numerals

  predicate IsDigit(ch: char) { '0' <= ch <= '9' }

  predicate AllDigits(s: string) { forall i :: 0 <= i < |s| ==> IsDigit(s[i]) }

  function DigitValue(ch: char): nat
    requires IsDigit(ch)
  {
    ch as int - '0' as int
  }

  /** The value of a string of decimal digits, most significant first. */
  function DigitsValue(s: string): nat
    requires AllDigits(s)
  {
    if |s| == 0 then 0 else DigitsValue(s[..|s| - 1]) * 10 + DigitValue(s[|s| - 1])
  }

  function DigitChar(d: nat): (ch: char)
    requires d < 10
    ensures IsDigit(ch) && DigitValue(ch) == d
  {
    ('0' as int + d) as char
  }

  /** `%d` of a non-negative number: canonical decimal, no sign, no leading zero. */
  function NatToString(n: nat): (s: string)
    ensures |s| >= 1 && AllDigits(s)
    ensures s[0] == '0' ==> n == 0
  {
    if n < 10 then [DigitChar(n)] else NatToString(n / 10) + [DigitChar(n % 10)]
  }

  lemma {:induction false} NatToStringValue(n: nat)
    ensures DigitsValue(NatToString(n)) == n
  {
    if n >= 10 {
      var s := NatToString(n);
      NatToStringValue(n / 10);
      assert s[..|s| - 1] == NatToString(n / 10);
    }
  }

  /** Different numbers are printed differently. */
  lemma NatToStringInjective(m: nat, n: nat)
    requires NatToString(m) == NatToString(n)
    ensures m == n
  {
    NatToStringValue(m);
    NatToStringValue(n);
  }

  /** `%d` of any integer, and JavaScript's printing of an integral number. */
  function IntToString(i: int): (s: string)
    ensures i >= 0 ==> s == NatToString(i)
    ensures i < 0 ==> s == "-" + NatToString(-i)
  {
    if i < 0 then "-" + NatToString(-i) else NatToString(i)
  }

  const MinInt64: int := -0x8000_0000_0000_0000
  const MaxInt64: int := 0x7FFF_FFFF_FFFF_FFFF

  /** Go's `strconv.Atoi` for a 64-bit `int`: an optional `+` or `-`, then at
      least one decimal digit and nothing else (no spaces, no underscores);
      a value outside the 64-bit range is an error like a malformed one. */
  function Atoi(s: string): (r: Option<int>)
    ensures r.Some? ==> MinInt64 <= r.value <= MaxInt64
    ensures r.Some? <==>
              && |s| > 0
              && (s[0] == '-' ==> |s| > 1 && AllDigits(s[1..]) && DigitsValue(s[1..]) <= -MinInt64)
              && (s[0] == '+' ==> |s| > 1 && AllDigits(s[1..]) && DigitsValue(s[1..]) <= MaxInt64)
              && (s[0] != '-' && s[0] != '+' ==> AllDigits(s) && DigitsValue(s) <= MaxInt64)
    ensures r.Some? && s[0] == '-' ==> r.value == 0 - DigitsValue(s[1..])
    ensures r.Some? && s[0] == '+' ==> r.value == DigitsValue(s[1..])
    ensures r.Some? && s[0] != '-' && s[0] != '+' ==> r.value == DigitsValue(s)
  {
    if |s| == 0 then None
    else
      var negative := s[0] == '-';
      var digits := if s[0] == '-' || s[0] == '+' then s[1..] else s;
      if |digits| == 0 || !AllDigits(digits) then None
      else
        var v: int := if negative then 0 - (DigitsValue(digits) as int) else DigitsValue(digits);
        if MinInt64 <= v <= MaxInt64 then Some(v) else None
  }

  /** `Atoi` reads back what `%d` prints. */
  lemma AtoiOfNatToString(n: nat)
    requires n <= MaxInt64
    ensures Atoi(NatToString(n)) == Some(n)
  {
    NatToStringValue(n);
  }

  /** Leading zeros do not change the value of a numeral. */
  lemma {:induction false} LeadingZeroValue(d: string)
    requires AllDigits(d)
    ensures AllDigits("0" + d) && DigitsValue("0" + d) == DigitsValue(d)
  {
    var z := "0" + d;
    assert AllDigits(z) by {
      forall i | 0 <= i < |z| ensures IsDigit(z[i]) {
        if i > 0 { assert z[i] == d[i - 1]; }
      }
    }
    if d != [] {
      var init := d[..|d| - 1];
      LeadingZeroValue(init);
      assert z[..|z| - 1] == "0" + init;
      assert z[|z| - 1] == d[|d| - 1];
    }
  }

  /** `Atoi` takes numerals with leading zeros, not just the one `%d` prints. */
  lemma AtoiAcceptsLeadingZeros()
    ensures Atoi("007") == Some(7)
  {
    LeadingZeroValue("7");
    LeadingZeroValue("07");
    assert "0" + "07" == "007" && "0" + "7" == "07";
  }

  /** A `+` is accepted and a `-` negates, `-0` included. */
  lemma AtoiAcceptsSigns()
    ensures Atoi("+7") == Some(7)
    ensures Atoi("-3") == Some(-3)
    ensures Atoi("-0") == Some(0)
  {
    assert "+7"[1..] == "7" && "-3"[1..] == "3" && "-0"[1..] == "0";
    assert "7"[..0] == "3"[..0] == "0"[..0] == "";
  }

  /** Inputs `Atoi` refuses: empty, a bare sign, and anything with a character
      that is not a digit after the optional sign. */
  lemma AtoiRejects(s: string)
    requires s == "" || s == "+" || s == "-" || (|s| > 0 && !IsDigit(s[|s| - 1]))
    ensures Atoi(s) == None
  {
    if |s| > 0 && !IsDigit(s[|s| - 1]) && s != "+" && s != "-" {
      var digits := if s[0] == '-' || s[0] == '+' then s[1..] else s;
      assert digits[|digits| - 1] == s[|s| - 1];
    }
  }
}
