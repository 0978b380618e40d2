/** The string operations the catalogue relies on from the JavaScript host:
    `Number.prototype.toString` for the integers and hundredths it prints,
    `String.prototype.trim`, `Array.prototype.join`, `String.prototype.split`
    with a one-character separator and `String.prototype.includes`. */
module Text {

  predicate IsDigit(c: char) {
    '0' <= c <= '9'
  }

  predicate AllDigits(s: string) {
    forall i :: 0 <= i < |s| ==> IsDigit(s[i])
  }

  /** The string matches the regular expression `^\d+$`. */
  predicate IsDigitString(s: string) {
    |s| > 0 && AllDigits(s)
  }

  function DigitChar(d: nat): (c: char)
    requires d < 10
    ensures IsDigit(c)
  {
    ('0' as int + d) as char
  }

  function DigitValue(c: char): nat
    requires IsDigit(c)
  {
    c as int - '0' as int
  }

  /** Decimal notation of a natural number, as `n.toString()` prints it:
      digits only, and no leading zero unless the number is 0. */
  function NatToString(n: nat): (s: string)
    ensures IsDigitString(s)
    ensures s[0] == '0' ==> n == 0
    decreases n
  {
    if n < 10 then [DigitChar(n)] else NatToString(n / 10) + [DigitChar(n % 10)]
  }

  /** The value of a string of decimal digits. */
  function DigitsValue(s: string): nat
    requires AllDigits(s)
    decreases |s|
  {
    if s == [] then 0 else DigitsValue(s[..|s| - 1]) * 10 + DigitValue(s[|s| - 1])
  }

  /** Reading back the printed digits gives the number. */
  lemma {:induction false} NatToStringRoundTrip(n: nat)
    ensures DigitsValue(NatToString(n)) == n
    decreases n
  {
    if n >= 10 {
      var p := NatToString(n / 10);
      var s := p + [DigitChar(n % 10)];
      assert s[..|s| - 1] == p;
      NatToStringRoundTrip(n / 10);
    }
  }

  lemma NatToStringInjective(m: nat, n: nat)
    requires NatToString(m) == NatToString(n)
    ensures m == n
  {
    NatToStringRoundTrip(m);
    NatToStringRoundTrip(n);
  }

  /** `i.toString()` for an integer. */
  function IntToString(i: int): (s: string)
    ensures |s| > 0
    ensures s[0] == '-' <==> i < 0
    ensures i >= 0 ==> IsDigitString(s)
  {
    if i < 0 then "-" + NatToString(-i) else NatToString(i)
  }

  /** An optional minus sign followed by decimal digits. */
  predicate IsIntText(s: string) {
    IsDigitString(s) || (|s| > 1 && s[0] == '-' && IsDigitString(s[1..]))
  }

  /** The integer a string of that form denotes. */
  function IntValue(s: string): int
    requires IsIntText(s)
  {
    if s[0] == '-' then -(DigitsValue(s[1..]) as int) else DigitsValue(s)
  }

  /** Reading back the printed integer gives the number. */
  lemma IntToStringRoundTrip(i: int)
    ensures IsIntText(IntToString(i)) && IntValue(IntToString(i)) == i
  {
    if i < 0 {
      var t := NatToString(-i);
      assert ("-" + t)[1..] == t;
      NatToStringRoundTrip(-i);
    } else {
      NatToStringRoundTrip(i);
    }
  }

  /** Different integers print differently. */
  lemma IntToStringInjective(i: int, j: int)
    requires IntToString(i) == IntToString(j)
    ensures i == j
  {
    IntToStringRoundTrip(i);
    IntToStringRoundTrip(j);
  }

  /** `x.toString()` for the number x / 100: the integer part, then a point
      and the fraction without trailing zeros when it is not whole. */
  function HundredthsToString(h: nat): (s: string)
    ensures (h % 100 == 0) <==> AllDigits(s)
  {
    var whole := NatToString(h / 100);
    var frac := h % 100;
    if frac == 0 then whole
    else
      var s := whole + "." + (if frac % 10 == 0 then [DigitChar(frac / 10)]
                              else [DigitChar(frac / 10), DigitChar(frac % 10)]);
      assert !IsDigit(s[|whole|]);
      s
  }

  /** The number of leading decimal digits of `s`. */
  function LeadingDigits(s: string): (k: nat)
    ensures k <= |s| && AllDigits(s[..k])
    ensures k < |s| ==> !IsDigit(s[k])
    decreases |s|
  {
    if s == [] || !IsDigit(s[0]) then 0
    else
      var k := 1 + LeadingDigits(s[1..]);
      assert forall i :: 1 <= i < k ==> s[..k][i] == s[1..][..k - 1][i - 1];
      k
  }

  lemma {:induction false} LeadingDigitsOfDigits(w: string, t: string)
    requires AllDigits(w) && (t == [] || !IsDigit(t[0]))
    ensures LeadingDigits(w + t) == |w|
    decreases |w|
  {
    if w != [] {
      assert (w + t)[1..] == w[1..] + t;
      LeadingDigitsOfDigits(w[1..], t);
    } else {
      assert w + t == t;
    }
  }

  /** Tenths and hundredths written as one or two fraction digits. */
  function FractionValue(d: string): nat
    requires AllDigits(d) && 1 <= |d| <= 2
  {
    if |d| == 1 then DigitValue(d[0]) * 10 else DigitValue(d[0]) * 10 + DigitValue(d[1])
  }

  /** A whole number in decimal digits, optionally followed by a point and
      one or two fraction digits. */
  predicate IsHundredthsText(s: string) {
    var k := LeadingDigits(s);
    k > 0 && (k == |s| || (s[k] == '.' && 2 <= |s| - k <= 3 && AllDigits(s[k + 1..])))
  }

  /** The value of such a string in hundredths. */
  function HundredthsValue(s: string): nat
    requires IsHundredthsText(s)
  {
    var k := LeadingDigits(s);
    DigitsValue(s[..k]) * 100 + (if k == |s| then 0 else FractionValue(s[k + 1..]))
  }

  /** Reading back a printed rating gives it in hundredths: the integer part
      is `h / 100` and the fraction digits are `h % 100`. */
  lemma HundredthsRoundTrip(h: nat)
    ensures IsHundredthsText(HundredthsToString(h))
    ensures HundredthsValue(HundredthsToString(h)) == h
  {
    var w := NatToString(h / 100);
    var s := HundredthsToString(h);
    NatToStringRoundTrip(h / 100);
    var frac := h % 100;
    if frac == 0 {
      LeadingDigitsOfDigits(w, []);
      assert w + [] == w;
      assert s[..|w|] == w;
    } else {
      var d := if frac % 10 == 0 then [DigitChar(frac / 10)]
               else [DigitChar(frac / 10), DigitChar(frac % 10)];
      assert s == w + ("." + d);
      LeadingDigitsOfDigits(w, "." + d);
      assert s[..|w|] == w;
      assert s[|w| + 1..] == d;
    }
  }

  /** Different ratings print differently. */
  lemma HundredthsToStringInjective(g: nat, h: nat)
    requires HundredthsToString(g) == HundredthsToString(h)
    ensures g == h
  {
    HundredthsRoundTrip(g);
    HundredthsRoundTrip(h);
  }

  /** The characters `String.prototype.trim` strips: WhiteSpace and
      LineTerminator of the ECMAScript grammar. */
  predicate IsJsSpace(c: char) {
    c == '\t' || c == '\n' || c == '\U{000B}' || c == '\U{000C}' || c == '\r' || c == ' '
    || c == '\U{00A0}' || c == '\U{1680}' || ('\U{2000}' <= c <= '\U{200A}')
    || c == '\U{2028}' || c == '\U{2029}' || c == '\U{202F}' || c == '\U{205F}'
    || c == '\U{3000}' || c == '\U{FEFF}'
  }

  /** Drops the leading spaces: what is left is a suffix of `s` that does
      not start with a space, and everything dropped was a space. */
  function TrimStart(s: string): (r: string)
    ensures |r| <= |s| && r == s[|s| - |r|..]
    ensures forall i :: 0 <= i < |s| - |r| ==> IsJsSpace(s[i])
    ensures r != [] ==> !IsJsSpace(r[0])
    decreases |s|
  {
    if s != [] && IsJsSpace(s[0]) then TrimStart(s[1..]) else s
  }

  /** Drops the trailing spaces: what is left is a prefix of `s` that does
      not end with a space, and everything dropped was a space. */
  function TrimEnd(s: string): (r: string)
    ensures |r| <= |s| && r == s[..|r|]
    ensures forall i :: |r| <= i < |s| ==> IsJsSpace(s[i])
    ensures r != [] ==> !IsJsSpace(r[|r| - 1])
    decreases |s|
  {
    if s != [] && IsJsSpace(s[|s| - 1]) then TrimEnd(s[..|s| - 1]) else s
  }

  /** `s.trim()`. */
  function Trim(s: string): string {
    TrimEnd(TrimStart(s))
  }

  /** The trimmed string is the slice of `s` between its leading and
      trailing spaces, and only spaces lie outside it. */
  lemma TrimIsInnerSlice(s: string)
    ensures var r, a := Trim(s), |s| - |TrimStart(s)|;
      0 <= a && a + |r| <= |s| && r == s[a..a + |r|]
        && (forall i :: 0 <= i < a ==> IsJsSpace(s[i]))
        && (forall i :: a + |r| <= i < |s| ==> IsJsSpace(s[i]))
  {
    var t := TrimStart(s);
    var r := TrimEnd(t);
    assert Trim(s) == r;
    SliceOfSuffix(s, t, r);
  }

  /** A prefix `r` of a suffix `t` of `s`, with only spaces outside it, is a
      slice of `s` with only spaces outside it. */
  lemma SliceOfSuffix(s: string, t: string, r: string)
    requires |t| <= |s| && t == s[|s| - |t|..]
    requires forall i :: 0 <= i < |s| - |t| ==> IsJsSpace(s[i])
    requires |r| <= |t| && r == t[..|r|]
    requires forall i :: |r| <= i < |t| ==> IsJsSpace(t[i])
    ensures var a := |s| - |t|;
      0 <= a && a + |r| <= |s| && r == s[a..a + |r|]
        && (forall i :: 0 <= i < a ==> IsJsSpace(s[i]))
        && (forall i :: a + |r| <= i < |s| ==> IsJsSpace(s[i]))
  {
    var a := |s| - |t|;
    forall i | a + |r| <= i < |s| ensures IsJsSpace(s[i]) {
      assert s[i] == t[i - a];
    }
  }

  /** The trimmed string neither starts nor ends with a space. */
  lemma TrimHasNoOuterSpace(s: string)
    ensures var r := Trim(s); r != [] ==> !IsJsSpace(r[0]) && !IsJsSpace(r[|r| - 1])
  {
    var t := TrimStart(s);
    var r := TrimEnd(t);
    if r != [] {
      assert r[0] == t[0];
    }
  }

  /** `s.trim()` is empty exactly when `s` is made of spaces only. */
  lemma TrimEmptyIff(s: string)
    ensures Trim(s) == [] <==> forall i :: 0 <= i < |s| ==> IsJsSpace(s[i])
  {
    var t := TrimStart(s);
    if t != [] {
      assert !IsJsSpace(s[|s| - |t|]);
      assert TrimEnd(t) != [] by {
        assert !IsJsSpace(t[0]);
      }
    }
  }

  lemma TrimIdempotent(s: string)
    ensures Trim(Trim(s)) == Trim(s)
  {
    var r := Trim(s);
    TrimHasNoOuterSpace(s);
    assert TrimStart(r) == r;
    assert TrimEnd(r) == r;
  }

  /** `parts.join(sep)`. */
  function Join(parts: seq<string>, sep: string): string
    decreases |parts|
  {
    if |parts| == 0 then ""
    else if |parts| == 1 then parts[0]
    else parts[0] + sep + Join(parts[1..], sep)
  }

  /** `s.split(c)` for a one-character separator: always at least one
      field, the pieces between the separators. */
  function Split(s: string, c: char): (r: seq<string>)
    ensures |r| >= 1
    decreases |s|
  {
    if s == [] then [""]
    else
      var rest := Split(s[1..], c);
      if s[0] == c then [""] + rest else [[s[0]] + rest[0]] + rest[1..]
  }

  lemma {:induction false} SplitWithout(s: string, c: char)
    requires c !in s
    ensures Split(s, c) == [s]
    decreases |s|
  {
    if s != [] {
      SplitWithout(s[1..], c);
      assert [s[0]] + s[1..] == s;
    }
  }

  lemma {:induction false} SplitAt(a: string, c: char, b: string)
    requires c !in a
    ensures Split(a + [c] + b, c) == [a] + Split(b, c)
    decreases |a|
  {
    if a == [] {
      assert a + [c] + b == [c] + b;
      assert ([c] + b)[1..] == b;
    } else {
      var s := a + [c] + b;
      assert s[1..] == a[1..] + [c] + b;
      SplitAt(a[1..], c, b);
      assert [a[0]] + a[1..] == a;
    }
  }

  /** Splitting a join at the separator gives the parts back, provided
      there is at least one part and no part holds the separator. */
  lemma {:induction false} SplitJoinRoundTrip(parts: seq<string>, c: char)
    requires |parts| > 0
    requires forall i :: 0 <= i < |parts| ==> c !in parts[i]
    ensures Split(Join(parts, [c]), c) == parts
    decreases |parts|
  {
    if |parts| == 1 {
      SplitWithout(parts[0], c);
    } else {
      SplitJoinRoundTrip(parts[1..], c);
      SplitAt(parts[0], c, Join(parts[1..], [c]));
      assert [parts[0]] + parts[1..] == parts;
    }
  }

  /** `s.includes(sub)`. */
  predicate Contains(s: string, sub: string)
    decreases |s|
  {
    if |s| < |sub| then false else s[..|sub|] == sub || Contains(s[1..], sub)
  }

  /** A string holds a non-empty substring only if it holds its first
      character. */
  lemma {:induction false} ContainsFirstChar(s: string, sub: string)
    requires |sub| > 0 && Contains(s, sub)
    ensures sub[0] in s
    decreases |s|
  {
    if s[..|sub|] == sub {
      assert s[0] == sub[0];
    } else {
      ContainsFirstChar(s[1..], sub);
    }
  }

  /** A string without the first character of `sub` does not hold `sub`. */
  lemma MissingFirstChar(s: string, sub: string)
    requires |sub| > 0 && sub[0] !in s
    ensures !Contains(s, sub)
  {
    if Contains(s, sub) {
      ContainsFirstChar(s, sub);
    }
  }
}
