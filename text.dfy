/** String helpers with the semantics of the JavaScript string operations
    that the pages use: the `\s` and `\d` regular-expression classes,
    `replace(/…/g, "")`, `trim`, `Number.prototype.toString` on whole
    numbers and `padStart`. */
module Text {

  /** The characters matched by the JavaScript class `\s`; `trim` removes
      exactly these (white space and line terminators). */
  predicate IsWhitespace(c: char) {
    || c == ' ' || c == '\t' || c == '\n' || c == '\U{0B}' || c == '\U{0C}' || c == '\r'
    || c == '\U{A0}' || c == '\U{1680}' || ('\U{2000}' <= c <= '\U{200A}')
    || c == '\U{2028}' || c == '\U{2029}' || c == '\U{202F}' || c == '\U{205F}'
    || c == '\U{3000}' || c == '\U{FEFF}'
  }

  /** The characters matched by the JavaScript class `\d` (ASCII digits only). */
  predicate IsDigit(c: char) {
    '0' <= c <= '9'
  }

  predicate AllDigits(s: string) {
    forall i :: 0 <= i < |s| ==> IsDigit(s[i])
  }

  predicate NoWhitespace(s: string) {
    forall i :: 0 <= i < |s| ==> !IsWhitespace(s[i])
  }

  predicate AllWhitespace(s: string) {
    forall i :: 0 <= i < |s| ==> IsWhitespace(s[i])
  }

  /** The characters of `s` that satisfy `p`, in order: what
      `s.replace(/[^p]/g, "")` leaves. */
  function Keep(s: string, p: char -> bool): (r: string)
    ensures |r| <= |s|
    ensures forall i :: 0 <= i < |r| ==> p(r[i])
    ensures (forall i :: 0 <= i < |s| ==> p(s[i])) ==> r == s
    ensures (forall i :: 0 <= i < |s| ==> !p(s[i])) ==> r == []
  {
    if s == [] then []
    else if p(s[0]) then [s[0]] + Keep(s[1..], p)
    else Keep(s[1..], p)
  }

  lemma {:induction false} KeepAppend(a: string, b: string, p: char -> bool)
    ensures Keep(a + b, p) == Keep(a, p) + Keep(b, p)
  {
    if a == [] {
      assert a + b == b;
    } else {
      assert (a + b)[1..] == a[1..] + b;
      KeepAppend(a[1..], b, p);
    }
  }

  /** A character dropped by the filter leaves only the two sides. */
  lemma KeepAround(a: string, c: char, b: string, p: char -> bool)
    requires !p(c)
    ensures Keep(a + [c] + b, p) == Keep(a, p) + Keep(b, p)
  {
    var t := [c] + b;
    assert t[0] == c && t[1..] == b;
    assert Keep(t, p) == Keep(b, p);
    assert a + [c] + b == a + t;
    KeepAppend(a, t, p);
  }

  /** Stripping white space works piece by piece. */
  lemma StripSplit(s: string, k: nat)
    requires k <= |s|
    ensures StripWhitespace(s) == StripWhitespace(s[..k]) + StripWhitespace(s[k..])
  {
    KeepAppend(s[..k], s[k..], NotWhitespace);
    assert s == s[..k] + s[k..];
  }

  function NotWhitespace(c: char): bool { !IsWhitespace(c) }

  /** `s.replace(/\s/g, "")` */
  function StripWhitespace(s: string): (r: string)
    ensures NoWhitespace(r)
    ensures NoWhitespace(s) ==> r == s
    ensures AllWhitespace(s) ==> r == []
  {
    Keep(s, NotWhitespace)
  }

  /** `s.replace(/\D/g, "")` */
  function KeepDigits(s: string): (r: string)
    ensures AllDigits(r)
    ensures AllDigits(s) ==> r == s
  {
    Keep(s, IsDigit)
  }

  /** `s.replace(/\s/g, c)`: every white-space character becomes `c`. */
  function ReplaceWhitespace(s: string, c: char): (r: string)
    ensures |r| == |s|
    ensures forall i :: 0 <= i < |s| ==> r[i] == (if IsWhitespace(s[i]) then c else s[i])
    ensures !IsWhitespace(c) ==> NoWhitespace(r)
  {
    if s == [] then []
    else [if IsWhitespace(s[0]) then c else s[0]] + ReplaceWhitespace(s[1..], c)
  }

  /** `trimStart`: drops the leading white space. */
  function TrimStart(s: string): (r: string)
    ensures |r| <= |s| && r == s[|s| - |r|..]
    ensures AllWhitespace(s[..|s| - |r|])
    ensures r == [] || !IsWhitespace(r[0])
  {
    if s != [] && IsWhitespace(s[0]) then TrimStart(s[1..]) else s
  }

  /** `trimEnd`: drops the trailing white space. */
  function TrimEnd(s: string): (r: string)
    ensures |r| <= |s| && r == s[..|r|]
    ensures AllWhitespace(s[|r|..])
    ensures r == [] || !IsWhitespace(r[|r| - 1])
  {
    if s != [] && IsWhitespace(s[|s| - 1]) then TrimEnd(s[..|s| - 1]) else s
  }

  /** `String.prototype.trim`. The result neither starts nor ends with white
      space, and it is empty exactly when `s` is all white space. */
  function Trim(s: string): (r: string)
    ensures r == [] || (!IsWhitespace(r[0]) && !IsWhitespace(r[|r| - 1]))
    ensures r == [] <==> AllWhitespace(s)
  {
    var t := TrimStart(s);
    assert s == s[..|s| - |t|] + t;
    TrimEnd(t)
  }

  /** `trim` cuts `s` into leading white space, the result and trailing
      white space. */
  lemma TrimShape(s: string) returns (k: nat, r: string)
    ensures r == Trim(s)
    ensures k + |r| <= |s|
    ensures s == s[..k] + r + s[k + |r|..]
    ensures AllWhitespace(s[..k]) && AllWhitespace(s[k + |r|..])
  {
    var t := TrimStart(s);
    r := TrimEnd(t);
    k := |s| - |t|;
    SplitThree(s, k, r);
  }

  lemma SplitThree(s: string, k: nat, r: string)
    requires k + |r| <= |s| && s[k..k + |r|] == r
    ensures s == s[..k] + r + s[k + |r|..]
  {
  }

  /** Trimming removes only white space. */
  lemma TrimKeepsContent(s: string)
    ensures StripWhitespace(Trim(s)) == StripWhitespace(s)
  {
    var k, r := TrimShape(s);
    var pre, post := s[..k], s[k + |r|..];
    StripAround(pre, r, post);
  }

  lemma StripAround(pre: string, r: string, post: string)
    requires AllWhitespace(pre) && AllWhitespace(post)
    ensures StripWhitespace(pre + r + post) == StripWhitespace(r)
  {
    KeepAppend(pre + r, post, NotWhitespace);
    KeepAppend(pre, r, NotWhitespace);
    assert StripWhitespace(pre) == [] && StripWhitespace(post) == [];
  }

  /** Trailing white space is dropped by `trim`. */
  lemma TrimDropsTrailing(s: string, w: string)
    requires s == [] || (!IsWhitespace(s[0]) && !IsWhitespace(s[|s| - 1]))
    requires AllWhitespace(w)
    ensures Trim(s + w) == s
  {
    if s == [] {
      assert s + w == w;
    } else {
      assert TrimStart(s + w) == s + w;
      TrimEndDropsSuffix(s, w);
    }
  }

  lemma {:induction false} TrimEndDropsSuffix(s: string, w: string)
    requires s != [] && !IsWhitespace(s[|s| - 1])
    requires AllWhitespace(w)
    ensures TrimEnd(s + w) == s
    decreases |w|
  {
    if w == [] {
      assert s + w == s;
    } else {
      assert (s + w)[..|s + w| - 1] == s + w[..|w| - 1];
      TrimEndDropsSuffix(s, w[..|w| - 1]);
    }
  }

  // ---------------------------------------------------------------------
  // Whole numbers as decimal text.

  function DigitChar(d: nat): (c: char)
    requires d < 10
    ensures IsDigit(c)
  {
    ('0' as int + d) as char
  }

  function Pow10(k: nat): (p: nat)
    ensures p >= 1
  {
    if k == 0 then 1 else 10 * Pow10(k - 1)
  }

  /** The number a string of decimal digits denotes. */
  function DigitsValue(s: string): nat
    requires AllDigits(s)
  {
    if s == [] then 0
    else 10 * DigitsValue(s[..|s| - 1]) + (s[|s| - 1] as int - '0' as int)
  }

  /** `n.toString()` for a whole number `n >= 0`. */
  function DecimalString(n: nat): (r: string)
    ensures 1 <= |r|
    ensures AllDigits(r)
    ensures r[0] != '0' || n == 0
  {
    if n < 10 then [DigitChar(n)] else DecimalString(n / 10) + [DigitChar(n % 10)]
  }

  /** Reading back the decimal text of `n` gives `n`. */
  lemma {:induction false} DecimalRoundTrip(n: nat)
    ensures DigitsValue(DecimalString(n)) == n
  {
    if n >= 10 {
      var s := DecimalString(n);
      assert s[..|s| - 1] == DecimalString(n / 10);
      DecimalRoundTrip(n / 10);
    }
  }

  /** A number below `10^k` needs at most `k` digits. */
  lemma {:induction false} DecimalLength(n: nat, k: nat)
    requires 1 <= k && n < Pow10(k)
    ensures |DecimalString(n)| <= k
  {
    if n >= 10 {
      assert k >= 2;
      DecimalLength(n / 10, k - 1);
    }
  }

  /** `s.padStart(width, c)` with a one-character pad. */
  function PadStart(s: string, width: nat, c: char): (r: string)
    ensures |r| == if |s| >= width then |s| else width
    ensures r[|r| - |s|..] == s
    ensures forall i :: 0 <= i < |r| - |s| ==> r[i] == c
  {
    if |s| >= width then s else seq(width - |s|, _ => c) + s
  }

  lemma {:induction false} ZerosValue(z: string)
    requires forall i :: 0 <= i < |z| ==> z[i] == '0'
    ensures AllDigits(z) && DigitsValue(z) == 0
  {
    if z != [] {
      ZerosValue(z[..|z| - 1]);
    }
  }

  /** Leading zeros do not change the value of a digit string. */
  lemma {:induction false} LeadingZeros(z: string, s: string)
    requires forall i :: 0 <= i < |z| ==> z[i] == '0'
    requires AllDigits(s)
    ensures AllDigits(z + s) && DigitsValue(z + s) == DigitsValue(s)
    decreases |s|
  {
    ZerosValue(z);
    if s == [] {
      assert z + s == z;
    } else {
      assert (z + s)[..|z + s| - 1] == z + s[..|s| - 1];
      LeadingZeros(z, s[..|s| - 1]);
    }
  }

  /** Zero-padding keeps the value of a digit string. */
  lemma ZeroPaddedValue(s: string, width: nat)
    requires AllDigits(s)
    ensures AllDigits(PadStart(s, width, '0'))
    ensures DigitsValue(PadStart(s, width, '0')) == DigitsValue(s)
  {
    var r := PadStart(s, width, '0');
    if |s| < width {
      LeadingZeros(r[..|r| - |s|], s);
      assert r == r[..|r| - |s|] + s;
    }
  }
}
