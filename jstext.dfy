/**
  The few pieces of ECMAScript's string and number behaviour that the booking
  form relies on: `trim`, `startsWith`, `includes`, `Number#toString` for whole
  numbers, `parseInt(s, 10)` and (a decimal subset of) `parseFloat`.
*/
module JsText {
  import opened Maybe

  /** The characters `String.prototype.trim` and `parseInt` skip: ECMAScript's
      WhiteSpace and LineTerminator productions. */
  predicate IsWhitespace(c: char) {
    c == '\t' || c == '\n' || c == '\U{B}' || c == '\U{C}' || c == '\r' || c == ' '
    || c == '\U{A0}' || c == '\U{1680}' || ('\U{2000}' <= c <= '\U{200A}')
    || c == '\U{2028}' || c == '\U{2029}' || c == '\U{202F}' || c == '\U{205F}'
    || c == '\U{3000}' || c == '\U{FEFF}'
  }

  predicate AllWhitespace(s: string) {
    forall k :: 0 <= k < |s| ==> IsWhitespace(s[k])
  }

  /** Neither end of `s` is white space. */
  predicate Trimmed(s: string) {
    s == [] || (!IsWhitespace(s[0]) && !IsWhitespace(s[|s| - 1]))
  }

  /** `s` without its leading white space. */
  function TrimStart(s: string): (r: string)
    ensures |r| <= |s|
  {
    if s == [] || !IsWhitespace(s[0]) then s else TrimStart(s[1..])
  }

  /** What `TrimStart` removes is white space, and what it keeps does not
      start with white space. */
  lemma {:induction false} TrimStartSpec(s: string)
    ensures var r := TrimStart(s);
      r == s[|s| - |r|..] && (r == [] || !IsWhitespace(r[0])) && AllWhitespace(s[..|s| - |r|])
    decreases |s|
  {
    if s != [] && IsWhitespace(s[0]) {
      var r := TrimStart(s[1..]);
      TrimStartSpec(s[1..]);
      var n := |s| - |r|;
      assert s[1..][n - 1..] == s[n..];
      assert s[..n] == [s[0]] + s[1..][..n - 1];
      AllWhitespaceCons(s[0], s[1..][..n - 1]);
    }
  }

  lemma AllWhitespaceCons(c: char, s: string)
    requires IsWhitespace(c) && AllWhitespace(s)
    ensures AllWhitespace([c] + s)
  {
    forall k | 0 <= k < |[c] + s|
      ensures IsWhitespace(([c] + s)[k])
    {
      if k > 0 {
        assert ([c] + s)[k] == s[k - 1];
      }
    }
  }

  lemma AllWhitespaceSnoc(s: string, c: char)
    requires IsWhitespace(c) && AllWhitespace(s)
    ensures AllWhitespace(s + [c])
  {
    forall k | 0 <= k < |s + [c]|
      ensures IsWhitespace((s + [c])[k])
    {
      if k < |s| {
        assert (s + [c])[k] == s[k];
      }
    }
  }

  /** `s` without its trailing white space. */
  function TrimEnd(s: string): (r: string)
    ensures |r| <= |s|
  {
    if s == [] || !IsWhitespace(s[|s| - 1]) then s else TrimEnd(s[..|s| - 1])
  }

  /** What `TrimEnd` removes is white space, and what it keeps does not end
      with white space. */
  lemma {:induction false} TrimEndSpec(s: string)
    ensures var r := TrimEnd(s);
      r == s[..|r|] && (r == [] || !IsWhitespace(r[|r| - 1])) && AllWhitespace(s[|r|..])
    decreases |s|
  {
    if s != [] && IsWhitespace(s[|s| - 1]) {
      var p := s[..|s| - 1];
      var r := TrimEnd(p);
      TrimEndSpec(p);
      assert p[..|r|] == s[..|r|];
      assert s[|r|..] == p[|r|..] + [s[|s| - 1]];
      AllWhitespaceSnoc(p[|r|..], s[|s| - 1]);
    }
  }

  /** `String.prototype.trim`. */
  function Trim(s: string): (r: string)
    ensures |r| <= |s|
  {
    TrimEnd(TrimStart(s))
  }

  /** `r` is the slice of `s` at position `i`, with only white space around it. */
  predicate SliceBetweenWhitespace(s: string, r: string, i: int) {
    0 <= i <= |s| - |r| && s[i..i + |r|] == r
    && AllWhitespace(s[..i]) && AllWhitespace(s[i + |r|..])
  }

  /** Trim gives the slice of `s` left once the white space at both ends is
      cut off. */
  lemma TrimSpec(s: string)
    ensures Trimmed(Trim(s))
    ensures SliceBetweenWhitespace(s, Trim(s), |s| - |TrimStart(s)|)
  {
    var t := TrimStart(s);
    var r := TrimEnd(t);
    TrimStartSpec(s);
    TrimEndSpec(t);
    var i, n := |s| - |t|, |r|;
    SuffixSlices(s, i, n);
    assert r == s[i..i + n];
    assert s[i + n..] == t[n..];
    if r != [] {
      assert r[0] == t[0];
    }
  }

  /** Cutting a suffix of `s` at `n` cuts `s` at `i + n`. */
  lemma SuffixSlices(s: string, i: nat, n: nat)
    requires i + n <= |s|
    ensures s[i..][..n] == s[i..i + n] && s[i..][n..] == s[i + n..]
  {
  }

  lemma {:induction false} TrimStartPast(a: string, t: string)
    requires AllWhitespace(a) && (t == [] || !IsWhitespace(t[0]))
    ensures TrimStart(a + t) == t
    decreases |a|
  {
    if a == [] {
      assert a + t == t;
    } else {
      assert (a + t)[1..] == a[1..] + t;
      TrimStartPast(a[1..], t);
    }
  }

  lemma {:induction false} TrimEndPast(t: string, b: string)
    requires AllWhitespace(b) && (t == [] || !IsWhitespace(t[|t| - 1]))
    ensures TrimEnd(t + b) == t
    decreases |b|
  {
    if b == [] {
      assert t + b == t;
    } else {
      var b' := b[..|b| - 1];
      assert (t + b)[..|t + b| - 1] == t + b';
      TrimEndPast(t, b');
    }
  }

  /** Trim is characterised by what it removes: cutting white space `a` and `b`
      off a text `r` whose ends are not white space gives back `r`. */
  lemma {:induction false} TrimUnique(a: string, r: string, b: string)
    requires AllWhitespace(a) && AllWhitespace(b) && Trimmed(r)
    ensures Trim(a + r + b) == r
  {
    if r == [] {
      assert a + r + b == (a + b) + [];
      TrimStartPast(a + b, []);
    } else {
      assert a + r + b == a + (r + b);
      TrimStartPast(a, r + b);
      TrimEndPast(r, b);
    }
  }

  /** Trimming twice is trimming once. */
  lemma TrimIdempotent(s: string)
    ensures Trim(Trim(s)) == Trim(s)
  {
    TrimSpec(s);
    var r := Trim(s);
    var e: string := [];
    assert AllWhitespace(e);
    assert e + r + e == r;
    TrimUnique(e, r, e);
  }

  /** `s.startsWith(p)`. */
  predicate StartsWith(s: string, p: string) {
    |p| <= |s| && s[..|p|] == p
  }

  /** `s.includes(p)`, searched from the left as the engine does. */
  predicate Contains(s: string, p: string)
    decreases |s|
  {
    StartsWith(s, p) || (s != [] && Contains(s[1..], p))
  }

  /** `p` occurs in `s` starting at position `i`. */
  predicate OccursAt(s: string, p: string, i: int) {
    0 <= i <= |s| - |p| && s[i..i + |p|] == p
  }

  /** `includes` holds exactly when `p` occurs at some position of `s`. */
  lemma {:induction false} ContainsOccurs(s: string, p: string)
    ensures Contains(s, p) <==> exists i :: OccursAt(s, p, i)
    decreases |s|
  {
    if StartsWith(s, p) {
      assert OccursAt(s, p, 0);
    } else if s == [] {
      assert forall i :: !OccursAt(s, p, i);
    } else {
      ContainsOccurs(s[1..], p);
      if Contains(s[1..], p) {
        var i :| OccursAt(s[1..], p, i);
        assert s[i + 1..i + 1 + |p|] == s[1..][i..i + |p|];
        assert OccursAt(s, p, i + 1);
      }
      if i :| OccursAt(s, p, i) {
        assert i != 0;
        assert s[1..][i - 1..i - 1 + |p|] == s[i..i + |p|];
        assert OccursAt(s[1..], p, i - 1);
      }
    }
  }

  /** A text occurs in any text built around it. */
  lemma ContainsInfix(a: string, p: string, b: string)
    ensures Contains(a + p + b, p)
  {
    var s := a + p + b;
    assert s[|a|..|a| + |p|] == p;
    assert OccursAt(s, p, |a|);
    ContainsOccurs(s, p);
  }

  predicate IsDigit(c: char) { '0' <= c <= '9' }

  predicate AllDigits(s: string) {
    forall k :: 0 <= k < |s| ==> IsDigit(s[k])
  }

  function DigitValue(c: char): (d: nat)
    requires IsDigit(c)
    ensures d < 10
  {
    (c as int) - ('0' as int)
  }

  function DigitChar(d: nat): (c: char)
    requires d < 10
    ensures IsDigit(c) && DigitValue(c) == d
  {
    (('0' as int) + d) as char
  }

  /** The value of a string of decimal digits, most significant first. */
  function DigitsValue(d: string): nat
    requires AllDigits(d)
  {
    if d == [] then 0 else DigitsValue(d[..|d| - 1]) * 10 + DigitValue(d[|d| - 1])
  }

  /** `Number#toString()` of a non-negative whole number: its shortest decimal form. */
  function NatToString(n: nat): (s: string)
    ensures |s| >= 1 && AllDigits(s)
    ensures s[0] == '0' <==> n == 0
    decreases n
  {
    if n < 10 then [DigitChar(n)] else NatToString(n / 10) + [DigitChar(n % 10)]
  }

  /** `Number#toString()` of a whole number. */
  function IntToString(n: int): string {
    if n < 0 then "-" + NatToString(-n) else NatToString(n)
  }

  lemma {:induction false} NatToStringValue(n: nat)
    ensures DigitsValue(NatToString(n)) == n
    decreases n
  {
    if n >= 10 {
      var p := NatToString(n / 10);
      assert (p + [DigitChar(n % 10)])[..|p|] == p;
      NatToStringValue(n / 10);
    }
  }

  /** The longest prefix of `s` made of decimal digits. */
  function LeadingDigits(s: string): (d: string)
    ensures AllDigits(d) && |d| <= |s|
  {
    if s == [] || !IsDigit(s[0]) then [] else [s[0]] + LeadingDigits(s[1..])
  }

  /** `LeadingDigits` is a prefix, and the character after it is not a digit. */
  lemma {:induction false} LeadingDigitsSpec(s: string)
    ensures var d := LeadingDigits(s); s[..|d|] == d && (|d| < |s| ==> !IsDigit(s[|d|]))
    decreases |s|
  {
    if s != [] && IsDigit(s[0]) {
      LeadingDigitsSpec(s[1..]);
      var d := LeadingDigits(s[1..]);
      assert s[..|d| + 1] == [s[0]] + s[1..][..|d|];
    }
  }

  lemma {:induction false} LeadingDigitsStop(d: string, q: string)
    requires AllDigits(d) && (q == [] || !IsDigit(q[0]))
    ensures LeadingDigits(d + q) == d
    decreases |d|
  {
    if d == [] {
      assert d + q == q;
    } else {
      assert (d + q)[1..] == d[1..] + q;
      LeadingDigitsStop(d[1..], q);
    }
  }

  /** The text after an optional leading `+` or `-`. */
  function Unsigned(t: string): string {
    if t != [] && (t[0] == '-' || t[0] == '+') then t[1..] else t
  }

  /** `parseInt(s, 10)`: skip leading white space, read an optional sign and
      then the longest run of decimal digits; `None` stands for `NaN` (no digit). */
  function ParseInt(s: string): Option<int> {
    var t := TrimStart(s);
    var d := LeadingDigits(Unsigned(t));
    var v: int := if d == [] then 0 else DigitsValue(d);
    if d == [] then None
    else if t[0] == '-' then Some(-v)
    else Some(v)
  }

  /** `parseInt` reads a number's decimal form back up to the first character
      that is not a digit: `parseInt(String(n) + q) == n`. */
  lemma ParseIntOfIntToString(n: int, q: string)
    requires q == [] || !IsDigit(q[0])
    ensures ParseInt(IntToString(n) + q) == Some(n)
  {
    var m := if n < 0 then -n else n;
    var digits := NatToString(m);
    var body := digits + q;
    assert body[0] == digits[0];
    SignedText(n < 0, body);
    assert IntToString(n) + q == (if n < 0 then "-" else "") + body;
    LeadingDigitsStop(digits, q);
    NatToStringValue(m);
  }

  /** `parseInt` of exactly a number's decimal form gives the number back. */
  lemma ParseIntRoundTrip(n: int)
    ensures ParseInt(IntToString(n)) == Some(n)
  {
    assert IntToString(n) + [] == IntToString(n);
    ParseIntOfIntToString(n, []);
  }

  /** A text that starts with an optional minus sign and then a digit is
      not touched by the white-space skip, and its sign is read off. */
  lemma SignedText(neg: bool, body: string)
    requires body != [] && IsDigit(body[0])
    ensures var s := (if neg then "-" else "") + body;
      TrimStart(s) == s && Unsigned(s) == body && s != [] && (s[0] == '-' <==> neg)
  {
    var s := (if neg then "-" else "") + body;
    assert !IsWhitespace(s[0]);
    if neg {
      assert s[1..] == body;
    }
  }

  function Pow10(k: nat): (p: nat)
    ensures p >= 1
  {
    if k == 0 then 1 else 10 * Pow10(k - 1)
  }

  /** `parseFloat` restricted to plain decimals: optional white space and sign,
      digits, then an optional `.` and more digits, with at least one digit in
      all. Exponents and `Infinity` are not read. `None` stands for `NaN`. */
  function ParseDecimal(s: string): Option<real> {
    var t := TrimStart(s);
    match UnsignedDecimal(Unsigned(t))
    case None => None
    case Some(v) => Some(if t != [] && t[0] == '-' then -v else v)
  }

  /** The decimal at the start of a text without sign: digits, then an
      optional `.` and more digits; `None` when there is no digit. */
  function UnsignedDecimal(body: string): Option<real> {
    var whole := LeadingDigits(body);
    var rest := body[|whole|..];
    var frac := if rest != [] && rest[0] == '.' then LeadingDigits(rest[1..]) else [];
    if whole == [] && frac == [] then None else Some(DecimalValue(whole, frac))
  }

  /** The value of the digits `whole` `.` `frac`. */
  function DecimalValue(whole: string, frac: string): real
    requires AllDigits(whole) && AllDigits(frac)
  {
    DigitsValue(whole) as real + Scaled(DigitsValue(frac), |frac|)
  }

  /** `n` divided by ten `k` times. */
  function Scaled(n: nat, k: nat): real {
    if k == 0 then n as real else Scaled(n, k - 1) / 10.0
  }

  /** `parseFloat` of an optional minus sign, whole digits and an optional
      fraction. */
  lemma ParseDecimalOfParts(neg: bool, whole: string, fd: string, s: string)
    requires AllDigits(whole) && whole != [] && AllDigits(fd)
    requires s == (if neg then "-" else "") + whole + (if fd == [] then "" else "." + fd)
    ensures var v := DecimalValue(whole, fd); ParseDecimal(s) == Some(if neg then -v else v)
  {
    var fraction := if fd == [] then "" else "." + fd;
    var body := whole + fraction;
    assert s == (if neg then "-" else "") + body;
    assert body[0] == whole[0];
    SignedText(neg, body);
    UnsignedDecimalOfParts(whole, fd);
  }

  lemma UnsignedDecimalOfParts(whole: string, fd: string)
    requires AllDigits(whole) && whole != [] && AllDigits(fd)
    ensures UnsignedDecimal(whole + (if fd == [] then "" else "." + fd)) == Some(DecimalValue(whole, fd))
  {
    var fraction := if fd == [] then "" else "." + fd;
    var body := whole + fraction;
    LeadingDigitsStop(whole, fraction);
    assert LeadingDigits(body) == whole;
    assert body[|whole|..] == fraction;
    LeadingDigitsStop(fd, []);
    assert fd + [] == fd;
    if fd != [] {
      assert fraction[1..] == fd;
    }
  }

  /** The decimal reading agrees with the integer reading on whole numbers. */
  lemma ParseDecimalOfIntToString(n: int)
    ensures ParseDecimal(IntToString(n)) == Some(n as real)
  {
    var m := if n < 0 then -n else n;
    var digits := NatToString(m);
    SignedWholeDecimal(n < 0, digits, IntToString(n));
    NatToStringValue(m);
  }

  /** An optional minus sign and a run of digits read as the signed value. */
  lemma SignedWholeDecimal(neg: bool, digits: string, s: string)
    requires AllDigits(digits) && digits != []
    requires s == (if neg then "-" else "") + digits
    ensures var v := DigitsValue(digits) as real; ParseDecimal(s) == Some(if neg then -v else v)
  {
    SignedText(neg, digits);
    WholeDecimal(digits);
  }

  /** A run of digits alone reads as its value. */
  lemma WholeDecimal(digits: string)
    requires AllDigits(digits) && digits != []
    ensures UnsignedDecimal(digits) == Some(DigitsValue(digits) as real)
  {
    assert digits + [] == digits;
    LeadingDigitsStop(digits, []);
    assert digits[|digits|..] == [];
    var e: string := [];
    assert DigitsValue(e) == 0;
    assert DecimalValue(digits, e) == DigitsValue(digits) as real + Scaled(0, 0);
  }
}
