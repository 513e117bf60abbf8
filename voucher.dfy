/**
  The booking voucher: how form values are shown, the Arabic-script test, the
  text clean-up applied before drawing, the voucher layout as a list of draw
  commands, the abridged layout used when the PDF library fails, and the
  generator object whose accessors refuse to work before a document exists.
*/
module Voucher {
  import opened Maybe
  import opened JsText

  // ---------------------------------------------------------------------------
  // Form values and JavaScript's `||` and `String(...)`

  /** A form value: missing, a string, or a finite number held in hundredths
      (`Num(14550)` is 145.5). */
  datatype Value = Absent | Str(s: string) | Num(cents: int)

  predicate Truthy(v: Value) {
    match v
    case Absent => false
    case Str(s) => s != ""
    case Num(c) => c != 0
  }

  /** JavaScript's `a || b`. */
  function Or(a: Value, b: Value): (r: Value)
    ensures r == a || r == b
    ensures Truthy(a) ==> r == a
    ensures !Truthy(a) ==> r == b
    ensures Truthy(r) <==> Truthy(a) || Truthy(b)
  {
    if Truthy(a) then a else b
  }

  /** The digits written after the point for `f` hundredths: none for 0,
      and no trailing zero. */
  function FractionDigits(f: nat): (fd: string)
    requires f < 100
    ensures AllDigits(fd) && |fd| <= 2 && (fd == [] <==> f == 0)
  {
    if f == 0 then []
    else if f % 10 == 0 then [DigitChar(f / 10)]
    else [DigitChar(f / 10), DigitChar(f % 10)]
  }

  /** `Number#toString()` of a number given in hundredths: the shortest decimal
      form, with no trailing zero in the fraction. */
  function CentsToString(c: int): (s: string)
    ensures s != [] && (IsDigit(s[0]) || s[0] == '-')
  {
    var a := if c < 0 then -c else c;
    var fd := FractionDigits(a % 100);
    (if c < 0 then "-" else "") + NatToString(a / 100) + (if fd == [] then "" else "." + fd)
  }

  /** Reading a shown number back gives the number shown. */
  lemma CentsToStringRoundTrip(c: int)
    ensures ParseDecimal(CentsToString(c)) == Some(c as real / 100.0)
  {
    ParseCentsToString(c);
    CentsAsReal(c);
    var v := CentsValue(c);
    var w := c as real / 100.0;
    assert v == w;
    assert Some(v) == Some(w);
  }

  /** The value of `c` hundredths, split as `CentsToString` writes it. */
  function CentsValue(c: int): real {
    if c < 0 then -Hundredths(-c) else Hundredths(c)
  }

  function Hundredths(a: nat): real {
    (a / 100) as real + (a % 100) as real / 100.0
  }

  lemma ParseCentsToString(c: int)
    ensures ParseDecimal(CentsToString(c)) == Some(CentsValue(c))
  {
    var a := if c < 0 then -c else c;
    ParseDecimalOfParts(c < 0, NatToString(a / 100), FractionDigits(a % 100), CentsToString(c));
    CentsDecimalValue(a);
  }

  lemma CentsAsReal(c: int)
    ensures CentsValue(c) == c as real / 100.0
  {
    var a := if c < 0 then -c else c;
    assert a == 100 * (a / 100) + a % 100;
    assert Hundredths(a) == a as real / 100.0;
  }

  lemma CentsDecimalValue(a: nat)
    ensures DecimalValue(NatToString(a / 100), FractionDigits(a % 100)) == Hundredths(a)
  {
    FractionDigitsValue(a % 100);
    NatToStringValue(a / 100);
  }

  /** The digits after the point read as `f` hundredths. */
  lemma FractionDigitsValue(f: nat)
    requires f < 100
    ensures var fd := FractionDigits(f); Scaled(DigitsValue(fd), |fd|) == f as real / 100.0
  {
    var fd := FractionDigits(f);
    if f == 0 {
    } else if f % 10 == 0 {
      OneDigitValue(f / 10);
      assert Scaled(f / 10, 1) == (f / 10) as real / 10.0;
      assert f == 10 * (f / 10);
    } else {
      TwoDigitsValue(f / 10, f % 10);
      assert Scaled(f, 2) == Scaled(f, 1) / 10.0 == f as real / 100.0;
    }
  }

  lemma OneDigitValue(d: nat)
    requires d < 10
    ensures DigitsValue([DigitChar(d)]) == d
  {
    assert [DigitChar(d)][..0] == [];
  }

  lemma TwoDigitsValue(d1: nat, d2: nat)
    requires d1 < 10 && d2 < 10
    ensures DigitsValue([DigitChar(d1), DigitChar(d2)]) == 10 * d1 + d2
  {
    assert [DigitChar(d1), DigitChar(d2)][..1] == [DigitChar(d1)];
    OneDigitValue(d1);
  }

  /** `String(v)`, which is also what a template literal `${v}` shows. */
  function Show(v: Value): string {
    match v
    case Absent => "undefined"
    case Str(s) => s
    case Num(c) => CentsToString(c)
  }

  // ---------------------------------------------------------------------------
  // Script test and text clean-up

  /** A character of the Arabic, Arabic Supplement or Arabic Extended-A block. */
  predicate IsArabicChar(c: char) {
    ('\U{0600}' <= c <= '\U{06FF}') || ('\U{0750}' <= c <= '\U{077F}') || ('\U{08A0}' <= c <= '\U{08FF}')
  }

  /** `isArabicText`: whether any character is Arabic (false for `""`). */
  predicate IsArabic(s: string)
    ensures IsArabic(s) <==> exists i :: 0 <= i < |s| && IsArabicChar(s[i])
  {
    s != [] && (IsArabicChar(s[0]) || IsArabic(s[1..]))
  }

  /** The characters that make the clean-up try to undo a double encoding. */
  predicate HasMojibakeMarker(t: string) {
    'þ' in t || 'Ã' in t
  }

  /** `processArabicText(v)`. `repair` stands for
      `decodeURIComponent(escape(t))`, with `None` when it throws; it is only
      attempted on text with a marker, and its failure keeps the trimmed text. */
  function ProcessText(v: Value, repair: string -> Option<string>): (r: string)
    ensures !Truthy(v) ==> r == ""
    ensures Truthy(v) && !HasMojibakeMarker(Trim(Show(v))) ==> r == Trim(Show(v))
    ensures Truthy(v) && HasMojibakeMarker(Trim(Show(v))) && repair(Trim(Show(v))).None? ==> r == Trim(Show(v))
    ensures Truthy(v) && HasMojibakeMarker(Trim(Show(v))) && repair(Trim(Show(v))).Some? ==>
              r == repair(Trim(Show(v))).value
  {
    if !Truthy(v) then ""
    else
      var t := Trim(Show(v));
      if HasMojibakeMarker(t) then
        match repair(t)
        case Some(u) => u
        case None => t
      else t
  }

  /** Text that needed no repair is already clean: processing it again changes
      nothing, whatever `repair` would do. */
  lemma ProcessTextIdempotent(v: Value, repair: string -> Option<string>)
    ensures !Truthy(v) || !HasMojibakeMarker(Trim(Show(v))) ==>
              ProcessText(Str(ProcessText(v, repair)), repair) == ProcessText(v, repair)
  {
    if Truthy(v) && !HasMojibakeMarker(Trim(Show(v))) {
      var p := Trim(Show(v));
      assert ProcessText(v, repair) == p;
      TrimIdempotent(Show(v));
      assert Trim(Show(Str(p))) == p;
    }
  }

  // ---------------------------------------------------------------------------
  // Draw commands

  /** The options object of `doc.text`: none, or a maximum width, right
      alignment, and the `direction: "rtl", lang: "ar"` pair. */
  datatype TextOptions = Plain | Options(maxWidth: int, alignRight: bool, rtl: bool)

  /** One drawing call on the A4 page, in millimetres. */
  datatype Cmd =
    | Text(text: string, x: int, y: int, options: TextOptions)
    | Line(x1: int, y1: int, x2: int, y2: int)
    | Frame(left: int, top: int, width: int, height: int)

  /** A generated PDF: its title property (none for the abridged fallback) and
      its drawing. */
  datatype Document = Document(title: Option<string>, commands: seq<Cmd>)

  /** `addTextToPDF(doc, text, x, y, options)`; `maxWidthOption` is 0 when the
      option is not given, so `options.maxWidth || 100` applies. */
  function AddText(text: string, x: int, y: int, alignRight: bool, maxWidthOption: nat,
                   repair: string -> Option<string>): (r: seq<Cmd>)
    ensures text == "" ==> r == []
    ensures text != "" ==>
      && |r| == 1 && r[0].Text? && r[0].x == x && r[0].y == y
      && r[0].text == ProcessText(Str(text), repair)
      && r[0].options == Options(if maxWidthOption != 0 then maxWidthOption else 100, alignRight,
                                 IsArabic(r[0].text))
  {
    if text == "" then []
    else
      var p := ProcessText(Str(text), repair);
      [Text(p, x, y, Options(if maxWidthOption != 0 then maxWidthOption else 100, alignRight, IsArabic(p)))]
  }

  /** A caption at x = 15 and a processed value beside it: Arabic text goes
      through `addTextToPDF`, right-aligned at `arabicX`; any other text is drawn
      plainly at x = 45. */
  function PlaceField(caption: string, v: Value, y: int, arabicX: int, maxWidthOption: nat,
                      repair: string -> Option<string>): (r: seq<Cmd>)
    ensures var p := ProcessText(v, repair);
      && |r| == 2 && r[0] == Text(caption, 15, y, Plain)
      && (!IsArabic(p) ==> r[1] == Text(p, 45, y, Plain))
      && (IsArabic(p) ==>
            && r[1].Text? && r[1].x == arabicX && r[1].y == y
            && r[1].options.Options? && r[1].options.alignRight
            && r[1].options.maxWidth == (if maxWidthOption != 0 then maxWidthOption else 100)
            && (r[1].options.rtl <==> IsArabic(r[1].text))
            && (!HasMojibakeMarker(Trim(Show(v))) ==> r[1].text == p && r[1].options.rtl))
  {
    var p := ProcessText(v, repair);
    ProcessTextIdempotent(v, repair);
    [Text(caption, 15, y, Plain)]
      + (if IsArabic(p) then AddText(p, arabicX, y, true, maxWidthOption, repair) else [Text(p, 45, y, Plain)])
  }

  /** A right-column row: caption at x = 110, `String(v || "")` at `valueX`. */
  function RightRow(caption: string, v: Value, y: int, valueX: int): seq<Cmd> {
    [Text(caption, 110, y, Plain), Text(Show(Or(v, Str(""))), valueX, y, Plain)]
  }

  /** How often `for (x = from; x < 195; x += 5)` runs. */
  function DashCount(from: int): (n: nat)
    ensures from < 195 ==> from + 5 * (n - 1) < 195 <= from + 5 * n
  {
    if from >= 195 then 0 else (195 - from + 4) / 5
  }

  /** The segments that loop draws: a 2 mm line every 5 mm. */
  function DashesFrom(from: int, y: int): (r: seq<Cmd>)
    ensures |r| == DashCount(from)
    ensures forall k :: 0 <= k < |r| ==> r[k] == Line(from + 5 * k, y, from + 5 * k + 2, y)
  {
    seq(DashCount(from), k requires 0 <= k => Line(from + 5 * k, y, from + 5 * k + 2, y))
  }

  /** The separator on the voucher has 36 segments, at x = 15, 20, ..., 190. */
  lemma DashedLineSegments(y: int)
    ensures |DashesFrom(15, y)| == 36
    ensures DashesFrom(15, y)[0] == Line(15, y, 17, y) && DashesFrom(15, y)[35] == Line(190, y, 192, y)
  {
  }

  /** The dash loop as it runs from `start` (15 on the voucher). */
  method DrawDashes(start: int, y: int) returns (dashes: seq<Cmd>)
    ensures dashes == DashesFrom(start, y)
  {
    dashes := [];
    var x := start;
    while x < 195
      invariant x == start + 5 * |dashes|
      invariant dashes != [] ==> x - 5 < 195
      invariant forall k :: 0 <= k < |dashes| ==> dashes[k] == Line(start + 5 * k, y, start + 5 * k + 2, y)
      decreases 195 - x
    {
      dashes := dashes + [Line(x, y, x + 2, y)];
      x := x + 5;
    }
    assert |dashes| == DashCount(start);
  }

  // ---------------------------------------------------------------------------
  // The voucher layout

  /** The form data drawn on a voucher. */
  datatype FormData = FormData(
    name: Value, nationality: Value, hotel: Value, excursion: Value,
    roomNo: Value, tripDate: Value, tripTime: Value, telephone: Value,
    currency: Value, ad: Value, adultCount: Value, child: Value, childCount: Value,
    inf: Value, infantCount: Value, price: Value, grandTotal: Value,
    paid: Value, unpaid: Value, receiver: Value, voucherNo: Value, voucherDate: Value)

  /** The clock readings the generator takes: `Date.now()` and
      `new Date().toLocaleDateString()`. */
  datatype Clock = Clock(nowMillis: nat, localeDate: string)

  /** `s.slice(-6)`. */
  function LastSix(s: string): (r: string)
    ensures |r| == if |s| < 6 then |s| else 6
    ensures r == s[|s| - |r|..]
  {
    if |s| <= 6 then s else s[|s| - 6..]
  }

  /** `formData.voucherNo || "BB-" + Date.now().toString().slice(-6)`. */
  function VoucherNumber(v: Value, nowMillis: nat): string {
    if Truthy(v) then Show(v) else "BB-" + LastSix(NatToString(nowMillis))
  }

  lemma AllDigitsAppend(a: string, b: string)
    requires AllDigits(a) && AllDigits(b)
    ensures AllDigits(a + b)
  {
    forall i | 0 <= i < |a + b| ensures IsDigit((a + b)[i]) {
      if i < |a| { assert (a + b)[i] == a[i]; } else { assert (a + b)[i] == b[i - |a|]; }
    }
  }

  lemma AllDigitsSlice(s: string, i: int, j: int)
    requires AllDigits(s) && 0 <= i <= j <= |s|
    ensures AllDigits(s[i..j])
  {
    forall k | 0 <= k < j - i ensures IsDigit(s[i..j][k]) { assert s[i..j][k] == s[i + k]; }
  }

  lemma ShiftDigit(x: int, p: int, y: int, last: int)
    ensures (x * p + y) * 10 + last == x * (10 * p) + (y * 10 + last)
  {
  }

  lemma {:induction false} DigitsValueAppend(a: string, b: string)
    requires AllDigits(a) && AllDigits(b)
    ensures AllDigits(a + b)
    ensures DigitsValue(a + b) == DigitsValue(a) * Pow10(|b|) + DigitsValue(b)
    decreases |b|
  {
    AllDigitsAppend(a, b);
    if b == [] {
      assert a + b == a;
    } else {
      var b' := b[..|b| - 1];
      assert (a + b)[..|a + b| - 1] == a + b';
      DigitsValueAppend(a, b');
      var last := DigitValue(b[|b| - 1]);
      assert (a + b)[|a + b| - 1] == b[|b| - 1];
      var x, p, y := DigitsValue(a), Pow10(|b'|), DigitsValue(b');
      assert DigitsValue(a + b) == DigitsValue(a + b') * 10 + last;
      assert DigitsValue(a + b') == x * p + y;
      assert b[..|b| - 1] == b';
      assert DigitsValue(b) == y * 10 + last;
      assert Pow10(|b|) == 10 * p;
      ShiftDigit(x, p, y, last);
    }
  }

  lemma {:induction false} DigitsValueBound(d: string)
    requires AllDigits(d)
    ensures DigitsValue(d) < Pow10(|d|)
    decreases |d|
  {
    if d != [] {
      var d' := d[..|d| - 1];
      assert AllDigits(d') by { forall i | 0 <= i < |d'| ensures IsDigit(d'[i]) { assert d'[i] == d[i]; } }
      DigitsValueBound(d');
    }
  }

  /** A generated voucher number is `BB-` and up to six digits that read as
      the current time modulo 10^6 ms. */
  lemma GeneratedVoucherNumber(v: Value, nowMillis: nat)
    requires !Truthy(v)
    ensures var n := VoucherNumber(v, nowMillis);
      && n[..3] == "BB-" && 1 <= |n| - 3 <= 6 && AllDigits(n[3..])
      && DigitsValue(n[3..]) == nowMillis % 1000000
  {
    var s := NatToString(nowMillis);
    var n := VoucherNumber(v, nowMillis);
    assert n == "BB-" + LastSix(s);
    assert n[3..] == LastSix(s);
    NatToStringValue(nowMillis);
    LastSixValue(s);
  }

  /** The last six digits of a numeral read as its value modulo 10^6. */
  lemma LastSixValue(s: string)
    requires AllDigits(s)
    ensures AllDigits(LastSix(s))
    ensures DigitsValue(LastSix(s)) == DigitsValue(s) % 1000000
  {
    var r := LastSix(s);
    var head := s[..|s| - |r|];
    assert s == head + r;
    AllDigitsSlice(s, 0, |head|);
    AllDigitsSlice(s, |head|, |s|);
    DigitsValueAppend(head, r);
    DigitsValueBound(r);
    if |s| < 6 {
      assert r == s;
      assert Pow10(|s|) <= Pow10(5) by { Pow10Monotone(|s|, 5); }
      assert Pow10(5) == 100000;
    } else {
      assert Pow10(|r|) == 1000000;
      ModMillion(DigitsValue(head), DigitsValue(r));
    }
  }

  lemma ModMillion(hi: nat, lo: nat)
    requires lo < 1000000
    ensures (hi * 1000000 + lo) % 1000000 == lo
  {
  }

  lemma {:induction false} Pow10Monotone(i: nat, j: nat)
    requires i <= j
    ensures Pow10(i) <= Pow10(j)
    decreases j - i
  {
    if i < j {
      Pow10Monotone(i, j - 1);
    }
  }

  const RefundNotice := "Refunds available with 24h notice and ticket return. No show = No refund."

  function Title(f: FormData): string {
    "Blue Bay Voucher - " + Show(Or(f.name, Str("Customer")))
  }

  /** The amount shown everywhere: `price || grandTotal || 0`. */
  function TotalAmount(f: FormData): (r: Value)
    ensures Truthy(f.price) ==> r == f.price
    ensures !Truthy(f.price) && Truthy(f.grandTotal) ==> r == f.grandTotal
    ensures !Truthy(f.price) && !Truthy(f.grandTotal) ==> r == Num(0)
  {
    Or(Or(f.price, f.grandTotal), Num(0))
  }

  function Header(): seq<Cmd> {
    [Frame(10, 10, 190, 277),
     Text("Tele : +2 010 2287 4878", 15, 25, Plain), Text("www.bluebay-egypt.com", 15, 30, Plain),
     Text("BLUE BAY", 85, 25, Plain), Text("DIVING CENTER", 82, 32, Plain),
     Line(10, 40, 200, 40)]
  }

  function Metadata(f: FormData, clock: Clock): seq<Cmd> {
    [Text("Voucher No :", 15, 50, Plain), Text(VoucherNumber(f.voucherNo, clock.nowMillis), 55, 50, Plain),
     Text("Voucher Date :", 130, 50, Plain), Text(Show(Or(f.voucherDate, Str(clock.localeDate))), 175, 50, Plain),
     Line(10, 55, 200, 55)]
  }

  /** Left column: four script-placed rows, 8 mm apart from y = 65. */
  function CustomerRows(f: FormData, repair: string -> Option<string>): seq<Cmd> {
    PlaceField("Name :", f.name, 65, 190, 80, repair)
      + PlaceField("Nationality :", f.nationality, 73, 190, 0, repair)
      + PlaceField("Hotel :", f.hotel, 81, 190, 80, repair)
      + PlaceField("Excursion :", f.excursion, 89, 190, 80, repair)
  }

  /** Right column: the same four heights again, then a separator. */
  function TripRows(f: FormData): seq<Cmd> {
    RightRow("Room No :", f.roomNo, 65, 140) + RightRow("Trip Date :", f.tripDate, 73, 140)
      + RightRow("Time :", f.tripTime, 81, 140) + RightRow("Telephone :", f.telephone, 89, 155)
      + [Line(10, 100, 200, 100)]
  }

  /** The currency row, the passenger counts and the amounts. */
  function Payment(f: FormData, repair: string -> Option<string>): seq<Cmd> {
    PlaceField("Currency :", f.currency, 110, 100, 0, repair) + Passengers(f) + Amounts(f)
  }

  function Passengers(f: FormData): seq<Cmd> {
    [Text("Passengers :", 110, 110, Plain),
     Text("Adults: " + Show(Or(Or(f.ad, f.adultCount), Num(0))), 110, 115, Plain),
     Text("Children: " + Show(Or(Or(f.child, f.childCount), Num(0))), 110, 120, Plain),
     Text("Infants: " + Show(Or(Or(f.inf, f.infantCount), Num(0))), 110, 125, Plain)]
  }

  function Amounts(f: FormData): seq<Cmd> {
    [Text("Total Amount :", 15, 135, Plain), Text(Show(TotalAmount(f)), 65, 135, Plain),
     Text("Paid :", 110, 135, Plain), Text(Show(Or(f.paid, Num(0))), 130, 135, Plain),
     Text("Balance :", 155, 135, Plain), Text(Show(Or(f.unpaid, Num(0))), 180, 135, Plain)]
  }

  function Closing(f: FormData, repair: string -> Option<string>): seq<Cmd> {
    PlaceField("Receiver :", f.receiver, 145, 190, 80, repair)
      + [Line(10, 150, 200, 150), Text(RefundNotice, 15, 160, Options(180, false, false))]
  }

  function Footer(clock: Clock): seq<Cmd> {
    [Text(clock.localeDate, 15, 195, Plain), Text("Page 1", 185, 195, Plain)]
  }

  /** The full voucher, in drawing order. */
  function VoucherLayout(f: FormData, clock: Clock, repair: string -> Option<string>): seq<Cmd> {
    Header() + Metadata(f, clock) + CustomerRows(f, repair) + TripRows(f) + Payment(f, repair)
      + Closing(f, repair) + DashesFrom(15, 185) + Footer(clock)
  }

  function VoucherDocument(f: FormData, clock: Clock, repair: string -> Option<string>): Document {
    Document(Some(Title(f)), VoucherLayout(f, clock, repair))
  }

  /** The abridged voucher drawn when the library fails on the full one. */
  function FallbackDocument(f: FormData): Document {
    Document(None,
      [Text("Blue Bay Diving Center", 20, 20, Plain), Text("Voucher Details:", 20, 40, Plain),
       Text("Customer: " + Show(Or(f.name, Str("N/A"))), 20, 50, Plain),
       Text("Trip: " + Show(Or(f.excursion, Str("N/A"))), 20, 60, Plain),
       Text("Date: " + Show(Or(f.tripDate, Str("N/A"))), 20, 70, Plain),
       Text("Amount: " + Show(TotalAmount(f)), 20, 80, Plain),
       Text("Phone: +2 010 2287 4878", 20, 90, Plain)])
  }

  // ---------------------------------------------------------------------------
  // Layout properties

  /** A command that stays on the 210 x 297 mm page, including the width its
      text may wrap to, and whose right-to-left hint is given only to Arabic,
      right-aligned text. */
  predicate Sound(c: Cmd) {
    match c
    case Text(t, x, y, o) =>
      && 0 <= x <= 210 && 0 <= y <= 297
      && (o.Options? ==> (if o.alignRight then x - o.maxWidth >= 0 else x + o.maxWidth <= 210))
      && (o.Options? && o.rtl ==> IsArabic(t) && o.alignRight)
    case Line(x1, y1, x2, y2) => 0 <= x1 <= 210 && 0 <= x2 <= 210 && 0 <= y1 <= 297 && 0 <= y2 <= 297
    case Frame(l, t, w, h) => 0 <= l && 0 <= t && 0 <= w && 0 <= h && l + w <= 210 && t + h <= 297
  }

  predicate AllSound(cs: seq<Cmd>) {
    forall i :: 0 <= i < |cs| ==> Sound(cs[i])
  }

  lemma AllSoundAppend(a: seq<Cmd>, b: seq<Cmd>)
    requires AllSound(a) && AllSound(b)
    ensures AllSound(a + b)
  {
    forall i | 0 <= i < |a + b| ensures Sound((a + b)[i]) {
      if i < |a| { assert (a + b)[i] == a[i]; } else { assert (a + b)[i] == b[i - |a|]; }
    }
  }

  lemma PlaceFieldSound(caption: string, v: Value, y: int, arabicX: int, maxWidthOption: nat,
                        repair: string -> Option<string>)
    requires 0 <= y <= 297
    requires (arabicX == 190 && maxWidthOption == 80) || (arabicX == 190 && maxWidthOption == 0)
             || (arabicX == 100 && maxWidthOption == 0)
    ensures AllSound(PlaceField(caption, v, y, arabicX, maxWidthOption, repair))
  {
    var r := PlaceField(caption, v, y, arabicX, maxWidthOption, repair);
    assert Sound(r[0]) && Sound(r[1]);
  }

  lemma DashesSound(from: int, y: int)
    requires 0 <= from && 0 <= y <= 297
    ensures AllSound(DashesFrom(from, y))
  {
    var r := DashesFrom(from, y);
    forall i | 0 <= i < |r| ensures Sound(r[i]) {
      assert from + 5 * i < 195;
    }
  }

  lemma HeaderSound()
    ensures AllSound(Header())
  {
  }

  lemma MetadataSound(f: FormData, clock: Clock)
    ensures AllSound(Metadata(f, clock))
  {
  }

  lemma CustomerRowsSound(f: FormData, repair: string -> Option<string>)
    ensures AllSound(CustomerRows(f, repair))
  {
    var r1 := PlaceField("Name :", f.name, 65, 190, 80, repair);
    var r2 := PlaceField("Nationality :", f.nationality, 73, 190, 0, repair);
    var r3 := PlaceField("Hotel :", f.hotel, 81, 190, 80, repair);
    var r4 := PlaceField("Excursion :", f.excursion, 89, 190, 80, repair);
    PlaceFieldSound("Name :", f.name, 65, 190, 80, repair);
    PlaceFieldSound("Nationality :", f.nationality, 73, 190, 0, repair);
    PlaceFieldSound("Hotel :", f.hotel, 81, 190, 80, repair);
    PlaceFieldSound("Excursion :", f.excursion, 89, 190, 80, repair);
    AllSoundAppend(r1, r2);
    AllSoundAppend(r1 + r2, r3);
    AllSoundAppend(r1 + r2 + r3, r4);
  }

  lemma TripRowsSound(f: FormData)
    ensures AllSound(TripRows(f))
  {
  }

  lemma PassengersSound(f: FormData)
    ensures AllSound(Passengers(f))
  {
  }

  lemma AmountsSound(f: FormData)
    ensures AllSound(Amounts(f))
  {
  }

  lemma PaymentSound(f: FormData, repair: string -> Option<string>)
    ensures AllSound(Payment(f, repair))
  {
    var cu := PlaceField("Currency :", f.currency, 110, 100, 0, repair);
    PlaceFieldSound("Currency :", f.currency, 110, 100, 0, repair);
    PassengersSound(f);
    AmountsSound(f);
    AllSoundAppend(cu, Passengers(f));
    AllSoundAppend(cu + Passengers(f), Amounts(f));
  }

  lemma ClosingSound(f: FormData, repair: string -> Option<string>)
    ensures AllSound(Closing(f, repair))
  {
    PlaceFieldSound("Receiver :", f.receiver, 145, 190, 80, repair);
    AllSoundAppend(PlaceField("Receiver :", f.receiver, 145, 190, 80, repair),
                   [Line(10, 150, 200, 150), Text(RefundNotice, 15, 160, Options(180, false, false))]);
  }

  lemma FooterSound(clock: Clock)
    ensures AllSound(Footer(clock))
  {
  }

  /** Everything on the voucher fits the page, and only Arabic text is drawn
      right-to-left, and then right-aligned. */
  lemma VoucherLayoutSound(f: FormData, clock: Clock, repair: string -> Option<string>)
    ensures AllSound(VoucherLayout(f, clock, repair))
  {
    var s0 := Header();
    var s1 := s0 + Metadata(f, clock);
    var s2 := s1 + CustomerRows(f, repair);
    var s3 := s2 + TripRows(f);
    var s4 := s3 + Payment(f, repair);
    var s5 := s4 + Closing(f, repair);
    var s6 := s5 + DashesFrom(15, 185);
    HeaderSound();
    MetadataSound(f, clock);
    AllSoundAppend(s0, Metadata(f, clock));
    CustomerRowsSound(f, repair);
    AllSoundAppend(s1, CustomerRows(f, repair));
    TripRowsSound(f);
    AllSoundAppend(s2, TripRows(f));
    PaymentSound(f, repair);
    AllSoundAppend(s3, Payment(f, repair));
    ClosingSound(f, repair);
    AllSoundAppend(s4, Closing(f, repair));
    DashesSound(15, 185);
    AllSoundAppend(s5, DashesFrom(15, 185));
    FooterSound(clock);
    AllSoundAppend(s6, Footer(clock));
  }

  /** The amount the voucher shows as its total is `price`, else `grandTotal`,
      else 0, in the full and in the abridged layout alike. */
  lemma TotalAmountShown(f: FormData, clock: Clock, repair: string -> Option<string>)
    ensures Text(Show(TotalAmount(f)), 65, 135, Plain) in VoucherLayout(f, clock, repair)
    ensures FallbackDocument(f).commands[5] == Text("Amount: " + Show(TotalAmount(f)), 20, 80, Plain)
  {
    var t := Text(Show(TotalAmount(f)), 65, 135, Plain);
    assert t == Amounts(f)[1];
    var cu := PlaceField("Currency :", f.currency, 110, 100, 0, repair);
    assert t in cu + Passengers(f) + Amounts(f);
    var pre := Header() + Metadata(f, clock) + CustomerRows(f, repair) + TripRows(f);
    assert t in pre + Payment(f, repair);
  }

  // ---------------------------------------------------------------------------
  // The generator object

  const NotGenerated := "PDF document not generated yet"

  /** What `doc.output("blob")` yields; its bytes belong to the PDF library. */
  datatype Blob = Blob(of: Document)

  /** The voucher number and date line. */
  method DrawMetadata(f: FormData, clock: Clock) returns (cmds: seq<Cmd>)
    ensures cmds == Metadata(f, clock)
    ensures |cmds| == 5 && cmds[1].Text? && cmds[3].Text?
    ensures Truthy(f.voucherNo) ==> cmds[1].text == Show(f.voucherNo)
    ensures !Truthy(f.voucherNo) ==>
              var n := cmds[1].text;
              && n[..3] == "BB-" && 1 <= |n| - 3 <= 6 && AllDigits(n[3..])
              && DigitsValue(n[3..]) == clock.nowMillis % 1000000
    ensures Truthy(f.voucherDate) ==> cmds[3].text == Show(f.voucherDate)
    ensures !Truthy(f.voucherDate) ==> cmds[3].text == clock.localeDate
  {
    var voucherNo := VoucherNumber(f.voucherNo, clock.nowMillis);
    if !Truthy(f.voucherNo) {
      GeneratedVoucherNumber(f.voucherNo, clock.nowMillis);
    }
    cmds := [Text("Voucher No :", 15, 50, Plain), Text(voucherNo, 55, 50, Plain),
             Text("Voucher Date :", 130, 50, Plain),
             Text(Show(Or(f.voucherDate, Str(clock.localeDate))), 175, 50, Plain),
             Line(10, 55, 200, 55)];
  }

  /** The left column, moving down 8 mm per row from y = 65. */
  method DrawCustomerRows(f: FormData, repair: string -> Option<string>) returns (cmds: seq<Cmd>)
    ensures cmds == CustomerRows(f, repair)
  {
    var yPos := 65;
    cmds := PlaceField("Name :", f.name, yPos, 190, 80, repair);
    yPos := yPos + 8;
    cmds := cmds + PlaceField("Nationality :", f.nationality, yPos, 190, 0, repair);
    yPos := yPos + 8;
    cmds := cmds + PlaceField("Hotel :", f.hotel, yPos, 190, 80, repair);
    yPos := yPos + 8;
    cmds := cmds + PlaceField("Excursion :", f.excursion, yPos, 190, 80, repair);
  }

  /** The right column, from the top again, then the separator. */
  method DrawTripRows(f: FormData) returns (cmds: seq<Cmd>)
    ensures cmds == TripRows(f)
  {
    var yPos := 65;
    cmds := RightRow("Room No :", f.roomNo, yPos, 140);
    yPos := yPos + 8;
    cmds := cmds + RightRow("Trip Date :", f.tripDate, yPos, 140);
    yPos := yPos + 8;
    cmds := cmds + RightRow("Time :", f.tripTime, yPos, 140);
    yPos := yPos + 8;
    cmds := cmds + RightRow("Telephone :", f.telephone, yPos, 155);
    cmds := cmds + [Line(10, 100, 200, 100)];
  }

  /** The payment block from y = 110; `yPos` is where the cursor ends. */
  method DrawPayment(f: FormData, repair: string -> Option<string>) returns (cmds: seq<Cmd>, yPos: int)
    ensures cmds == Payment(f, repair) && yPos == 145
  {
    yPos := 110;
    var currency := PlaceField("Currency :", f.currency, yPos, 100, 0, repair);
    var pax := [Text("Passengers :", 110, yPos, Plain)];
    yPos := yPos + 5;
    pax := pax + [Text("Adults: " + Show(Or(Or(f.ad, f.adultCount), Num(0))), 110, yPos, Plain)];
    yPos := yPos + 5;
    pax := pax + [Text("Children: " + Show(Or(Or(f.child, f.childCount), Num(0))), 110, yPos, Plain)];
    yPos := yPos + 5;
    pax := pax + [Text("Infants: " + Show(Or(Or(f.inf, f.infantCount), Num(0))), 110, yPos, Plain)];
    assert pax == Passengers(f);
    yPos := yPos + 10;
    var amounts := [Text("Total Amount :", 15, yPos, Plain), Text(Show(TotalAmount(f)), 65, yPos, Plain),
                    Text("Paid :", 110, yPos, Plain), Text(Show(Or(f.paid, Num(0))), 130, yPos, Plain),
                    Text("Balance :", 155, yPos, Plain), Text(Show(Or(f.unpaid, Num(0))), 180, yPos, Plain)];
    assert amounts == Amounts(f);
    cmds := currency + pax + amounts;
    yPos := yPos + 10;
  }

  /** The receiver row, the separator and the refund notice below `yPos`. */
  method DrawClosing(f: FormData, repair: string -> Option<string>, yPos: int) returns (cmds: seq<Cmd>)
    requires yPos == 145
    ensures cmds == Closing(f, repair)
  {
    cmds := PlaceField("Receiver :", f.receiver, yPos, 190, 80, repair)
            + [Line(10, yPos + 5, 200, yPos + 5), Text(RefundNotice, 15, yPos + 15, Options(180, false, false))];
  }

  /** `createPDFDownloadLink`'s result; the object URL belongs to the browser. */
  datatype DownloadLink = DownloadLink(blob: Blob, filename: string)

  class PdfGenerator {
    var doc: Option<Document>
    var pdfBlob: Option<Blob>

    constructor ()
      ensures doc == None && pdfBlob == None
    {
      doc := None;
      pdfBlob := None;
    }

    /** `generateVoucherPDF(formData)`. `libraryFails` says whether the PDF
        library throws while drawing the full voucher, in which case the
        abridged one replaces it. Either way a document exists afterwards. */
    method GenerateVoucherPdf(f: FormData, clock: Clock, repair: string -> Option<string>, libraryFails: bool)
      returns (d: Document)
      modifies this
      ensures doc == Some(d) && pdfBlob == old(pdfBlob)
      ensures d == if libraryFails then FallbackDocument(f) else VoucherDocument(f, clock, repair)
    {
      if libraryFails {
        d := FallbackDocument(f);
        doc := Some(d);
        return;
      }
      var meta := DrawMetadata(f, clock);
      var left := DrawCustomerRows(f, repair);
      var right := DrawTripRows(f);
      var payment, yPos := DrawPayment(f, repair);
      var closing := DrawClosing(f, repair, yPos);
      // The dashed separator and the footer.
      var dashY := yPos + 40;
      var dashes := DrawDashes(15, dashY);
      var footer := [Text(clock.localeDate, 15, dashY + 10, Plain), Text("Page 1", 185, dashY + 10, Plain)];
      assert footer == Footer(clock);
      var cmds := Header() + meta + left + right + payment + closing + dashes + footer;
      assert cmds == VoucherLayout(f, clock, repair);
      d := Document(Some(Title(f)), cmds);
      doc := Some(d);
    }

    /** `getPDFBlob()`. */
    method GetPdfBlob() returns (r: Result<Blob>)
      modifies this
      ensures doc == old(doc)
      ensures old(doc).None? ==> r == Failure(NotGenerated) && pdfBlob == old(pdfBlob)
      ensures old(doc).Some? ==> r == Success(Blob(old(doc).value)) && pdfBlob == Some(r.value)
    {
      if doc.None? {
        return Failure(NotGenerated);
      }
      pdfBlob := Some(Blob(doc.value));
      r := Success(pdfBlob.value);
    }

    /** `downloadPDF(filename)`: the name the document is saved under. */
    method DownloadPdf(filename: string := "voucher.pdf") returns (r: Result<string>)
      ensures doc.None? ==> r == Failure(NotGenerated)
      ensures doc.Some? ==> r == Success(filename)
    {
      if doc.None? {
        return Failure(NotGenerated);
      }
      r := Success(filename);
    }

    /** `getPDFBase64()`: the data URI encodes the current document. */
    function GetPdfBase64(): (r: Result<Document>)
      reads this
      ensures r.Failure? <==> doc.None?
      ensures r.Failure? ==> r.error == NotGenerated
      ensures r.Success? ==> doc == Some(r.value)
    {
      match doc
      case None => Failure(NotGenerated)
      case Some(d) => Success(d)
    }

    /** `createPDFDownloadLink(filename)`. */
    method CreatePdfDownloadLink(filename: string := "voucher.pdf") returns (r: Result<DownloadLink>)
      modifies this
      ensures doc == old(doc)
      ensures old(doc).None? ==> r == Failure(NotGenerated) && pdfBlob == old(pdfBlob)
      ensures old(doc).Some? ==> r == Success(DownloadLink(Blob(old(doc).value), filename))
                                 && pdfBlob == Some(r.value.blob)
    {
      if doc.None? {
        return Failure(NotGenerated);
      }
      var blob := GetPdfBlob();
      r := Success(DownloadLink(blob.value, filename));
    }
  }

  /** `generateExcursionPDF(formData)`: a new generator holding the voucher. */
  method GenerateExcursionPdf(f: FormData, clock: Clock, repair: string -> Option<string>, libraryFails: bool)
    returns (g: PdfGenerator)
    ensures fresh(g) && g.pdfBlob == None
    ensures g.doc == Some(if libraryFails then FallbackDocument(f) else VoucherDocument(f, clock, repair))
  {
    g := new PdfGenerator();
    var _ := g.GenerateVoucherPdf(f, clock, repair, libraryFails);
  }

  /** The guard as a two-state machine: every accessor refuses a new generator,
      and works once a voucher has been generated. */
  method GuardLifecycle(f: FormData, clock: Clock, repair: string -> Option<string>, libraryFails: bool)
    returns (before: Result<Blob>, after: Result<Blob>, saved: Result<string>)
    ensures before == Failure(NotGenerated)
    ensures after.Success? && saved == Success("voucher.pdf")
  {
    var g := new PdfGenerator();
    before := g.GetPdfBlob();
    var d := g.GenerateVoucherPdf(f, clock, repair, libraryFails);
    after := g.GetPdfBlob();
    saved := g.DownloadPdf();
  }
}
