/**
  Sending a booking summary over WhatsApp: the phone number normalised to a
  digits-only number with the Egyptian country code, the name of the
  downloaded voucher file, the two message templates, the `wa.me` link, and
  the two send paths with their dispatch.
*/
module Messaging {
  import opened Maybe
  import opened JsText
  import opened Voucher

  // ---------------------------------------------------------------------------
  // Phone numbers

  /** `s.replace(/\D/g, "")`: the digits of `s`, in order. */
  function KeepDigits(s: string): (r: string)
    ensures AllDigits(r) && |r| <= |s|
    ensures AllDigits(s) ==> r == s
    decreases |s|
  {
    if s == [] then []
    else (if IsDigit(s[0]) then [s[0]] else []) + KeepDigits(s[1..])
  }

  /** Filtering works piecewise, so `KeepDigits` drops exactly the non-digits. */
  lemma {:induction false} KeepDigitsAppend(a: string, b: string)
    ensures KeepDigits(a + b) == KeepDigits(a) + KeepDigits(b)
    decreases |a|
  {
    if a == [] {
      assert a + b == b;
    } else {
      assert (a + b)[1..] == a[1..] + b;
      KeepDigitsAppend(a[1..], b);
    }
  }

  /** `String(phoneNumber)` with the non-digits removed, prefixed with `2`
      unless it already starts with one. */
  function NormalisePhone(raw: Value): (r: string)
    ensures AllDigits(r) && |r| >= 1 && r[0] == '2'
    ensures StartsWith(KeepDigits(Show(raw)), "2") ==> r == KeepDigits(Show(raw))
    ensures !StartsWith(KeepDigits(Show(raw)), "2") ==> r == "2" + KeepDigits(Show(raw))
  {
    var d := KeepDigits(Show(raw));
    if StartsWith(d, "2") then d else "2" + d
  }

  /** Normalising a normalised number changes nothing. */
  lemma NormalisePhoneIdempotent(raw: Value)
    ensures NormalisePhone(Str(NormalisePhone(raw))) == NormalisePhone(raw)
  {
    var r := NormalisePhone(raw);
    assert KeepDigits(r) == r;
    assert r[..1] == "2";
  }

  /** A number without the leading `2`, such as a local `01...` mobile
      number, gains it. */
  lemma LocalNumberGainsCountryCode(d: string)
    requires AllDigits(d) && (d == [] || d[0] != '2')
    ensures NormalisePhone(Str(d)) == "2" + d
  {
  }

  /** A number already written with the country code, here after a `+`, keeps
      exactly its digits. */
  lemma InternationalNumberKept(d: string)
    requires AllDigits(d) && d != [] && d[0] == '2'
    ensures NormalisePhone(Str("+" + d)) == d
  {
    KeepDigitsAppend("+", d);
    assert KeepDigits("+") == [];
    assert d[..1] == "2";
  }

  /** Spaces, dashes, brackets and other non-digits anywhere in the number
      do not change the result. */
  lemma SeparatorsIgnored(a: string, sep: string, b: string)
    requires forall k :: 0 <= k < |sep| ==> !IsDigit(sep[k])
    ensures NormalisePhone(Str(a + sep + b)) == NormalisePhone(Str(a + b))
  {
    KeepDigitsAppend(a + sep, b);
    KeepDigitsAppend(a, sep);
    KeepDigitsAppend(a, b);
    NoDigitsKept(sep);
    assert KeepDigits(a) + [] == KeepDigits(a);
    SameDigitsSameNumber(a + sep + b, a + b);
  }

  lemma SameDigitsSameNumber(x: string, y: string)
    requires KeepDigits(x) == KeepDigits(y)
    ensures NormalisePhone(Str(x)) == NormalisePhone(Str(y))
  {
  }

  lemma {:induction false} NoDigitsKept(s: string)
    requires forall k :: 0 <= k < |s| ==> !IsDigit(s[k])
    ensures KeepDigits(s) == []
    decreases |s|
  {
    if s != [] {
      assert !IsDigit(s[0]);
      NoDigitsKept(s[1..]);
    }
  }

  /** Both send paths start by formatting the number in place: digits only,
      then the country code unless it is already there. */
  method FormatPhone(phoneNumber: Value) returns (formattedPhone: string)
    ensures formattedPhone == NormalisePhone(phoneNumber)
  {
    formattedPhone := KeepDigits(Show(phoneNumber));
    if !StartsWith(formattedPhone, "2") {
      formattedPhone := "2" + formattedPhone;
    }
  }

  // ---------------------------------------------------------------------------
  // The downloaded file's name

  predicate IsAsciiAlnum(c: char) {
    ('a' <= c <= 'z') || ('A' <= c <= 'Z') || ('0' <= c <= '9')
  }

  /** Length in UTF-16 code units, which is what the regular expression (it has
      no `u` flag) walks over. */
  function Utf16Length(s: string): nat
    decreases |s|
  {
    if s == [] then 0 else (if s[0] as int >= 0x1_0000 then 2 else 1) + Utf16Length(s[1..])
  }

  /** `s.replace(/[^a-zA-Z0-9]/g, "_")`: every code unit that is not an ASCII
      letter or digit becomes `_`, so a character outside the Basic
      Multilingual Plane becomes `__`. */
  function SanitiseName(s: string): (r: string)
    ensures |r| == Utf16Length(s)
    ensures forall k :: 0 <= k < |r| ==> IsAsciiAlnum(r[k]) || r[k] == '_'
    decreases |s|
  {
    if s == [] then []
    else
      (if IsAsciiAlnum(s[0]) then [s[0]] else if s[0] as int >= 0x1_0000 then "__" else "_")
        + SanitiseName(s[1..])
  }

  /** On text within the Basic Multilingual Plane the replacement keeps the
      length and changes exactly the characters outside `[a-zA-Z0-9]`. */
  lemma {:induction false} SanitiseNameInPlace(s: string)
    requires forall k :: 0 <= k < |s| ==> (s[k] as int) < 0x1_0000
    ensures |SanitiseName(s)| == |s|
    ensures forall k :: 0 <= k < |s| ==>
              SanitiseName(s)[k] == if IsAsciiAlnum(s[k]) then s[k] else '_'
    decreases |s|
  {
    if s != [] {
      SanitiseNameInPlace(s[1..]);
      var r := SanitiseName(s);
      var rest := SanitiseName(s[1..]);
      assert r == [if IsAsciiAlnum(s[0]) then s[0] else '_'] + rest;
      forall k | 1 <= k < |s|
        ensures r[k] == if IsAsciiAlnum(s[k]) then s[k] else '_'
      {
        assert r[k] == rest[k - 1] && s[1..][k - 1] == s[k];
      }
    }
  }

  /** `iso.split("T")[0]`: the text before the first `T`. */
  function IsoDate(iso: string): (r: string)
    ensures StartsWith(iso, r) && 'T' !in r
    ensures |r| < |iso| ==> iso[|r|] == 'T'
    decreases |iso|
  {
    if iso == [] || iso[0] == 'T' then [] else [iso[0]] + IsoDate(iso[1..])
  }

  /** `BlueBay_Voucher_<name>_<date>.pdf`, with the name sanitised and
      defaulting to `Customer`; `isoNow` is `new Date().toISOString()`. */
  function FileName(name: Value, isoNow: string): string {
    "BlueBay_Voucher_" + SanitiseName(Show(Or(name, Str("Customer")))) + "_" + IsoDate(isoNow) + ".pdf"
  }

  /** A name made of ASCII letters and digits is kept as it is, and an ISO
      timestamp contributes its date. */
  lemma FileNameForTimestamp(name: string, date: string, time: string)
    requires name != [] && (forall k :: 0 <= k < |name| ==> IsAsciiAlnum(name[k]))
    requires 'T' !in date
    ensures FileName(Str(name), date + "T" + time) == "BlueBay_Voucher_" + name + "_" + date + ".pdf"
  {
    IsoDateOfTimestamp(date, time);
    SanitiseKeepsAlnum(name);
  }

  /** A missing or empty name is written as `Customer`. */
  lemma MissingNameIsCustomer(name: Value, iso: string)
    requires !Truthy(name)
    ensures FileName(name, iso) == FileName(Str("Customer"), iso)
  {
  }

  lemma {:induction false} SanitiseKeepsAlnum(s: string)
    requires forall k :: 0 <= k < |s| ==> IsAsciiAlnum(s[k])
    ensures SanitiseName(s) == s
    decreases |s|
  {
    if s != [] {
      assert IsAsciiAlnum(s[0]);
      SanitiseKeepsAlnum(s[1..]);
    }
  }

  lemma {:induction false} IsoDateOfTimestamp(date: string, time: string)
    requires 'T' !in date
    ensures IsoDate(date + "T" + time) == date
    decreases |date|
  {
    if date == [] {
      assert (date + "T" + time)[0] == 'T';
    } else {
      assert (date + "T" + time)[1..] == date[1..] + "T" + time;
      assert date[0] in date;
      IsoDateOfTimestamp(date[1..], time);
    }
  }

  // ---------------------------------------------------------------------------
  // Messages and the link

  const BusinessPhone := "+2 010 2287 4878"

  /** The part both templates share: the booking details, the payment
      details, and the enquiries prompt. */
  function BookingSummary(f: FormData): string {
    BookingDetails(f) + AmountLine(f) + BalanceLines(f)
  }

  function BookingDetails(f: FormData): string {
    "Your trip booking has been successfully confirmed 🌊\n\n📋 Booking Details:\n• Name: "
      + Show(Or(f.name, Str(""))) + "\n• Hotel: " + Show(Or(f.hotel, Str("")))
      + "\n• Trip: " + Show(Or(f.excursion, Str(""))) + "\n• Date: " + Show(Or(f.tripDate, Str("")))
      + "\n• Time: " + Show(Or(f.tripTime, Str(""))) + "\n• Room Number: " + Show(Or(f.roomNo, Str("")))
      + "\n\n💰 Payment Details:\n"
  }

  function AmountLine(f: FormData): string {
    "• Total Amount: " + Show(TotalAmount(f)) + "\n"
  }

  function BalanceLines(f: FormData): string {
    "• Amount Paid: " + Show(Or(f.paid, Num(0))) + "\n• Balance Due: " + Show(Or(f.unpaid, Num(0)))
      + "\n\n📞 For inquiries: "
  }

  /** The message sent along with a downloaded voucher. */
  function DownloadMessage(f: FormData): string {
    BookingSummary(f) + DownloadSignature
  }

  const DownloadSignature := BusinessPhone + "\n🌐 Website: www.bluebay-egypt.com\n\nWe look forward to serving you! 🐠\nBlue Bay Diving Center"

  /** The message of the simple path. */
  function SimpleMessage(f: FormData): string {
    BookingSummary(f) + SimpleSignature
  }

  /** A second space before the number, and no website line. */
  const SimpleSignature := " " + BusinessPhone + "\n\nWe look forward to serving you! 🐠\nBlue Bay Diving Center"

  /** `https://wa.me/<phone>?text=<encoded>`. */
  function WhatsAppUrl(phone: string, encoded: string): string {
    "https://wa.me/" + phone + "?text=" + encoded
  }

  /** The link's path reads back as the phone number it was built from. */
  lemma WhatsAppUrlPhone(phone: string, encoded: string)
    requires AllDigits(phone)
    ensures var u := WhatsAppUrl(phone, encoded);
      StartsWith(u, "https://wa.me/") && LeadingDigits(u[14..]) == phone
  {
    var u := WhatsAppUrl(phone, encoded);
    assert u[14..] == phone + ("?text=" + encoded);
    LeadingDigitsStop(phone, "?text=" + encoded);
  }

  /** The voucher, its abridged form and both messages show the same total:
      `price`, else `grandTotal`, else 0. */
  lemma TotalAgreesEverywhere(f: FormData, clock: Clock, repair: string -> Option<string>)
    ensures Text(Show(TotalAmount(f)), 65, 135, Plain) in VoucherLayout(f, clock, repair)
    ensures FallbackDocument(f).commands[5].text == "Amount: " + Show(TotalAmount(f))
    ensures Contains(DownloadMessage(f), "• Total Amount: " + Show(TotalAmount(f)) + "\n")
    ensures Contains(SimpleMessage(f), "• Total Amount: " + Show(TotalAmount(f)) + "\n")
  {
    TotalAmountShown(f, clock, repair);
    ContainsInfixThen(BookingDetails(f), AmountLine(f), BalanceLines(f), DownloadSignature);
    ContainsInfixThen(BookingDetails(f), AmountLine(f), BalanceLines(f), SimpleSignature);
  }

  lemma ContainsInfixThen(a: string, p: string, b: string, c: string)
    ensures Contains(a + p + b + c, p)
  {
    assert a + p + b + c == a + p + (b + c);
    ContainsInfix(a, p, b + c);
  }

  // ---------------------------------------------------------------------------
  // Sending

  /** Where the browser was sent: a new tab, or the current page redirected
      because the pop-up was blocked. */
  datatype Navigation = OpenedTab(url: string) | Redirected(url: string)

  /** `{ success: true, message, phoneNumber, url }`. */
  datatype Delivery = Delivery(message: string, phoneNumber: string, url: string)

  /** What `sendPDFToWhatsAppWithDownload` returned, the file it saved, if
      any, and the navigation it caused. */
  datatype DownloadOutcome = DownloadOutcome(result: Delivery, downloaded: Option<string>, navigation: Navigation)

  /** `{ success: true, phone }` and the link handed to `window.open`. */
  datatype SimpleOutcome = SimpleOutcome(phone: string, link: string)

  datatype Sent = ViaDownload(full: DownloadOutcome) | ViaSimple(simple: SimpleOutcome)

  /** The download step: a generator holding a document saves it under
      `FileName`; otherwise nothing is saved. */
  method SaveVoucher(gen: PdfGenerator?, name: Value, isoNow: string) returns (downloaded: Option<string>)
    ensures downloaded == if gen != null && gen.doc.Some? then Some(FileName(name, isoNow)) else None
  {
    downloaded := None;
    if gen != null && gen.doc.Some? {
      var fileName := FileName(name, isoNow);
      var saved := gen.DownloadPdf(fileName);
      downloaded := Some(saved.value);
    }
  }

  /** `sendPDFToWhatsAppWithDownload(phoneNumber, pdfData, pdfGenerator)`.
      `isoNow` is the clock's ISO timestamp, `encode` is `encodeURIComponent`,
      and `popupOpens` is whether `window.open` returned a window. */
  method SendPdfToWhatsAppWithDownload(phoneNumber: Value, data: FormData, gen: PdfGenerator?,
                                       isoNow: string, encode: string -> string, popupOpens: bool)
    returns (o: DownloadOutcome)
    ensures o.result.phoneNumber == NormalisePhone(phoneNumber)
    ensures o.result.url == WhatsAppUrl(NormalisePhone(phoneNumber), encode(DownloadMessage(data)))
    ensures o.downloaded == if gen != null && gen.doc.Some? then Some(FileName(data.name, isoNow)) else None
    ensures popupOpens ==> o.navigation == OpenedTab(o.result.url) && o.result.message == "WhatsApp opened successfully"
    ensures !popupOpens ==> o.navigation == Redirected(o.result.url) && o.result.message == "WhatsApp redirect initiated"
  {
    var formattedPhone := FormatPhone(phoneNumber);
    var downloaded := SaveVoucher(gen, data.name, isoNow);
    var url := WhatsAppUrl(formattedPhone, encode(DownloadMessage(data)));
    if popupOpens {
      o := DownloadOutcome(Delivery("WhatsApp opened successfully", formattedPhone, url), downloaded, OpenedTab(url));
    } else {
      o := DownloadOutcome(Delivery("WhatsApp redirect initiated", formattedPhone, url), downloaded, Redirected(url));
    }
  }

  /** `sendToWhatsApp(phoneNumber, pdfData)`: the same number, the simple
      message, and no download. */
  method SendToWhatsApp(phoneNumber: Value, data: FormData, encode: string -> string)
    returns (o: SimpleOutcome)
    ensures o.phone == NormalisePhone(phoneNumber)
    ensures o.link == WhatsAppUrl(NormalisePhone(phoneNumber), encode(SimpleMessage(data)))
  {
    var phone := FormatPhone(phoneNumber);
    o := SimpleOutcome(phone, WhatsAppUrl(phone, encode(SimpleMessage(data))));
  }

  /** `sendPDFToWhatsApp(phoneNumber, pdfData, pdfGenerator)`: a generator
      selects the download path, even one with no document yet, in which case
      nothing is saved; no generator selects the simple path. */
  method SendPdfToWhatsApp(phoneNumber: Value, data: FormData, gen: PdfGenerator?,
                           isoNow: string, encode: string -> string, popupOpens: bool)
    returns (r: Sent)
    ensures r.ViaSimple? <==> gen == null
    ensures r.ViaSimple? ==> r.simple.phone == NormalisePhone(phoneNumber)
                             && r.simple.link == WhatsAppUrl(r.simple.phone, encode(SimpleMessage(data)))
    ensures r.ViaDownload? ==>
              && r.full.result.phoneNumber == NormalisePhone(phoneNumber)
              && r.full.result.url == WhatsAppUrl(r.full.result.phoneNumber, encode(DownloadMessage(data)))
              && (r.full.downloaded.Some? <==> gen.doc.Some?)
  {
    if gen != null {
      var o := SendPdfToWhatsAppWithDownload(phoneNumber, data, gen, isoNow, encode, popupOpens);
      r := ViaDownload(o);
    } else {
      var o := SendToWhatsApp(phoneNumber, data, encode);
      r := ViaSimple(o);
    }
  }
}
