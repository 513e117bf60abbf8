# Excursion booking form — verified model

A Dafny model of the logic behind the excursion booking form of the Blue Bay
Diving Center web site, covering three parts.

1. **Pax/price table** (`PriceTable`). Head counts and per-person prices are typed as text and read with JavaScript's parse-and-clamp rules. The totals are derived from them; infants pay no tax. The pricing snapshot is propagated to the hosting form through a debounced `onPriceChange`:
   - the first call is suppressed;
   - a call with unchanged inputs is dropped;
   - a call is sent at once when more than 500 ms have passed since the last one;
   - otherwise a single deferred call replaces any pending one.

   The component is a class (`PaxPricing`) whose methods update its fields. Pure functions over the same state specify them, and lemmas about whole event traces rest on those functions.
2. **Voucher and messaging** (`Voucher`, `Messaging`). `generateVoucherPDF` becomes a list of draw commands: text with x, y and options, lines and the page frame. Each field is placed by script: Arabic text is right-aligned with an rtl hint, anything else is plain at x = 45. The model also covers:
   - the text clean-up;
   - the generated voucher number;
   - the 36-segment dashed line, drawn by a loop;
   - the abridged fallback voucher;
   - the generator object, whose accessors fail until a document exists.

   The WhatsApp helpers are modelled as well: phone number normalisation, the download file name, the two message templates, the `wa.me` link and the dispatch between the two send paths.
3. **Code-search widgets** (`Dropdown`). The roads, currencies, nationalities, hotels and cities widgets share one class, `CodeSearch`, which holds the list, the filtered list, the selection and the typed code. Its two handlers change that state and report the callback they make.
   - Hotels, cities and nationalities filter by code prefix. They auto-select and look up by `code === parseInt(text)`.
   - Currencies and roads filter by substring. They auto-select with a four-way loose test and look up by `toString()` equality.

`JsText` holds the ECMAScript string and number behaviour the code relies on: `trim`, `startsWith`, `includes`, `Number#toString` for whole numbers, `parseInt(s, 10)` and a decimal subset of `parseFloat`. `Maybe` holds `Option` and `Result`.

Points where the code behaves in a way a reader might not expect, all of which the model follows:
- Currencies and roads are filtered with `includes`, so by substring rather than by prefix (`CurrencyDropdown.jsx:80-81`, `RoadDropdown.jsx:95-96`).
- Hotels, cities and nationalities auto-select an item whose code equals `parseInt` of the typed text. The prefix test is used only for the filtered list (`HotelDropdown.jsx:57-70`).
- Wherever a total is shown, the amount is `price || grandTotal || 0` (`PDFGenerator.js:259`, `323`, `427`, `500`).
- An immediate debounced call needs strictly more than 500 ms since the last call (`PriceTable.jsx:97`).
- The abridged voucher ends with a phone line (`PDFGenerator.js:327`).

Values and effects the caller supplies as parameters:
- The clock is passed in: `Date.now()`, `toLocaleDateString()`, `toISOString()` and the time of each render or timer event.
- `encodeURIComponent` and the mojibake repair `decodeURIComponent(escape(t))` are function arguments (the repair yields `None` when it throws).
- Whether the PDF library throws and whether `window.open` returns a window are booleans.
- The fetched reference lists are method arguments.

## Model

| member | source | states |
|---|---|---|
| PriceTable.ParseCount | src/components/shared/form/PriceTable.jsx:164-172 | defines how a count field is read: `parseInt(value, 10)`, with `NaN` and negatives read as 0. Its round trip is `ParseCountOfIntToString` |
| PriceTable.ParsePrice | src/components/shared/form/PriceTable.jsx:192-200 | a price field never reads as negative, whatever is typed |
| PriceTable.ParseCountOfIntToString | src/components/shared/form/PriceTable.jsx:164-172 | a count field holding the decimal form of n reads back as n, or as 0 when n is negative |
| PriceTable.ParsePriceOfIntToString | src/components/shared/form/PriceTable.jsx:192-200 | the same for price fields, through the decimal parse |
| PriceTable.SetCount | src/components/shared/form/PriceTable.jsx:174-186 | only the count named by the kind changes, to the parsed text; prices and tax never change; an unknown kind, `"tax"` included, changes nothing |
| PriceTable.SetPrice | src/components/shared/form/PriceTable.jsx:202-217 | only the amount named by the kind changes, to the parsed text; counts never change; `taxPerPerson` changes only for `"tax"` |
| PriceTable.Blur | src/components/shared/form/PriceTable.jsx:229-233 | a non-empty field is left alone on blur; an empty one resets exactly the field blurred to 0 and leaves the other six inputs alone; blurring keeps all inputs non-negative |
| PriceTable.SettersKeepNonNegative | src/components/shared/form/PriceTable.jsx:162-218 | from non-negative inputs, every edit leaves all seven inputs non-negative |
| PriceTable.Totals | src/components/shared/form/PriceTable.jsx:118-146 | defines the snapshot the totals effect builds from the inputs. Its formulas are stated by `GrandTotalFormula`, `InfantsAreTaxFree` and `TotalsNonNegative` |
| PriceTable.GrandTotalFormula | src/components/shared/form/PriceTable.jsx:119-146 | the snapshot echoes the inputs; per passenger, each adult and child costs their price plus the tax and each infant only their price; the tax total is the tax on every passenger who is not an infant |
| PriceTable.InfantsAreTaxFree | src/components/shared/form/PriceTable.jsx:119-124 | changing the infant count leaves the tax total alone and moves the grand total by exactly the infant price per infant |
| PriceTable.TotalsNonNegative | src/components/shared/form/PriceTable.jsx:119-124 | non-negative inputs give non-negative totals and passenger count |
| PriceTable.ScenarioTwoAdultsOneChild | src/components/shared/form/PriceTable.jsx:119-146 | 2 adults at 50, 1 child at 30, tax 5: totals 100, 30, 0, 15, grand 145, 3 passengers |
| PriceTable.Propagate | src/components/shared/form/PriceTable.jsx:65-112 | first call only clears the first-render flag; unchanged inputs change nothing; a real change records its inputs, and is sent exactly when more than 500 ms have passed since the last call. A call made is the given snapshot, records `now` and leaves nothing pending. Otherwise a deferred call carrying this snapshot, due 500 ms later, replaces any pending one, and the last-call time is kept |
| PriceTable.Fire | src/components/shared/form/PriceTable.jsx:105-111 | the pending call runs exactly when it is due, records the firing time and empties the slot; otherwise nothing changes |
| PriceTable.BurstCoalesces | src/components/shared/form/PriceTable.jsx:97-112 | two changes within 500 ms of the last call send nothing until the timer runs, and then only the second snapshot |
| PriceTable.Fresh | src/components/shared/form/PriceTable.jsx:34-48 | defines the engine as mounted: the initial inputs, first-render flag set, those inputs as previous values, last call at 0, nothing pending |
| PriceTable.Step | src/components/shared/form/PriceTable.jsx:65-233 | defines one event: an edit or blur changes only the inputs and calls nothing; a render runs the propagation on the fresh totals; a timer event runs the pending call. Its invariant is `StepKeepsCoherent` |
| PriceTable.Run | src/components/shared/form/PriceTable.jsx:65-233 | defines a sequence of events and the snapshots `onPriceChange` receives, in order. Its invariant is `RunKeepsCoherent` |
| PriceTable.StepKeepsCoherent | src/components/shared/form/PriceTable.jsx:65-159 | each edit, render or timer event keeps the trace coherent: nothing sent before the first render, the pending or last sent snapshot is the latest one, every sent snapshot's totals agree with its inputs |
| PriceTable.RunKeepsCoherent | src/components/shared/form/PriceTable.jsx:65-159 | every event sequence from a freshly mounted table is coherent, so no older snapshot ever arrives after a newer one |
| PriceTable.QuietUntilSecondRender | src/components/shared/form/PriceTable.jsx:70-73 | a run with at most one render never calls `onPriceChange` and leaves nothing pending |
| PriceTable.RetypingIsSilent | src/components/shared/form/PriceTable.jsx:76-83 | retyping the value in effect, once settled, leaves the state unchanged and calls nothing |
| PriceTable.PaxPricing.constructor | src/components/shared/form/PriceTable.jsx:34-48 | mounting starts in the first-render state with the initial values as previous values, last call at 0 and nothing pending |
| PriceTable.PaxPricing.SetCount | src/components/shared/form/PriceTable.jsx:162-187 | the object's new state is the count edit applied to its old state |
| PriceTable.PaxPricing.SetPrice | src/components/shared/form/PriceTable.jsx:190-218 | the object's new state is the price edit applied to its old state |
| PriceTable.PaxPricing.HandleBlur | src/components/shared/form/PriceTable.jsx:229-233 | the object's new state is the blur applied to its old state |
| PriceTable.PaxPricing.Recompute | src/components/shared/form/PriceTable.jsx:118-159 | recomputing the totals and propagating them gives the render step's state and call |
| PriceTable.PaxPricing.TimerFires | src/components/shared/form/PriceTable.jsx:105-111 | the timer step's state and call |
| PriceTableAsWritten.ClearTimeout | src/components/shared/form/PriceTable.jsx:105 | `clearTimeout(h)` removes exactly the live timers with handle h |
| PriceTableAsWritten.PropagateAsWritten | src/components/shared/form/PriceTable.jsx:65-112 | defines the debounce as written, with one ref for both the last-call time and the timer handle. `StaleSnapshotDelivered` shows its flaw |
| PriceTableAsWritten.FireAsWritten | src/components/shared/form/PriceTable.jsx:105-111 | defines a live timer running as written: it stores the clock in the shared ref and delivers the snapshot it captured |
| PriceTableAsWritten.StaleSnapshotDelivered | src/components/shared/form/PriceTable.jsx:97-112 | with one ref for both the last-call time and the timer handle, a deferred older snapshot is delivered after a newer immediate one |
| PriceTableAsWritten.CorrectedSendsLatest | src/components/shared/form/PriceTable.jsx:97-112 | on the same timeline the corrected propagation sends the newest snapshot last and leaves nothing pending |
| JsText.Trim | src/pages/excursions/PDFGenerator.js:8 | defines `String.prototype.trim`. `TrimSpec` and `TrimIdempotent` state its properties |
| JsText.StartsWith | src/components/shared/Dropdown/HotelDropdown.jsx:69 | defines `startsWith`: the prefix of the text as long as the pattern is the pattern |
| JsText.Contains | src/components/shared/Dropdown/RoadDropdown.jsx:96 | defines `includes`: the pattern occurs at some position of the text |
| JsText.IntToString | src/components/shared/Dropdown/RoadDropdown.jsx:95 | defines `toString()` of a whole number: a minus sign for negatives, then the decimal digits without leading zeros. `ParseIntRoundTrip` reads it back |
| JsText.ParseInt | src/components/shared/form/PriceTable.jsx:167 | defines `parseInt(s, 10)`: optional leading white space and sign, then the longest run of digits, with no digits meaning `NaN` (`None`) |
| JsText.ParseDecimal | src/components/shared/form/PriceTable.jsx:195 | defines the decimal subset of `parseFloat`. `ParseDecimalOfIntToString` and `CentsToStringRoundTrip` read it back |
| JsText.TrimSpec | src/pages/excursions/PDFGenerator.js:8 | `trim` gives the slice of the text between its leading and trailing white space, and that slice has no white space at either end |
| JsText.TrimIdempotent | src/pages/excursions/PDFGenerator.js:8 | trimming twice is trimming once |
| JsText.ParseIntRoundTrip | src/components/shared/Dropdown/NationalityDropdown.jsx:59 | `parseInt` reads the decimal form of every integer back as that integer |
| JsText.ParseIntOfIntToString | src/components/shared/Dropdown/HotelDropdown.jsx:57 | `parseInt` of an integer's decimal form followed by any text not starting with a digit is that integer |
| JsText.ParseDecimalOfIntToString | src/components/shared/form/PriceTable.jsx:192-200 | the decimal parse reads an integer's decimal form as that integer |
| Voucher.Or | src/pages/excursions/PDFGenerator.js:123-124 | `a \|\| b` is a when a is truthy, b otherwise |
| Voucher.CentsToString | src/pages/excursions/PDFGenerator.js:259 | defines the shortest decimal form of an amount in hundredths. Its round trip is `CentsToStringRoundTrip` |
| Voucher.Show | src/pages/excursions/PDFGenerator.js:259 | defines `String(v)`: `undefined` for a missing value, the text of a string, the decimal form of a number |
| Voucher.CentsToStringRoundTrip | src/pages/excursions/PDFGenerator.js:258-260 | the shown form of every amount reads back, through the decimal parse, as that amount |
| Voucher.IsArabic | src/pages/excursions/PDFGenerator.js:23-27 | true exactly when some character lies in U+0600–06FF, U+0750–077F or U+08A0–08FF; false on `""` |
| Voucher.ProcessText | src/pages/excursions/PDFGenerator.js:5-20 | a falsy value gives `""`; otherwise the trimmed text, unless it holds `þ` or `Ã` and the repair succeeds; a failed repair keeps the trimmed text |
| Voucher.ProcessTextIdempotent | src/pages/excursions/PDFGenerator.js:5-20 | text that needed no repair is unchanged by a second clean-up |
| Voucher.AddText | src/pages/excursions/PDFGenerator.js:30-62 | falsy text draws nothing; otherwise one text command at x, y with the cleaned text, the given width or 100, the alignment, and the rtl hint exactly when the cleaned text is Arabic |
| Voucher.PlaceField | src/pages/excursions/PDFGenerator.js:141-195 | caption at x = 15; Arabic value right-aligned at the Arabic x (190, or 100 for currency) with the rtl hint; any other value plain at x = 45 |
| Voucher.DashCount | src/pages/excursions/PDFGenerator.js:299 | the loop from `from` stepping by 5 runs exactly until the next x would reach 195 |
| Voucher.DashesFrom | src/pages/excursions/PDFGenerator.js:299-301 | segment k runs from x = from + 5k to from + 5k + 2 at height y |
| Voucher.DashedLineSegments | src/pages/excursions/PDFGenerator.js:297-301 | the voucher's dashed line has 36 segments, the first at x = 15, the last at x = 190 |
| Voucher.DrawDashes | src/pages/excursions/PDFGenerator.js:297-301 | the `for` loop draws exactly the segments of `DashesFrom` |
| Voucher.LastSix | src/pages/excursions/PDFGenerator.js:124 | `slice(-6)` is the last six characters, or the whole text when shorter |
| Voucher.VoucherNumber | src/pages/excursions/PDFGenerator.js:123-124 | defines the voucher number: the supplied one when truthy, else `BB-` and the last six digits of the clock. `GeneratedVoucherNumber` states its shape |
| Voucher.GeneratedVoucherNumber | src/pages/excursions/PDFGenerator.js:123-124 | without a supplied number the voucher number is `BB-` and one to six digits reading as the current time modulo 10^6 ms |
| Voucher.LastSixValue | src/pages/excursions/PDFGenerator.js:124 | the last six digits of a numeral read as its value modulo 10^6 |
| Voucher.TotalAmount | src/pages/excursions/PDFGenerator.js:259 | the total is `price` when truthy, else `grandTotal` when truthy, else 0 |
| Voucher.Title | src/pages/excursions/PDFGenerator.js:81-85 | defines the document title `Blue Bay Voucher - ` and the name, or `Customer` when the name is falsy |
| Voucher.Header | src/pages/excursions/PDFGenerator.js:94-120 | defines the page frame, the contact lines, the logo text and the first separator |
| Voucher.Metadata | src/pages/excursions/PDFGenerator.js:123-138 | defines the voucher number and date row and its separator. `DrawMetadata` states what it shows |
| Voucher.CustomerRows | src/pages/excursions/PDFGenerator.js:141-195 | defines the left column: name, nationality, hotel and excursion, each placed by script, 8 mm apart from y = 65 |
| Voucher.TripRows | src/pages/excursions/PDFGenerator.js:198-215 | defines the right column: room, trip date, time and telephone at the same heights, then the separator at y = 100 |
| Voucher.Payment | src/pages/excursions/PDFGenerator.js:218-268 | defines the currency row followed by the passenger and amount rows |
| Voucher.Passengers | src/pages/excursions/PDFGenerator.js:232-253 | defines the passenger rows: each count is the short field, else the long one, else 0 |
| Voucher.Amounts | src/pages/excursions/PDFGenerator.js:256-268 | defines the amount row: the total amount, paid (default 0) and balance (default 0) at y = 135. `TotalAmountShown` places the total |
| Voucher.Closing | src/pages/excursions/PDFGenerator.js:271-294 | defines the receiver row, the separator at y = 150 and the wrapped refund notice |
| Voucher.Footer | src/pages/excursions/PDFGenerator.js:305-306 | defines the footer: the locale date and `Page 1` at y = 195 |
| Voucher.VoucherLayout | src/pages/excursions/PDFGenerator.js:96-306 | defines the full voucher in drawing order. `VoucherLayoutSound` states that it fits the page |
| Voucher.VoucherDocument | src/pages/excursions/PDFGenerator.js:74-306 | defines the full voucher document: its title and its layout |
| Voucher.FallbackDocument | src/pages/excursions/PDFGenerator.js:310-330 | defines the abridged voucher: no title, seven text lines, with `N/A` for a missing customer, trip or date |
| Voucher.VoucherLayoutSound | src/pages/excursions/PDFGenerator.js:96-306 | every command of the full voucher is anchored on the 210 × 297 mm page, and wrapped text has its wrap box inside the page; the rtl hint goes only to Arabic, right-aligned text |
| Voucher.TotalAmountShown | src/pages/excursions/PDFGenerator.js:256-268 | the full voucher draws the total amount at (65, 135) and the abridged one as its sixth command |
| Voucher.DrawMetadata | src/pages/excursions/PDFGenerator.js:123-138 | draws the metadata row. The voucher number is the supplied one when truthy, else `BB-` and one to six digits reading as the clock modulo 10^6 ms. The date is the supplied one when truthy, else the locale date |
| Voucher.DrawCustomerRows | src/pages/excursions/PDFGenerator.js:141-195 | the left column, rows at y = 65, 73, 81, 89 |
| Voucher.DrawTripRows | src/pages/excursions/PDFGenerator.js:198-215 | the right column, restarting at y = 65 with the same 8 mm step, then the separator |
| Voucher.DrawPayment | src/pages/excursions/PDFGenerator.js:218-268 | the currency, passenger and amount rows, ending at y = 145 |
| Voucher.DrawClosing | src/pages/excursions/PDFGenerator.js:271-294 | the receiver row, separator and refund notice |
| Voucher.PdfGenerator.constructor | src/pages/excursions/PDFGenerator.js:66-69 | a new generator has no document and no blob |
| Voucher.PdfGenerator.GenerateVoucherPdf | src/pages/excursions/PDFGenerator.js:71-331 | afterwards a document always exists: the full voucher, or the abridged one when the library throws |
| Voucher.PdfGenerator.GetPdfBlob | src/pages/excursions/PDFGenerator.js:333-339 | fails with the not-generated error while there is no document, else returns and stores the blob of the document |
| Voucher.PdfGenerator.DownloadPdf | src/pages/excursions/PDFGenerator.js:341-346 | fails while there is no document, else saves it under the given name, `voucher.pdf` by default |
| Voucher.PdfGenerator.GetPdfBase64 | src/pages/excursions/PDFGenerator.js:348-353 | fails exactly when there is no document, else encodes the current document |
| Voucher.PdfGenerator.CreatePdfDownloadLink | src/pages/excursions/PDFGenerator.js:355-367 | fails while there is no document, else a link to the document's blob under the given name |
| Voucher.GenerateExcursionPdf | src/pages/excursions/PDFGenerator.js:371-375 | a fresh generator holding the generated voucher |
| Voucher.GuardLifecycle | src/pages/excursions/PDFGenerator.js:333-346 | the accessors refuse a new generator and work once a voucher is generated |
| Messaging.KeepDigits | src/pages/excursions/PDFGenerator.js:391 | removing the non-digits leaves only digits and keeps a digit string as it is |
| Messaging.KeepDigitsAppend | src/pages/excursions/PDFGenerator.js:391 | the removal works piecewise over concatenation |
| Messaging.NormalisePhone | src/pages/excursions/PDFGenerator.js:486-487 | the result is all digits and starts with `2`; it is the digits when they already start with `2`, else `2` before them |
| Messaging.NormalisePhoneIdempotent | src/pages/excursions/PDFGenerator.js:391-398 | normalising twice is normalising once |
| Messaging.LocalNumberGainsCountryCode | src/pages/excursions/PDFGenerator.js:395-397 | a digit string not starting with `2` gains exactly a leading `2` |
| Messaging.InternationalNumberKept | src/pages/excursions/PDFGenerator.js:391-398 | `+` then digits starting with `2` gives those digits |
| Messaging.SeparatorsIgnored | src/pages/excursions/PDFGenerator.js:391 | inserting non-digits anywhere does not change the normalised number |
| Messaging.FormatPhone | src/pages/excursions/PDFGenerator.js:391-398 | the in-place formatting yields the normalised number |
| Messaging.SanitiseName | src/pages/excursions/PDFGenerator.js:404-407 | as long as the name in UTF-16 code units, each an ASCII letter, digit or `_` |
| Messaging.SanitiseNameInPlace | src/pages/excursions/PDFGenerator.js:404-407 | on BMP text the length is kept and exactly the characters outside `[a-zA-Z0-9]` become `_` |
| Messaging.SanitiseKeepsAlnum | src/pages/excursions/PDFGenerator.js:404-407 | a name of ASCII letters and digits is unchanged |
| Messaging.IsoDate | src/pages/excursions/PDFGenerator.js:408 | the result is the longest prefix of the timestamp without `T` |
| Messaging.IsoDateOfTimestamp | src/pages/excursions/PDFGenerator.js:408 | the date part of `dateTtime` is the date |
| Messaging.FileName | src/pages/excursions/PDFGenerator.js:404-409 | defines the download name `BlueBay_Voucher_<name>_<date>.pdf`: the sanitised name, `Customer` by default, and the date part of the timestamp |
| Messaging.FileNameForTimestamp | src/pages/excursions/PDFGenerator.js:404-409 | an alphanumeric name and an ISO timestamp give `BlueBay_Voucher_<name>_<date>.pdf` |
| Messaging.MissingNameIsCustomer | src/pages/excursions/PDFGenerator.js:404 | a missing or empty name is written as `Customer` |
| Messaging.DownloadMessage | src/pages/excursions/PDFGenerator.js:416-435 | defines the message sent with a downloaded voucher: booking and payment details, then the phone and website lines |
| Messaging.SimpleMessage | src/pages/excursions/PDFGenerator.js:489-507 | defines the simple path's message: the same details, then the phone line without the website |
| Messaging.WhatsAppUrl | src/pages/excursions/PDFGenerator.js:444 | defines the link `https://wa.me/<phone>?text=<encoded>`. `WhatsAppUrlPhone` reads the phone back |
| Messaging.WhatsAppUrlPhone | src/pages/excursions/PDFGenerator.js:444 | the link starts with `https://wa.me/` and its leading digits are the phone number |
| Messaging.TotalAgreesEverywhere | src/pages/excursions/PDFGenerator.js:427 | the full voucher, the abridged voucher and both messages show the same total amount |
| Messaging.SaveVoucher | src/pages/excursions/PDFGenerator.js:402-413 | a generator holding a document saves it under the sanitised file name; otherwise nothing is saved |
| Messaging.SendPdfToWhatsAppWithDownload | src/pages/excursions/PDFGenerator.js:382-479 | returns the normalised number and the link with the encoded download message; saves the voucher when there is one; opens a tab or, when blocked, redirects, with the matching message |
| Messaging.SendToWhatsApp | src/pages/excursions/PDFGenerator.js:482-519 | returns the normalised number and the link with the encoded simple message |
| Messaging.SendPdfToWhatsApp | src/pages/excursions/PDFGenerator.js:521-537 | takes the simple path exactly when there is no generator; with one, saves only when it holds a document |
| Dropdown.NumberHit | src/components/shared/Dropdown/HotelDropdown.jsx:57-58 | defines `code === parseInt(text, 10)`: only a number code can equal it, and `NaN` equals nothing |
| Dropdown.LooseHit | src/components/shared/Dropdown/RoadDropdown.jsx:74-84 | defines the four-way auto-select test of roads and currencies. `LooseHitReduces` brings it down to two cases |
| Dropdown.Hit | src/components/shared/Dropdown/NationalityDropdown.jsx:59-93 | defines, per widget rule, the test used to filter, to auto-select and to look up a chosen option |
| Dropdown.FirstHit | src/components/shared/Dropdown/RoadDropdown.jsx:75-84 | `find` returns the first item that passes the test; no result means no item passes |
| Dropdown.Kept | src/components/shared/Dropdown/RoadDropdown.jsx:94-97 | each item of the list is kept as many times as it occurs when it passes the drop-down test, and not at all otherwise; the filtered list is no longer than the list; with `KeptSublist`, it is the ordered sublist of the passing items |
| Dropdown.KeptSublist | src/components/shared/Dropdown/CurrencyDropdown.jsx:79-84 | the filtered list keeps the list's order |
| Dropdown.EmptyFilterKeepsAll | src/components/shared/Dropdown/HotelDropdown.jsx:68-74 | filtering on the empty text would keep the whole list, so the empty-code branch agrees with the filter |
| Dropdown.RoadNameSpec | src/components/shared/Dropdown/RoadDropdown.jsx:46-49 | a missing or empty road name becomes the placeholder; any other is its text between the white space at its ends; no shown name starts or ends with white space |
| Dropdown.BlankRoadNameIsEmpty | src/components/shared/Dropdown/RoadDropdown.jsx:48 | a name of white space only is truthy, so it shows as `""` rather than as the placeholder |
| Dropdown.RoadName | src/components/shared/Dropdown/RoadDropdown.jsx:48 | defines the shown road name: the trimmed name when truthy, else the placeholder. `RoadNameSpec` states its properties |
| Dropdown.NormaliseRoads | src/components/shared/Dropdown/RoadDropdown.jsx:46-49 | every fetched road is kept, in order, with its code and a trimmed name; item i is road i's code with the shown name of road i |
| Dropdown.TrimNames | src/components/shared/Dropdown/CurrencyDropdown.jsx:30-33 | the mapping succeeds exactly when every name is present; then each item keeps its code and gets its trimmed name |
| Dropdown.Processed | src/components/shared/Dropdown/RoadDropdown.jsx:44-52 | the roads list always loads; any other list loads exactly when every name is present. A loaded list keeps every item's code, in order, with a name that has no white space at its ends |
| Dropdown.TrimNamesTrimmed | src/components/shared/Dropdown/HotelDropdown.jsx:29-32 | after a successful mapping no name starts or ends with white space |
| Dropdown.LooseHitReduces | src/components/shared/Dropdown/CurrencyDropdown.jsx:59-69 | the four-way test matches a number code exactly when the text parses to it, and a string code exactly when it contains the text |
| Dropdown.NumericReselectConsistent | src/components/shared/Dropdown/HotelDropdown.jsx:51-99 | choosing an option and retyping the code it writes into the search box auto-selects the same item, which then stays in the filtered list |
| Dropdown.SubstringReselectCanDiffer | src/components/shared/Dropdown/CurrencyDropdown.jsx:52-114 | for the substring widgets, choosing the second of two items and retyping its code auto-selects the first when the first's code contains it |
| Dropdown.SuffixedCodeSelectsHiddenItem | src/components/shared/Dropdown/NationalityDropdown.jsx:59-75 | typing a code followed by non-digits, such as `12x`, auto-selects an item with code 12 that the prefix filter hides |
| Dropdown.ChoosingAnOptionFindsIt | src/components/shared/Dropdown/CityDropdown.jsx:80-92 | choosing an item's option finds an item at or before it with the same code text; for the numeric widgets only number codes can be found |
| Dropdown.CodeSearch.constructor | src/components/shared/Dropdown/RoadDropdown.jsx:5-8 | the list, filtered list, selection and typed code all start empty |
| Dropdown.CodeSearch.Receive | src/components/shared/Dropdown/NationalityDropdown.jsx:27-37 | a successful load installs the cleaned list as both list and filtered list; a load whose mapping throws changes nothing |
| Dropdown.CodeSearch.HandleCodeChange | src/components/shared/Dropdown/RoadDropdown.jsx:68-103 | the typed code becomes the text; an empty text shows the whole list; otherwise the filtered list is the filter of the list, and the first auto-match becomes the selection and the callback's argument, with the selection and callback untouched when nothing matches |
| Dropdown.CodeSearch.HandleSelectChange | src/components/shared/Dropdown/RoadDropdown.jsx:106-129 | the selection becomes the value and the shown list is untouched; the empty value clears the code and calls back with null; a found item writes its code text and goes to the callback; otherwise only the selection changes |

## Left out

- Network I/O: the `fetch` of each reference list, its `success`/array checks and its error and loading state. The cleaned list arrives as an argument of `Receive`, and a missing name stands for the throwing `trim`.
- Rendering and browser behaviour: JSX, the view toggle and resize listener, `handleFocus` and its DOM selection, and the `toFixed(2)` display helper.
- The PDF library itself: fonts, colours, line widths, `output`/`save` and object URLs. Only the draw commands and the null/non-null `doc` guard are modelled.
- addTextToPDF's own catch: its fallback call is not modelled, and the library is assumed not to throw inside that helper.
- Floating point:
  - prices are exact reals;
  - form amounts are whole hundredths, shown in their shortest decimal form;
  - `parseFloat` exponents, `Infinity`, `NaN` values in form data and the exponent form of very large numbers are absent.
- Non-integer codes: dropdown codes are integers or strings.
- The timer: `setTimeout` is an explicit pending slot plus `TimerFires`. The time of each event is a parameter.
- `window.open`: the outcome is a boolean, and its catch path after a throwing `window.open` is not modelled.
- `openPDFInNewWindow`: not modelled, since it is only browser navigation.
- Other files: the page wiring and the router hold no logic to verify.
- Voucher.ProcessText: the repaired text is whatever the `repair` argument returns, because `escape`/`decodeURIComponent` are not modelled.
- Messaging.SendPdfToWhatsAppWithDownload: the form data is assumed present. A missing `pdfData` throws when `pdfData.name` is read. That happens at `PDFGenerator.js:404` when the generator holds a document, else at `:419`. The catch block then returns a failure result, which the model does not produce.
- Messaging.SendToWhatsApp: the form data is assumed present. A missing `pdfData` throws at `PDFGenerator.js:492`, and the `{ success: false, error }` result of the catch at `:515-517` is not produced; `SimpleOutcome` has no failure case.
- Voucher.PdfGenerator.GenerateVoucherPdf: the form data is assumed present, since `FormData` is a record that cannot be missing. Without it, the read at `PDFGenerator.js:82` sends control to the catch, whose fallback reads `formData.name` again at `:319`, outside any catch, and the call throws.
- Dropdown.CodeSearch.HandleCodeChange: the `if (onSelect…)` guard (`RoadDropdown.jsx:88`, `HotelDropdown.jsx:62`) is not modelled. The returned call is what a host that passes the callback receives, and a host that passes none receives nothing.
- Dropdown.CodeSearch.HandleSelectChange: the `if (onSelect…)` guards (`RoadDropdown.jsx:119`, `125`; `HotelDropdown.jsx:89`, `95`) are not modelled, in the same way: the returned call is what a host that passes the callback receives.
- PriceTable.Propagate: `onPriceChange` is assumed to be present, since the host decides whether to pass it; without it the call is simply not delivered.

## Findings

| source | as written | input that shows it | evidently intended | confidence | as-written member | corrected member |
|---|---|---|---|---|---|---|
| src/components/shared/form/PriceTable.jsx:97-112 | one ref holds both the time of the last call and the handle of the pending timer. After a deferral the immediate test compares the clock with a timer handle, and `clearTimeout` can be handed a timestamp, so a pending timer survives a newer immediate call | mount at 1000 ms; adult count 2 at 2000 ms, 3 at 2100 ms, 4 at 2200 ms; the timer handle is 7. The snapshot for 4 adults is sent at 2200 ms, then at 2600 ms the timer sends the snapshot for 3 adults | two fields, the last-call time and the pending call. An immediate call also cancels the pending one, so the consumer always ends with the latest snapshot | not executed | `PriceTableAsWritten.PropagateAsWritten`, shown by `PriceTableAsWritten.StaleSnapshotDelivered` | `PriceTable.Propagate`, proved by `PriceTable.RunKeepsCoherent` and `PriceTableAsWritten.CorrectedSendsLatest` |

Keeping the two values in separate fields is not enough on its own. A call deferred at 400 ms (due at 900) can be followed by a change at 600 ms that goes out at once. The deferred call then still delivers the older data at 900 ms. For that reason the corrected propagation (`PriceTable.Propagate`) also drops the pending call when it sends one immediately. `PriceTableAsWritten.CorrectedSendsLatest` replays the timeline of the finding through the corrected propagation.
