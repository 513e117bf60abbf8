/**
  The pax/price table: head counts and per-person prices typed as text, the
  totals derived from them, and the debounced notification of a pricing
  snapshot to the hosting form (`onPriceChange`).
*/
module PriceTable {
  import opened Maybe
  import opened JsText

  /** The seven inputs: three head counts and four per-person amounts. Prices
      are exact reals rather than IEEE doubles. */
  datatype PaxInputs = PaxInputs(
    adultCount: int, childCount: int, infantCount: int,
    adultPrice: real, childPrice: real, infantPrice: real, taxPerPerson: real)

  /** The `pricingData` object handed to `onPriceChange`: the inputs echoed,
      plus the derived totals. */
  datatype Snapshot = Snapshot(
    inputs: PaxInputs,
    adultTotal: real, childTotal: real, infantTotal: real, taxTotal: real,
    grandTotal: real, totalPassengers: int)

  predicate NonNegative(i: PaxInputs) {
    && i.adultCount >= 0 && i.childCount >= 0 && i.infantCount >= 0
    && i.adultPrice >= 0.0 && i.childPrice >= 0.0 && i.infantPrice >= 0.0
    && i.taxPerPerson >= 0.0
  }

  // ---------------------------------------------------------------------------
  // Parsing field text (handleCountChange, handlePriceChange)

  /** A count field: `""` is 0; otherwise `parseInt(raw, 10)`, with `NaN` and
      negative results replaced by 0. */
  function ParseCount(raw: string): nat {
    if raw == "" then 0
    else match ParseInt(raw)
      case None => 0
      case Some(v) => if v < 0 then 0 else v
  }

  /** A price field: `""` is 0; otherwise the decimal reading of `raw`, with
      `NaN` and negative results replaced by 0. */
  function ParsePrice(raw: string): (p: real)
    ensures p >= 0.0
  {
    if raw == "" then 0.0
    else match ParseDecimal(raw)
      case None => 0.0
      case Some(v) => if v < 0.0 then 0.0 else v
  }

  /** A count field holding a number's decimal form reads back as that number,
      or as 0 when the number is negative. */
  lemma ParseCountOfIntToString(n: int)
    ensures ParseCount(IntToString(n)) == if n < 0 then 0 else n
  {
    ParseIntRoundTrip(n);
  }

  /** The same for price fields. */
  lemma ParsePriceOfIntToString(n: int)
    ensures ParsePrice(IntToString(n)) == if n < 0 then 0.0 else n as real
  {
    ParseDecimalOfIntToString(n);
  }

  // ---------------------------------------------------------------------------
  // The setters behind the input fields

  /** `handleCountChange(kind, raw)`: only the count named by `kind` changes,
      and an unknown kind (including `"tax"`) changes nothing. */
  function SetCount(i: PaxInputs, kind: string, raw: string): (r: PaxInputs)
    ensures r.adultPrice == i.adultPrice && r.childPrice == i.childPrice
    ensures r.infantPrice == i.infantPrice && r.taxPerPerson == i.taxPerPerson
    ensures r.adultCount != i.adultCount ==> kind == "adult"
    ensures r.childCount != i.childCount ==> kind == "child"
    ensures r.infantCount != i.infantCount ==> kind == "infant"
    ensures kind == "adult" ==> r.adultCount == ParseCount(raw)
    ensures kind == "child" ==> r.childCount == ParseCount(raw)
    ensures kind == "infant" ==> r.infantCount == ParseCount(raw)
  {
    var v := ParseCount(raw);
    if kind == "adult" then i.(adultCount := v)
    else if kind == "child" then i.(childCount := v)
    else if kind == "infant" then i.(infantCount := v)
    else i
  }

  /** `handlePriceChange(kind, raw)`: only the amount named by `kind` changes;
      `"tax"` reaches `taxPerPerson` through this setter alone. */
  function SetPrice(i: PaxInputs, kind: string, raw: string): (r: PaxInputs)
    ensures r.adultCount == i.adultCount && r.childCount == i.childCount
    ensures r.infantCount == i.infantCount
    ensures r.adultPrice != i.adultPrice ==> kind == "adult"
    ensures r.childPrice != i.childPrice ==> kind == "child"
    ensures r.infantPrice != i.infantPrice ==> kind == "infant"
    ensures r.taxPerPerson != i.taxPerPerson ==> kind == "tax"
    ensures kind == "adult" ==> r.adultPrice == ParsePrice(raw)
    ensures kind == "child" ==> r.childPrice == ParsePrice(raw)
    ensures kind == "infant" ==> r.infantPrice == ParsePrice(raw)
    ensures kind == "tax" ==> r.taxPerPerson == ParsePrice(raw)
  {
    var v := ParsePrice(raw);
    if kind == "adult" then i.(adultPrice := v)
    else if kind == "child" then i.(childPrice := v)
    else if kind == "infant" then i.(infantPrice := v)
    else if kind == "tax" then i.(taxPerPerson := v)
    else i
  }

  /** The state setter passed to `handleBlur`. */
  datatype Field =
    | AdultCount | ChildCount | InfantCount
    | AdultPrice | ChildPrice | InfantPrice | TaxPerPerson

  /** `handleBlur(e, type, setter)`: a field left empty is set to 0; otherwise
      nothing changes. */
  function Blur(i: PaxInputs, field: Field, raw: string): (r: PaxInputs)
    ensures raw != "" ==> r == i
    ensures raw == "" && field == AdultCount ==> r == i.(adultCount := 0)
    ensures raw == "" && field == ChildCount ==> r == i.(childCount := 0)
    ensures raw == "" && field == InfantCount ==> r == i.(infantCount := 0)
    ensures raw == "" && field == AdultPrice ==> r == i.(adultPrice := 0.0)
    ensures raw == "" && field == ChildPrice ==> r == i.(childPrice := 0.0)
    ensures raw == "" && field == InfantPrice ==> r == i.(infantPrice := 0.0)
    ensures raw == "" && field == TaxPerPerson ==> r == i.(taxPerPerson := 0.0)
    ensures NonNegative(i) ==> NonNegative(r)
  {
    if raw != "" then i
    else match field
      case AdultCount => i.(adultCount := 0)
      case ChildCount => i.(childCount := 0)
      case InfantCount => i.(infantCount := 0)
      case AdultPrice => i.(adultPrice := 0.0)
      case ChildPrice => i.(childPrice := 0.0)
      case InfantPrice => i.(infantPrice := 0.0)
      case TaxPerPerson => i.(taxPerPerson := 0.0)
  }

  /** Whatever is typed, the setters keep every input non-negative. */
  lemma SettersKeepNonNegative(i: PaxInputs, kind: string, raw: string)
    requires NonNegative(i)
    ensures NonNegative(SetCount(i, kind, raw)) && NonNegative(SetPrice(i, kind, raw))
  {
  }

  // ---------------------------------------------------------------------------
  // Derived totals (the effect that recomputes them)

  function Totals(i: PaxInputs): Snapshot {
    var adult := i.adultPrice * i.adultCount as real;
    var child := i.childPrice * i.childCount as real;
    var infant := i.infantPrice * i.infantCount as real;
    var tax := i.taxPerPerson * (i.adultCount + i.childCount) as real;
    Snapshot(i, adult, child, infant, tax, adult + child + infant + tax,
             i.adultCount + i.childCount + i.infantCount)
  }

  /** The grand total per passenger: every adult and child pays their price
      plus the tax, every infant pays only their price; the tax total is the
      tax on every passenger who is not an infant. */
  lemma GrandTotalFormula(i: PaxInputs)
    ensures var s := Totals(i);
      && s.inputs == i
      && s.grandTotal == i.adultCount as real * (i.adultPrice + i.taxPerPerson)
                         + i.childCount as real * (i.childPrice + i.taxPerPerson)
                         + i.infantCount as real * i.infantPrice
      && s.taxTotal == i.taxPerPerson * (s.totalPassengers - i.infantCount) as real
  {
    var a, c := i.adultCount as real, i.childCount as real;
    assert (i.adultCount + i.childCount) as real == a + c;
    assert i.taxPerPerson * (a + c) == i.taxPerPerson * a + i.taxPerPerson * c;
    assert a * (i.adultPrice + i.taxPerPerson) == a * i.adultPrice + a * i.taxPerPerson;
    assert c * (i.childPrice + i.taxPerPerson) == c * i.childPrice + c * i.taxPerPerson;
  }

  /** Changing the number of infants moves the grand total by their price
      alone: the tax total does not depend on infants. */
  lemma InfantsAreTaxFree(i: PaxInputs, n: int)
    ensures Totals(i.(infantCount := n)).taxTotal == Totals(i).taxTotal
    ensures Totals(i.(infantCount := n)).grandTotal - Totals(i).grandTotal
            == i.infantPrice * (n - i.infantCount) as real
  {
    var d := (n - i.infantCount) as real;
    assert n as real == i.infantCount as real + d;
    assert i.infantPrice * n as real == i.infantPrice * i.infantCount as real + i.infantPrice * d;
  }

  /** Non-negative inputs give non-negative totals. */
  lemma TotalsNonNegative(i: PaxInputs)
    requires NonNegative(i)
    ensures var s := Totals(i);
      s.adultTotal >= 0.0 && s.childTotal >= 0.0 && s.infantTotal >= 0.0
      && s.taxTotal >= 0.0 && s.grandTotal >= 0.0 && s.totalPassengers >= 0
  {
    MulNonNegative(i.adultPrice, i.adultCount as real);
    MulNonNegative(i.childPrice, i.childCount as real);
    MulNonNegative(i.infantPrice, i.infantCount as real);
    MulNonNegative(i.taxPerPerson, (i.adultCount + i.childCount) as real);
  }

  lemma MulNonNegative(a: real, b: real)
    requires a >= 0.0 && b >= 0.0
    ensures a * b >= 0.0
  {
  }

  /** Two adults at 50, one child at 30, no infant, tax 5 per person. */
  lemma ScenarioTwoAdultsOneChild()
    ensures var s := Totals(PaxInputs(2, 1, 0, 50.0, 30.0, 0.0, 5.0));
      s.adultTotal == 100.0 && s.childTotal == 30.0 && s.infantTotal == 0.0
      && s.taxTotal == 15.0 && s.grandTotal == 145.0 && s.totalPassengers == 3
  {
  }

  // ---------------------------------------------------------------------------
  // Debounced propagation (debouncedPriceChange)

  /** Minimum time between two calls of `onPriceChange`, in milliseconds. */
  const DebounceMillis: int := 500

  /** A call of `onPriceChange(data)` scheduled to run at time `due`. */
  datatype Deferred = Deferred(data: Snapshot, due: int)

  /** The propagation refs. The source keeps the time of the last call and the
      handle of the pending timer in one ref, `lastCallTimeRef`; here they are
      two fields, `lastCallTime` and `pending` (module PriceTableAsWritten
      models the single ref). */
  datatype Debounce = Debounce(
    isFirstRender: bool, previousValues: PaxInputs, lastCallTime: int,
    pending: Option<Deferred>)

  /** A new propagation state, and the call of `onPriceChange` made, if any. */
  datatype Propagated = Propagated(state: Debounce, call: Option<Snapshot>)

  /** One call of `debouncedPriceChange(data)` at time `now`. The first call only
      clears `isFirstRender`; a call whose seven inputs equal `previousValues`
      does nothing; any other call records its inputs, then either calls back
      at once (more than 500 ms since the last call) or schedules one deferred
      call carrying `data`, replacing whatever was pending. A call made at once
      also drops a pending deferred call, so that an older snapshot can never
      arrive after a newer one. */
  function Propagate(s: Debounce, data: Snapshot, now: int): (r: Propagated)
    ensures s.isFirstRender ==> r == Propagated(s.(isFirstRender := false), None)
    ensures !s.isFirstRender && data.inputs == s.previousValues ==> r == Propagated(s, None)
    ensures !s.isFirstRender && data.inputs != s.previousValues ==>
              !r.state.isFirstRender && r.state.previousValues == data.inputs
    ensures r.call.Some? ==> r.call == Some(data) && r.state.lastCallTime == now && r.state.pending == None
    ensures r.call.None? && r.state.pending != s.pending ==>
              r.state.pending == Some(Deferred(data, now + DebounceMillis))
              && r.state.lastCallTime == s.lastCallTime
    ensures !s.isFirstRender && data.inputs != s.previousValues ==>
              (r.call.Some? <==> now - s.lastCallTime > DebounceMillis)
    ensures !s.isFirstRender && data.inputs != s.previousValues && now - s.lastCallTime <= DebounceMillis ==>
              r.state.pending == Some(Deferred(data, now + DebounceMillis))
              && r.state.lastCallTime == s.lastCallTime
  {
    if s.isFirstRender then Propagated(s.(isFirstRender := false), None)
    else if data.inputs == s.previousValues then Propagated(s, None)
    else if now - s.lastCallTime > DebounceMillis then
      Propagated(s.(previousValues := data.inputs, lastCallTime := now, pending := None), Some(data))
    else
      Propagated(s.(previousValues := data.inputs, pending := Some(Deferred(data, now + DebounceMillis))), None)
  }

  /** The event loop at time `now`: a pending call that is due runs, records
      `now` as the time of the last call and empties the slot. */
  function Fire(s: Debounce, now: int): (r: Propagated)
    ensures r.call.Some? <==> s.pending.Some? && s.pending.value.due <= now
    ensures r.call.Some? ==> r.call == Some(s.pending.value.data)
                             && r.state == s.(lastCallTime := now, pending := None)
    ensures r.call.None? ==> r.state == s
  {
    match s.pending
    case Some(p) =>
      if p.due <= now then Propagated(s.(lastCallTime := now, pending := None), Some(p.data))
      else Propagated(s, None)
    case None => Propagated(s, None)
  }

  /** Two real changes less than 500 ms after the last call coalesce: nothing
      is called until the timer runs, and then only with the second snapshot. */
  lemma BurstCoalesces(s: Debounce, d1: Snapshot, d2: Snapshot, t1: int, t2: int, t: int)
    requires !s.isFirstRender && d1.inputs != s.previousValues && d2.inputs != d1.inputs
    requires t1 - s.lastCallTime <= DebounceMillis && t2 - s.lastCallTime <= DebounceMillis
    requires t2 + DebounceMillis <= t
    ensures var r1 := Propagate(s, d1, t1);
            var r2 := Propagate(r1.state, d2, t2);
            var r3 := Fire(r2.state, t);
            r1.call == None && r2.call == None && r3.call == Some(d2) && r3.state.pending == None
  {
  }

  // ---------------------------------------------------------------------------
  // The whole engine as a transition system

  datatype Engine = Engine(inputs: PaxInputs, debounce: Debounce)

  /** The engine as mounted with `initial` values. */
  function Fresh(initial: PaxInputs): Engine {
    Engine(initial, Debounce(true, initial, 0, None))
  }

  /** What can happen to the table: an edit, a blur, a render after which the
      totals effect runs, or the event loop reaching time `now`. */
  datatype Event =
    | CountEdited(kind: string, raw: string)
    | PriceEdited(kind: string, raw: string)
    | Blurred(field: Field, raw: string)
    | Rendered(now: int)
    | TimerDue(now: int)

  datatype Outcome = Outcome(engine: Engine, call: Option<Snapshot>)

  function Step(e: Engine, ev: Event): Outcome {
    match ev
    case CountEdited(kind, raw) => Outcome(e.(inputs := SetCount(e.inputs, kind, raw)), None)
    case PriceEdited(kind, raw) => Outcome(e.(inputs := SetPrice(e.inputs, kind, raw)), None)
    case Blurred(field, raw) => Outcome(e.(inputs := Blur(e.inputs, field, raw)), None)
    case Rendered(now) =>
      var p := Propagate(e.debounce, Totals(e.inputs), now);
      Outcome(e.(debounce := p.state), p.call)
    case TimerDue(now) =>
      var p := Fire(e.debounce, now);
      Outcome(e.(debounce := p.state), p.call)
  }

  function Emitted(call: Option<Snapshot>): seq<Snapshot> {
    if call.Some? then [call.value] else []
  }

  /** The final engine and, in order, every snapshot `onPriceChange` received. */
  datatype Trace = Trace(engine: Engine, calls: seq<Snapshot>)

  function Run(e: Engine, evs: seq<Event>): Trace
    decreases |evs|
  {
    if evs == [] then Trace(e, [])
    else
      var t := Run(e, evs[..|evs| - 1]);
      var o := Step(t.engine, evs[|evs| - 1]);
      Trace(o.engine, t.calls + Emitted(o.call))
  }

  /** What a consumer of `onPriceChange` may rely on at every point of a run:
      before the first render nothing was sent; a pending call carries the
      latest propagated snapshot; with nothing pending the last snapshot sent
      is the latest one; every snapshot sent has totals consistent with its
      inputs. */
  ghost predicate Coherent(e: Engine, calls: seq<Snapshot>) {
    var d := e.debounce;
    && (d.isFirstRender ==> d.pending == None && calls == [])
    && (d.pending.Some? ==> d.pending.value.data == Totals(d.previousValues))
    && (d.pending.None? && calls != [] ==> calls[|calls| - 1] == Totals(d.previousValues))
    && (forall k :: 0 <= k < |calls| ==> calls[k] == Totals(calls[k].inputs))
  }

  lemma StepKeepsCoherent(e: Engine, calls: seq<Snapshot>, ev: Event)
    requires Coherent(e, calls)
    ensures var o := Step(e, ev); Coherent(o.engine, calls + Emitted(o.call))
  {
    var o := Step(e, ev);
    var out := calls + Emitted(o.call);
    if o.call.Some? {
      assert out[|out| - 1] == o.call.value;
      assert forall k :: 0 <= k < |calls| ==> out[k] == calls[k];
    } else {
      assert out == calls;
    }
  }

  /** Every run from a freshly mounted table is coherent: in particular no
      snapshot is ever overtaken by an older one. */
  lemma {:induction false} RunKeepsCoherent(initial: PaxInputs, evs: seq<Event>)
    ensures var t := Run(Fresh(initial), evs); Coherent(t.engine, t.calls)
    decreases |evs|
  {
    if evs != [] {
      RunKeepsCoherent(initial, evs[..|evs| - 1]);
      var t := Run(Fresh(initial), evs[..|evs| - 1]);
      StepKeepsCoherent(t.engine, t.calls, evs[|evs| - 1]);
    }
  }

  function CountRenders(evs: seq<Event>): nat
    decreases |evs|
  {
    if evs == [] then 0
    else CountRenders(evs[..|evs| - 1]) + (if evs[|evs| - 1].Rendered? then 1 else 0)
  }

  /** The first render never notifies, and neither does anything before the
      second render: a run with at most one render sends no snapshot. */
  lemma {:induction false} QuietUntilSecondRender(initial: PaxInputs, evs: seq<Event>)
    requires CountRenders(evs) <= 1
    ensures var t := Run(Fresh(initial), evs);
      t.calls == [] && t.engine.debounce.pending == None
      && (CountRenders(evs) == 0 ==> t.engine.debounce.isFirstRender)
    decreases |evs|
  {
    if evs != [] {
      QuietUntilSecondRender(initial, evs[..|evs| - 1]);
    }
  }

  /** Re-typing the value already in effect, once the table has settled,
      neither changes the state nor calls `onPriceChange`. */
  lemma RetypingIsSilent(e: Engine, ev: Event, now: int)
    requires !e.debounce.isFirstRender && e.inputs == e.debounce.previousValues
    requires ev.CountEdited? || ev.PriceEdited? || ev.Blurred?
    requires Step(e, ev).engine.inputs == e.inputs
    ensures Step(Step(e, ev).engine, Rendered(now)) == Outcome(e, None)
  {
  }

  // ---------------------------------------------------------------------------
  // The component's state, updated in place

  class PaxPricing {
    var adultCount: int
    var childCount: int
    var infantCount: int
    var adultPrice: real
    var childPrice: real
    var infantPrice: real
    var taxPerPerson: real
    var isFirstRender: bool
    var previousValues: PaxInputs
    // The source stores both of the next two values in `lastCallTimeRef`: the
    // epoch time of the last call, overwritten by the timer handle whenever a
    // call is deferred. They are kept apart here.
    var lastCallTime: int
    var pending: Option<Deferred>

    function Inputs(): PaxInputs
      reads this
    {
      PaxInputs(adultCount, childCount, infantCount, adultPrice, childPrice, infantPrice, taxPerPerson)
    }

    function State(): Engine
      reads this
    {
      Engine(Inputs(), Debounce(isFirstRender, previousValues, lastCallTime, pending))
    }

    /** Mounting with `initial` values (`initialValues.x || 0`, already applied). */
    constructor (initial: PaxInputs)
      ensures State() == Fresh(initial)
    {
      adultCount, childCount, infantCount := initial.adultCount, initial.childCount, initial.infantCount;
      adultPrice, childPrice, infantPrice := initial.adultPrice, initial.childPrice, initial.infantPrice;
      taxPerPerson := initial.taxPerPerson;
      isFirstRender := true;
      previousValues := initial;
      lastCallTime := 0;
      pending := None;
    }

    method SetCount(kind: string, raw: string)
      modifies this
      ensures State() == Step(old(State()), CountEdited(kind, raw)).engine
    {
      var v := ParseCount(raw);
      if kind == "adult" {
        adultCount := v;
      } else if kind == "child" {
        childCount := v;
      } else if kind == "infant" {
        infantCount := v;
      }
    }

    method SetPrice(kind: string, raw: string)
      modifies this
      ensures State() == Step(old(State()), PriceEdited(kind, raw)).engine
    {
      var v := ParsePrice(raw);
      if kind == "adult" {
        adultPrice := v;
      } else if kind == "child" {
        childPrice := v;
      } else if kind == "infant" {
        infantPrice := v;
      } else if kind == "tax" {
        taxPerPerson := v;
      }
    }

    method HandleBlur(field: Field, raw: string)
      modifies this
      ensures State() == Step(old(State()), Blurred(field, raw)).engine
    {
      if raw == "" {
        match field
        case AdultCount => adultCount := 0;
        case ChildCount => childCount := 0;
        case InfantCount => infantCount := 0;
        case AdultPrice => adultPrice := 0.0;
        case ChildPrice => childPrice := 0.0;
        case InfantPrice => infantPrice := 0.0;
        case TaxPerPerson => taxPerPerson := 0.0;
      }
    }

    /** The totals effect: compute the snapshot and pass it to
        `debouncedPriceChange`; `call` is the `onPriceChange` call it makes. */
    method Recompute(now: int) returns (call: Option<Snapshot>)
      modifies this
      ensures Outcome(State(), call) == Step(old(State()), Rendered(now))
    {
      var data := Totals(Inputs());
      call := None;
      if isFirstRender {
        isFirstRender := false;
        return;
      }
      if data.inputs == previousValues {
        return;
      }
      previousValues := data.inputs;
      if now - lastCallTime > DebounceMillis {
        lastCallTime := now;
        pending := None;
        call := Some(data);
      } else {
        pending := Some(Deferred(data, now + DebounceMillis));
      }
    }

    /** The event loop reaching `now`: runs the pending call if it is due. */
    method TimerFires(now: int) returns (call: Option<Snapshot>)
      modifies this
      ensures Outcome(State(), call) == Step(old(State()), TimerDue(now))
    {
      call := None;
      if pending.Some? && pending.value.due <= now {
        call := Some(pending.value.data);
        lastCallTime := now;
        pending := None;
      }
    }
  }
}
