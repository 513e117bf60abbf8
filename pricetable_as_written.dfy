/**
  `debouncedPriceChange` exactly as the component keeps its refs: one ref,
  `lastCallTimeRef`, holds the epoch time of the last call of `onPriceChange`
  and is overwritten by the timer handle whenever a call is deferred. The
  immediate branch then compares the clock with a timer handle, and
  `clearTimeout` is handed a timestamp, so a deferred call can survive a
  newer immediate one and deliver an older snapshot last.
*/
module PriceTableAsWritten {
  import opened Maybe
  import opened PriceTable

  /** A timer registered with `setTimeout`: its handle, the snapshot its
      callback passes to `onPriceChange`, and when it runs. */
  datatype Timer = Timer(handle: int, data: Snapshot, due: int)

  /** The component's refs plus the host's table of live timers. */
  datatype RefState = RefState(
    isFirstRender: bool, previousValues: PaxInputs, ref: int, timers: seq<Timer>)

  datatype RefOutcome = RefOutcome(state: RefState, call: Option<Snapshot>)

  /** `clearTimeout(h)`: the timers still live afterwards. */
  function ClearTimeout(timers: seq<Timer>, h: int): (r: seq<Timer>)
    ensures forall k :: 0 <= k < |r| ==> r[k].handle != h && r[k] in timers
    ensures forall t :: t in timers && t.handle != h ==> t in r
    decreases |timers|
  {
    if timers == [] then []
    else if timers[0].handle == h then ClearTimeout(timers[1..], h)
    else [timers[0]] + ClearTimeout(timers[1..], h)
  }

  /** One call of `debouncedPriceChange(data)` at time `now`; `handle` is the
      value the host's `setTimeout` returns if a call is deferred. */
  function PropagateAsWritten(s: RefState, data: Snapshot, now: int, handle: int): RefOutcome {
    if s.isFirstRender then RefOutcome(s.(isFirstRender := false), None)
    else if data.inputs == s.previousValues then RefOutcome(s, None)
    else if now - s.ref > DebounceMillis then
      RefOutcome(s.(previousValues := data.inputs, ref := now), Some(data))
    else
      RefOutcome(s.(previousValues := data.inputs, ref := handle,
                    timers := ClearTimeout(s.timers, s.ref) + [Timer(handle, data, now + DebounceMillis)]),
                 None)
  }

  /** The host running the live timer at index `k` when the clock reaches `now`:
      its callback stores `now` in the ref and calls `onPriceChange`. */
  function FireAsWritten(s: RefState, k: int, now: int): RefOutcome {
    if 0 <= k < |s.timers| && s.timers[k].due <= now then
      RefOutcome(s.(ref := now, timers := s.timers[..k] + s.timers[k + 1..]), Some(s.timers[k].data))
    else RefOutcome(s, None)
  }

  const I0: PaxInputs := PaxInputs(1, 0, 0, 50.0, 0.0, 0.0, 0.0)
  const I1: PaxInputs := PaxInputs(2, 0, 0, 50.0, 0.0, 0.0, 0.0)
  const I2: PaxInputs := PaxInputs(3, 0, 0, 50.0, 0.0, 0.0, 0.0)
  const I3: PaxInputs := PaxInputs(4, 0, 0, 50.0, 0.0, 0.0, 0.0)

  /** Mounted at 1000 ms with one adult; the adult count is then edited to 2
      at 2000 ms, 3 at 2100 ms and 4 at 2200 ms, and the host hands out timer
      handle 7. The edit at 2100 ms is deferred and the ref becomes 7; at
      2200 ms `2200 - 7 > 500`, so the edit to 4 is sent at once while timer 7
      stays live; at 2600 ms timer 7 sends the snapshot for 3 adults, after
      the one for 4. The consumer ends with 3 adults; the table shows 4. */
  lemma StaleSnapshotDelivered()
    ensures var s0 := RefState(true, I0, 0, []);
      var r1 := PropagateAsWritten(s0, Totals(I0), 1000, 7);
      var r2 := PropagateAsWritten(r1.state, Totals(I1), 2000, 7);
      var r3 := PropagateAsWritten(r2.state, Totals(I2), 2100, 7);
      var r4 := PropagateAsWritten(r3.state, Totals(I3), 2200, 7);
      var r5 := FireAsWritten(r4.state, 0, 2600);
      && r1.call == None && r2.call == Some(Totals(I1)) && r3.call == None
      && r4.call == Some(Totals(I3)) && r5.call == Some(Totals(I2))
      && r5.state.previousValues == I3 && Totals(I2) != Totals(I3)
  {
  }

  /** The same timeline through the corrected propagation: the edit to 4 adults,
      200 ms after the last call, is deferred in place of the edit to 3, and at
      2700 ms it is the only further snapshot sent; nothing is left pending. */
  lemma CorrectedSendsLatest()
    ensures var s0 := Debounce(true, I0, 0, None);
      var r1 := Propagate(s0, Totals(I0), 1000);
      var r2 := Propagate(r1.state, Totals(I1), 2000);
      var r3 := Propagate(r2.state, Totals(I2), 2100);
      var r4 := Propagate(r3.state, Totals(I3), 2200);
      var r5 := Fire(r4.state, 2600);
      var r6 := Fire(r5.state, 2700);
      && r1.call == None && r2.call == Some(Totals(I1)) && r3.call == None
      && r4.call == None && r5.call == None && r6.call == Some(Totals(I3))
      && r6.state.pending == None && r6.state.previousValues == I3
  {
  }
}
