/**
 * The event-processing body of the `read` hook as a value-level
 * specification: one step per `input_event` record, folded over the
 * records of a batch. The imperative loop in the Interceptor module is
 * proved equal to this fold.
 */
module Stream {
  import opened Evdev
  import opened Settings
  import opened History
  import opened Filters

  /** The filter state together with the event buffer being rewritten. */
  datatype Batch = Batch(st: FilterState, evs: seq<InputEvent>)

  /** The integers written back for X, Y and pressure at one report. */
  datatype Written = Written(x: int, y: int, p: int)

  /**
   * The first half of the loop body: an `EV_ABS` record updates the raw
   * value of its axis; X and Y also raise their "changed" flag. Other
   * codes and other types leave the raw values as they were.
   */
  function Accumulate(raw: RawState, e: InputEvent): (r: RawState)
    ensures e.evType != EV_ABS ==> r == raw
    ensures r.x == (if e.evType == EV_ABS && e.code == ABS_X then e.value else raw.x)
    ensures r.y == (if e.evType == EV_ABS && e.code == ABS_Y then e.value else raw.y)
    ensures r.hasX == (raw.hasX || (e.evType == EV_ABS && e.code == ABS_X))
    ensures r.hasY == (raw.hasY || (e.evType == EV_ABS && e.code == ABS_Y))
    ensures r.pressure == (if e.evType == EV_ABS && e.code == ABS_PRESSURE then e.value else raw.pressure)
  {
    if e.evType != EV_ABS then raw
    else if e.code == ABS_X then raw.(x := e.value, hasX := true)
    else if e.code == ABS_Y then raw.(y := e.value, hasY := true)
    else if e.code == ABS_PRESSURE then raw.(pressure := e.value)
    else if e.code == ABS_TILT_X then raw.(tiltX := e.value)
    else if e.code == ABS_TILT_Y then raw.(tiltY := e.value)
    else raw
  }

  /** The records the write-back may change: X, Y, and pressure when pressure smoothing is on. */
  predicate Rewritable(e: InputEvent, pressureSmoothing: bool)
  {
    e.evType == EV_ABS && (e.code == ABS_X || e.code == ABS_Y || (e.code == ABS_PRESSURE && pressureSmoothing))
  }

  /** Two records with the same timestamp, type and code. */
  predicate SameHeader(a: InputEvent, b: InputEvent)
  {
    a.sec == b.sec && a.usec == b.usec && a.evType == b.evType && a.code == b.code
  }

  /** The write-back applied to one record. */
  function Rewrite(e: InputEvent, w: Written, pressureSmoothing: bool): (r: InputEvent)
    ensures SameHeader(r, e)
    ensures !Rewritable(e, pressureSmoothing) ==> r == e
    ensures e.evType == EV_ABS && e.code == ABS_X ==> r.value == w.x
    ensures e.evType == EV_ABS && e.code == ABS_Y ==> r.value == w.y
    ensures e.evType == EV_ABS && e.code == ABS_PRESSURE && pressureSmoothing ==> r.value == w.p
  {
    if e.evType != EV_ABS then e
    else if e.code == ABS_X then e.(value := w.x)
    else if e.code == ABS_Y then e.(value := w.y)
    else if e.code == ABS_PRESSURE && pressureSmoothing then e.(value := w.p)
    else e
  }

  /**
   * The write-back at a report at index i: every record from index i back
   * to the start of the buffer is rewritten (there is no early exit, so all
   * earlier X and Y records get the new value); later records are untouched.
   */
  function WriteBack(evs: seq<InputEvent>, i: nat, w: Written, pressureSmoothing: bool): (r: seq<InputEvent>)
    requires i < |evs|
    ensures |r| == |evs|
    ensures forall k :: 0 <= k < |evs| ==> SameHeader(r[k], evs[k])
    ensures forall k :: 0 <= k < |evs| && !Rewritable(evs[k], pressureSmoothing) ==> r[k] == evs[k]
    ensures forall k :: i < k < |evs| ==> r[k] == evs[k]
    ensures forall k :: 0 <= k <= i && evs[k].evType == EV_ABS && evs[k].code == ABS_X ==> r[k].value == w.x
    ensures forall k :: 0 <= k <= i && evs[k].evType == EV_ABS && evs[k].code == ABS_Y ==> r[k].value == w.y
    ensures forall k :: 0 <= k <= i && evs[k].evType == EV_ABS && evs[k].code == ABS_PRESSURE && pressureSmoothing ==>
              r[k].value == w.p
  {
    seq(|evs|, k requires 0 <= k < |evs| => if k <= i then Rewrite(evs[k], w, pressureSmoothing) else evs[k])
  }

  /** The filter run at a report: push the raw sample into the ring, then apply the configured filter. */
  function FilterReport(c: Config, st: FilterState, ts: real, num: Numerics): (f: Filtered)
    requires Wf(st) && 0.0 <= c.stringLength
    ensures Wf(f.st)
    ensures c.algorithm == Off ==> f.x == st.raw.x as real && f.y == st.raw.y as real
  {
    var raw := st.raw;
    var pushed := Pushed(st, raw.x as real, raw.y as real, raw.pressure as real,
                         raw.tiltX as real, raw.tiltY as real, num.sqrt);
    Filter(c, pushed, raw.x as real, raw.y as real, raw.pressure as real, ts, num)
  }

  /** The flags cleared at the end of a report. */
  function Settled(st: FilterState): (r: FilterState)
    ensures !r.raw.hasX && !r.raw.hasY
    ensures r.(raw := st.raw) == st && r.raw.(hasX := st.raw.hasX, hasY := st.raw.hasY) == st.raw
  {
    st.(raw := st.raw.(hasX := false, hasY := false))
  }

  /** The rounded values `(int)(v + 0.5)` of a filter output. */
  function Rounded(f: Filtered): Written
  {
    Written(ToValue(f.x), ToValue(f.y), ToValue(f.p))
  }

  /**
   * The handling of a `SYN_REPORT` at index i: when X or Y changed since
   * the last report, filter and write back; in every case the flags drop.
   */
  function Report(c: Config, b: Batch, i: nat, num: Numerics): (r: Batch)
    requires Wf(b.st) && 0.0 <= c.stringLength && i < |b.evs|
    ensures Wf(r.st) && |r.evs| == |b.evs|
    ensures !r.st.raw.hasX && !r.st.raw.hasY
    ensures !b.st.raw.hasX && !b.st.raw.hasY ==> r == b
  {
    if b.st.raw.hasX || b.st.raw.hasY then
      var f := FilterReport(c, b.st, Seconds(b.evs[i]), num);
      Batch(Settled(f.st), WriteBack(b.evs, i, Rounded(f), c.pressureSmoothing))
    else
      Batch(Settled(b.st), b.evs)
  }

  /** A pressure reading below the lift threshold. */
  predicate IsLowPressure(e: InputEvent)
  {
    e.evType == EV_ABS && e.code == ABS_PRESSURE && e.value < LIFT_PRESSURE
  }

  /** The pen leaving proximity: `BTN_TOOL_PEN` with value 0. */
  predicate IsPenRelease(e: InputEvent)
  {
    e.evType == EV_KEY && e.code == BTN_TOOL_PEN && e.value == 0
  }

  /** The last part of the loop body: either lift condition clears the stroke state. */
  function LiftCheck(st: FilterState, e: InputEvent): (r: FilterState)
    ensures IsLowPressure(e) || IsPenRelease(e) ==> r == Cleared(st)
    ensures !IsLowPressure(e) && !IsPenRelease(e) ==> r == st
  {
    var afterPressure := if IsLowPressure(e) then Cleared(st) else st;
    if IsPenRelease(e) then Cleared(afterPressure) else afterPressure
  }

  /** One iteration of the loop of `read`, on record i. */
  function Step(c: Config, b: Batch, i: nat, num: Numerics): (r: Batch)
    requires Wf(b.st) && 0.0 <= c.stringLength && i < |b.evs|
    ensures Wf(r.st) && |r.evs| == |b.evs|
    ensures IsSynReport(b.evs[i]) ==> !r.st.raw.hasX && !r.st.raw.hasY
  {
    var e := b.evs[i];
    var accumulated := Batch(b.st.(raw := Accumulate(b.st.raw, e)), b.evs);
    var reported := if IsSynReport(e) then Report(c, accumulated, i, num) else accumulated;
    Batch(LiftCheck(reported.st, e), reported.evs)
  }

  /** The loop of `read` over records i up to n. */
  function Run(c: Config, b: Batch, i: nat, n: nat, num: Numerics): (r: Batch)
    requires Wf(b.st) && 0.0 <= c.stringLength && i <= n <= |b.evs|
    ensures Wf(r.st) && |r.evs| == |b.evs|
    decreases n - i
  {
    if i == n then b else Run(c, Step(c, b, i, num), i + 1, n, num)
  }

  /**
   * What the loop may do to the buffer: keep the record count, keep each
   * record's timestamp, type and code, and change a value only in a
   * rewritable record.
   */
  predicate SameShape(after: seq<InputEvent>, before: seq<InputEvent>, pressureSmoothing: bool)
  {
    && |after| == |before|
    && forall k :: 0 <= k < |before| ==>
         SameHeader(after[k], before[k]) && (after[k].value != before[k].value ==> Rewritable(before[k], pressureSmoothing))
  }

  lemma SameShapeTrans(a: seq<InputEvent>, b: seq<InputEvent>, c: seq<InputEvent>, ps: bool)
    requires SameShape(a, b, ps) && SameShape(b, c, ps)
    ensures SameShape(a, c, ps)
  {
  }

  /** One step keeps the buffer's shape and leaves the records after i alone. */
  lemma StepKeepsShape(c: Config, b: Batch, i: nat, num: Numerics)
    requires Wf(b.st) && 0.0 <= c.stringLength && i < |b.evs|
    ensures SameShape(Step(c, b, i, num).evs, b.evs, c.pressureSmoothing)
    ensures forall k :: i < k < |b.evs| ==> Step(c, b, i, num).evs[k] == b.evs[k]
  {
  }

  /**
   * The whole loop keeps the record count and every record's timestamp,
   * type and code; only X, Y (and pressure, with pressure smoothing) values
   * change, and no record at or after n is touched.
   */
  lemma {:induction false} RunKeepsShape(c: Config, b: Batch, i: nat, n: nat, num: Numerics)
    requires Wf(b.st) && 0.0 <= c.stringLength && i <= n <= |b.evs|
    ensures SameShape(Run(c, b, i, n, num).evs, b.evs, c.pressureSmoothing)
    ensures forall k :: n <= k < |b.evs| ==> Run(c, b, i, n, num).evs[k] == b.evs[k]
    decreases n - i
  {
    if i < n {
      var next := Step(c, b, i, num);
      StepKeepsShape(c, b, i, num);
      RunKeepsShape(c, next, i + 1, n, num);
      SameShapeTrans(Run(c, next, i + 1, n, num).evs, next.evs, b.evs, c.pressureSmoothing);
    }
  }

  /**
   * At a report that follows new X or Y data, the step pushes the raw
   * sample, runs the filter and rewrites every X and Y record up to and
   * including i (and pressure records with pressure smoothing) with the
   * rounded output.
   */
  lemma StepAtReport(c: Config, b: Batch, i: nat, num: Numerics)
    requires Wf(b.st) && 0.0 <= c.stringLength && i < |b.evs|
    requires IsSynReport(b.evs[i]) && (b.st.raw.hasX || b.st.raw.hasY)
    ensures var r, f := Step(c, b, i, num), FilterReport(c, b.st, Seconds(b.evs[i]), num);
      && r.evs == WriteBack(b.evs, i, Rounded(f), c.pressureSmoothing)
      && r.st == Settled(f.st)
      && Contents(r.st)[0].x == b.st.raw.x as real && Contents(r.st)[0].y == b.st.raw.y as real
  {
    var raw := b.st.raw;
    var f := FilterReport(c, b.st, Seconds(b.evs[i]), num);
    var pushed := Pushed(b.st, raw.x as real, raw.y as real, raw.pressure as real,
                         raw.tiltX as real, raw.tiltY as real, num.sqrt);
    PushedContents(b.st, raw.x as real, raw.y as real, raw.pressure as real,
                   raw.tiltX as real, raw.tiltY as real, num.sqrt);
    assert Contents(f.st) == Contents(pushed);
  }

  /** A report with no new X or Y data (hovering or pressure-only) writes nothing and pushes nothing. */
  lemma StepHoverReport(c: Config, b: Batch, i: nat, num: Numerics)
    requires Wf(b.st) && 0.0 <= c.stringLength && i < |b.evs|
    requires IsSynReport(b.evs[i]) && !b.st.raw.hasX && !b.st.raw.hasY
    ensures Step(c, b, i, num) == b
  {
  }

  /** Records other than reports never change the buffer. */
  lemma StepNonReport(c: Config, b: Batch, i: nat, num: Numerics)
    requires Wf(b.st) && 0.0 <= c.stringLength && i < |b.evs|
    requires !IsSynReport(b.evs[i])
    ensures Step(c, b, i, num).evs == b.evs
  {
  }

  /**
   * A low-pressure reading or a pen release ends the stroke: the ring is
   * empty and the anchor and one-euro state are forgotten, while the raw
   * values are carried forward (a low pressure reading is itself recorded
   * first).
   */
  lemma StepLift(c: Config, b: Batch, i: nat, num: Numerics)
    requires Wf(b.st) && 0.0 <= c.stringLength && i < |b.evs|
    requires IsLowPressure(b.evs[i]) || IsPenRelease(b.evs[i])
    ensures var r := Step(c, b, i, num);
      && Contents(r.st) == [] && !r.st.pull.init && !r.st.euro.init && !r.st.raw.hasX && !r.st.raw.hasY
      && r.st.raw.x == b.st.raw.x && r.st.raw.y == b.st.raw.y
      && r.st.raw.pressure == (if IsLowPressure(b.evs[i]) then b.evs[i].value else b.st.raw.pressure)
      && r.evs == b.evs
  {
  }

  /**
   * With every step of a batch free of reports, the loop leaves the buffer
   * exactly as it was: rewriting happens only at reports.
   */
  lemma {:induction false} RunWithoutReports(c: Config, b: Batch, i: nat, n: nat, num: Numerics)
    requires Wf(b.st) && 0.0 <= c.stringLength && i <= n <= |b.evs|
    requires forall k :: i <= k < n ==> !IsSynReport(b.evs[k])
    ensures Run(c, b, i, n, num).evs == b.evs
    decreases n - i
  {
    if i < n {
      StepNonReport(c, b, i, num);
      RunWithoutReports(c, Step(c, b, i, num), i + 1, n, num);
    }
  }
}
