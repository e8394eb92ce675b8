/**
 * The shim's mutable globals (`g_config`, `g_pen_fd`, `g_active` and the
 * fields of `g_state`) as one object, with the ring buffer as a 64-slot
 * array. Each method updates the fields in place as the C code does and is
 * proved to produce the state the value-level specification describes.
 */
module Interceptor {
  import opened Evdev
  import opened Settings
  import opened History
  import opened Filters
  import opened Stream

  /** The write-back loop of `read`: walk from record i back to record 0, rewriting X, Y and (optionally) pressure. */
  method WriteBackFiltered(events: array<InputEvent>, i: nat, fx: real, fy: real, fp: real, pressureSmoothing: bool)
    requires i < events.Length
    modifies events
    ensures events[..] == WriteBack(old(events[..]), i, Written(ToValue(fx), ToValue(fy), ToValue(fp)), pressureSmoothing)
  {
    ghost var w := Written(ToValue(fx), ToValue(fy), ToValue(fp));
    for j := 0 to i + 1
      invariant forall m :: 0 <= m < events.Length ==>
                  events[m] == if i - j < m <= i then Rewrite(old(events[m]), w, pressureSmoothing) else old(events[m])
    {
      var k := i - j;
      if events[k].evType == EV_ABS {
        if events[k].code == ABS_X {
          events[k] := events[k].(value := ToValue(fx));
        } else if events[k].code == ABS_Y {
          events[k] := events[k].(value := ToValue(fy));
        } else if events[k].code == ABS_PRESSURE && pressureSmoothing {
          events[k] := events[k].(value := ToValue(fp));
        }
      }
    }
  }

  /** The four accumulations of one gaussian_smooth step, with weight w. */
  method AddSample(sx: real, sy: real, sp: real, sw: real, w: real, p: Point)
    returns (nx: real, ny: real, np: real, nw: real)
    ensures Sums(nx, ny, np, nw) == AddPoint(Sums(sx, sy, sp, sw), w, p)
  {
    nx := sx + w * p.x;
    ny := sy + w * p.y;
    np := sp + w * p.pressure;
    nw := sw + w;
  }

  class Stabilizer {
    var config: Config
    var penFd: int
    var active: bool

    const history: array<Point>
    var histCount: int
    var histHead: int
    var pull: PullState
    var euro: EuroState
    var raw: RawState
    var prev: PrevOutput

    /** A 64-slot ring with an in-range head and count, and a configuration the program can hold. */
    ghost predicate Valid()
      reads this
    {
      history.Length == MAX_HISTORY && 0 <= histCount <= MAX_HISTORY && 0 <= histHead < MAX_HISTORY
      && ConfigOk(config)
    }

    /** The filter state held in the fields, as a value. */
    ghost function State(): (st: FilterState)
      reads this, history
      ensures Valid() ==> Wf(st)
    {
      FilterState(history[..], histCount, histHead, pull, euro, raw, prev)
    }

    /** The globals at load time: the default configuration, no pen device, a zeroed filter state. */
    constructor ()
      ensures Valid() && State() == InitialState
      ensures config == DefaultConfig && penFd == -1 && !active
    {
      config := DefaultConfig;
      penFd := -1;
      active := false;
      history := new Point[MAX_HISTORY](_ => Origin);
      histCount, histHead := 0, 0;
      pull := PullState(0.0, 0.0, false);
      euro := EuroState(0.0, 0.0, 0.0, 0.0, 0.0, false);
      raw := RawState(0, 0, 0, 0, 0, false, false);
      prev := PrevOutput(0.0, 0.0, false);
    }

    /**
     * The effect of `open` on the pen device: remember its descriptor,
     * become active and reload the configuration. Any other descriptor, or
     * a failed open, changes nothing.
     */
    method Attach(fd: int, isPenDevice: bool, file: Option<seq<(string, string)>>, atof: string -> real)
      requires Valid()
      modifies this`penFd, this`active, this`config
      ensures Valid()
      ensures fd >= 0 && isPenDevice ==> penFd == fd && active && config == Loaded(old(config), file, atof)
      ensures !(fd >= 0 && isPenDevice) ==> penFd == old(penFd) && active == old(active) && config == old(config)
    {
      if fd >= 0 && isPenDevice {
        penFd := fd;
        active := true;
        config := LoadConfig(config, file, atof);
      }
    }

    /** history_push on the array. */
    method HistoryPush(x: real, y: real, pressure: real, tiltX: real, tiltY: real, sqrt: real -> real)
      requires Valid()
      modifies history, this`histHead, this`histCount
      ensures Valid()
      ensures var s := old(State()); State() == Pushed(s, x, y, pressure, tiltX, tiltY, sqrt)
    {
      ghost var before := State();
      var idx := (histHead + 1) % MAX_HISTORY;
      var distance: real;
      if histCount > 0 {
        var prev := history[histHead];
        assert prev == before.history[before.histHead];
        var dx, dy := x - prev.x, y - prev.y;
        distance := Norm(sqrt, dx, dy);
      } else {
        distance := 0.0;
      }
      history[idx] := Point(x, y, pressure, tiltX, tiltY, distance);
      histHead := idx;
      if histCount < MAX_HISTORY {
        histCount := histCount + 1;
      }
      assert history[..] == before.history[idx := Point(x, y, pressure, tiltX, tiltY, distance)];
    }

    /** history_clear on the fields. */
    method HistoryClear()
      requires Valid()
      modifies this`histCount, this`histHead, this`pull, this`euro, this`prev, this`raw
      ensures Valid()
      ensures var s := old(State()); State() == Cleared(s)
    {
      histCount := 0;
      histHead := 0;
      pull := pull.(init := false);
      euro := euro.(init := false);
      prev := prev.(init := false);
      raw := raw.(hasX := false, hasY := false);
    }

    /** moving_avg_filter: the accumulator loop walking back from the head. */
    method MovingAvgFilter(rx: real, ry: real) returns (outX: real, outY: real)
      requires Valid()
      ensures (outX, outY) == MovingAverage(State(), config.movingAvgWindow, rx, ry)
    {
      var window := config.movingAvgWindow;
      if window < 1 {
        window := 1;
      }
      var n := if histCount < window then histCount else window;
      if n == 0 {
        return rx, ry;
      }
      var sx, sy := WindowSums(n);
      outX := sx / n as real;
      outY := sy / n as real;
    }

    /** The summing loop of moving_avg_filter, walking back from the head over the n newest points. */
    method WindowSums(n: nat) returns (sx: real, sy: real)
      requires Valid() && n <= histCount
      ensures sx == Sum(Xs(Contents(State())[..n])) && sy == Sum(Ys(Contents(State())[..n]))
    {
      sx, sy := 0.0, 0.0;
      ghost var st := State();
      ghost var newest := Contents(st)[..n];
      var idx := histHead;
      for i := 0 to n
        invariant idx == Slot(histHead, i)
        invariant sx == Sum(Xs(newest[..i])) && sy == Sum(Ys(newest[..i]))
      {
        WindowStep(st, n, i);
        sx := sx + history[idx].x;
        sy := sy + history[idx].y;
        SlotStep(histHead, i);
        idx := (idx - 1 + MAX_HISTORY) % MAX_HISTORY;
      }
      assert newest[..n] == newest;
    }

    /** gaussian_smooth: the weighted mean of the walk, or the raw sample when it does not apply. */
    method GaussianSmoothFilter(rx: real, ry: real, rp: real, weight: (real, real) -> real)
      returns (outX: real, outY: real, outP: real)
      requires Valid()
      ensures (outX, outY, outP) == GaussianSmooth(State(), config, rx, ry, rp, weight)
    {
      var sigma := config.gaussianSigma;
      if sigma <= 0.0 || histCount < 2 {
        return rx, ry, rp;
      }
      var sumX, sumY, sumP, sumW := WeightedSums(sigma, weight);
      if sumW > 0.0 {
        outX := sumX / sumW;
        outY := sumY / sumW;
        outP := if config.pressureSmoothing then sumP / sumW else rp;
      } else {
        outX, outY, outP := rx, ry, rp;
      }
    }

    /**
     * The weighting loop of gaussian_smooth: walk back from the head
     * accumulating each point's weight by cumulative distance, stopping
     * early at a weight below 0.1% of the total so far.
     */
    method WeightedSums(sigma: real, weight: (real, real) -> real)
      returns (sumX: real, sumY: real, sumP: real, sumW: real)
      requires Valid()
      ensures Sums(sumX, sumY, sumP, sumW) == GaussianAcc(Contents(State()), 0, 0.0, Sums(0.0, 0.0, 0.0, 0.0), sigma, weight)
    {
      sumX, sumY, sumP, sumW := 0.0, 0.0, 0.0, 0.0;
      var cumDist := 0.0;
      ghost var st := State();
      ghost var pts := Contents(st);
      ghost var total := GaussianAcc(pts, 0, 0.0, Sums(0.0, 0.0, 0.0, 0.0), sigma, weight);
      var idx := histHead;
      var i := 0;
      while i < histCount
        invariant 0 <= i <= histCount
        invariant idx == Slot(histHead, i)
        invariant GaussianAcc(pts, i, cumDist, Sums(sumX, sumY, sumP, sumW), sigma, weight) == total
      {
        ghost var cum := cumDist;
        var p := history[idx];
        ContentsAt(st, i);
        cumDist := cumDist + p.distance;
        var w := weight(sigma, cumDist);
        if i > 0 && sumW > 0.0 && w / sumW < 0.001 {
          GaussianAccStop(pts, i, cum, Sums(sumX, sumY, sumP, sumW), sigma, weight, cumDist, w);
          break;
        }
        GaussianAccAdd(pts, i, cum, Sums(sumX, sumY, sumP, sumW), sigma, weight, cumDist, w, p);
        sumX, sumY, sumP, sumW := AddSample(sumX, sumY, sumP, sumW, w, p);
        SlotStep(histHead, i);
        idx := (idx - 1 + MAX_HISTORY) % MAX_HISTORY;
        i := i + 1;
      }
    }

    /** string_pull_filter on the anchor. */
    method StringPullFilter(rx: real, ry: real, sqrt: real -> real) returns (outX: real, outY: real)
      requires Valid()
      modifies this`pull
      ensures Valid()
      ensures var m := Filters.StringPull(old(pull), rx, ry, config.stringLength, sqrt);
        pull == m.st && outX == m.x && outY == m.y
    {
      var L := config.stringLength;
      if !pull.init {
        pull := PullState(rx, ry, true);
      }
      var dx, dy := rx - pull.x, ry - pull.y;
      var dist := Norm(sqrt, dx, dy);
      assert dist == Dist(sqrt, pull.x, pull.y, rx, ry);
      if dist > L {
        var ratio := (dist - L) / dist;
        ghost var p := Toward(pull.x, pull.y, rx, ry, ratio);
        var nx, ny := pull.x + dx * ratio, pull.y + dy * ratio;
        assert nx == p.0 && ny == p.1;
        pull := pull.(x := nx, y := ny);
      }
      outX := pull.x;
      outY := pull.y;
    }

    /** one_euro_filter on the estimates. */
    method OneEuroFilter(rx: real, ry: real, timestamp: real, num: Numerics) returns (outX: real, outY: real)
      requires Valid()
      modifies this`euro
      ensures Valid()
      ensures var m := Filters.OneEuro(old(euro), config, rx, ry, timestamp, num);
        euro == m.st && outX == m.x && outY == m.y
    {
      if !euro.init {
        euro := EuroState(rx, ry, 0.0, 0.0, timestamp, true);
        return rx, ry;
      }
      ghost var v := Velocity(euro, config, rx, ry, TimeStep(euro.lastTime, timestamp), num);
      var dt := timestamp - euro.lastTime;
      if dt <= 0.0 {
        dt := 0.002;
      }
      euro := euro.(lastTime := timestamp);
      var ad := num.oeAlpha(config.oneEuroDCutoff, dt);
      euro := euro.(dx := Lowpass((rx - euro.x) / dt, euro.dx, ad), dy := Lowpass((ry - euro.y) / dt, euro.dy, ad));
      assert (euro.dx, euro.dy) == v;
      var speed := Norm(num.sqrt, euro.dx, euro.dy);
      var cutoff := Cutoff(config, speed);
      var a := num.oeAlpha(cutoff, dt);
      euro := euro.(x := Lowpass(rx, euro.x, a), y := Lowpass(ry, euro.y, a));
      outX, outY := euro.x, euro.y;
    }

    /** apply_filter: pressure passes through unless the Gaussian average replaces it. */
    method ApplyFilter(rx: real, ry: real, rp: real, timestamp: real, num: Numerics)
      returns (outX: real, outY: real, outP: real)
      requires Valid()
      modifies this`pull, this`euro
      ensures Valid()
      ensures var s := old(State()); var f := Filter(config, s, rx, ry, rp, timestamp, num);
        State() == f.st && outX == f.x && outY == f.y && outP == f.p
    {
      outP := rp;
      match config.algorithm {
        case MovingAvg =>
          outX, outY := MovingAvgFilter(rx, ry);
        case GaussianAvg =>
          outX, outY, outP := GaussianSmoothFilter(rx, ry, rp, num.gaussWeight);
        case StringPull =>
          outX, outY := StringPullFilter(rx, ry, num.sqrt);
        case OneEuro =>
          outX, outY := OneEuroFilter(rx, ry, timestamp, num);
        case Off =>
          outX, outY := rx, ry;
      }
    }

    /** The early return of `read`: nothing read, another descriptor, inactive, or filtering off. */
    predicate Bypass(fd: int, ret: int)
      reads this
    {
      ret <= 0 || fd != penFd || !active || config.algorithm == Off
    }

    /**
     * The `read` hook after the real read returned `ret` bytes into
     * `events`: unless bypassed, run the loop over the `ret / EVENT_SIZE`
     * whole records, then return `ret` unchanged.
     */
    method Read(fd: int, events: array<InputEvent>, ret: int, num: Numerics) returns (r: int)
      requires Valid()
      requires ret <= 0 || ret / EVENT_SIZE <= events.Length
      modifies this, history, events
      ensures Valid() && r == ret
      ensures config == old(config) && penFd == old(penFd) && active == old(active)
      ensures old(Bypass(fd, ret)) ==> events[..] == old(events[..]) && State() == old(State())
      ensures var s, evs := old(State()), old(events[..]);
        !old(Bypass(fd, ret)) ==> Batch(State(), events[..]) == Run(config, Batch(s, evs), 0, ret / EVENT_SIZE, num)
      ensures SameShape(events[..], old(events[..]), config.pressureSmoothing)
      ensures !old(Bypass(fd, ret)) ==> forall k :: ret / EVENT_SIZE <= k < events.Length ==> events[k] == old(events[k])
    {
      if ret <= 0 || fd != penFd || !active || config.algorithm == Off {
        return ret;
      }
      ghost var b0 := Batch(State(), events[..]);
      var n := ret / EVENT_SIZE;
      ProcessRecords(events, n, num);
      RunKeepsShape(config, b0, 0, n, num);
      r := ret;
    }

    /** The loop of `read` over the first n records. */
    method ProcessRecords(events: array<InputEvent>, n: nat, num: Numerics)
      requires Valid() && n <= events.Length
      modifies history, this`histHead, this`histCount, this`pull, this`euro, this`raw, this`prev, events
      ensures Valid()
      ensures var s, evs := old(State()), old(events[..]);
        Batch(State(), events[..]) == Run(config, Batch(s, evs), 0, n, num)
    {
      ghost var b0 := Batch(State(), events[..]);
      var i := 0;
      while i < n
        invariant 0 <= i <= n && Valid()
        invariant Run(config, Batch(State(), events[..]), i, n, num) == Run(config, b0, 0, n, num)
      {
        ProcessEvent(events, i, num);
        i := i + 1;
      }
    }

    /** The loop body of `read` for record i. */
    method ProcessEvent(events: array<InputEvent>, i: nat, num: Numerics)
      requires Valid() && i < events.Length
      modifies history, this`histHead, this`histCount, this`pull, this`euro, this`raw, this`prev, events
      ensures Valid()
      ensures var s, evs := old(State()), old(events[..]);
        Batch(State(), events[..]) == Step(config, Batch(s, evs), i, num)
    {
      ghost var before := Batch(State(), events[..]);
      var ev := events[i];
      AccumulateEvent(ev);
      ghost var accumulated := Batch(State(), events[..]);
      assert accumulated == Batch(before.st.(raw := Accumulate(before.st.raw, ev)), before.evs);
      if ev.evType == EV_SYN && ev.code == SYN_REPORT {
        ReportEvent(events, i, ev, num);
      }
      ghost var reported := Batch(State(), events[..]);
      assert reported == (if IsSynReport(ev) then Report(config, accumulated, i, num) else accumulated);
      assert events[i] == ev;
      LiftCheckEvent(events[i]);
    }

    /** The first part of the loop body of `read`: record an axis value. */
    method AccumulateEvent(ev: InputEvent)
      requires Valid()
      modifies this`raw
      ensures Valid()
      ensures raw == Accumulate(old(raw), ev)
    {
      if ev.evType == EV_ABS {
        if ev.code == ABS_X {
          raw := raw.(x := ev.value, hasX := true);
        } else if ev.code == ABS_Y {
          raw := raw.(y := ev.value, hasY := true);
        } else if ev.code == ABS_PRESSURE {
          raw := raw.(pressure := ev.value);
        } else if ev.code == ABS_TILT_X {
          raw := raw.(tiltX := ev.value);
        } else if ev.code == ABS_TILT_Y {
          raw := raw.(tiltY := ev.value);
        }
      }
    }

    /** The report part of the loop body of `read`, for the `SYN_REPORT` record i. */
    method ReportEvent(events: array<InputEvent>, i: nat, ev: InputEvent, num: Numerics)
      requires Valid() && i < events.Length && events[i] == ev
      modifies history, this`histHead, this`histCount, this`pull, this`euro, this`raw, events
      ensures Valid()
      ensures var s, evs := old(State()), old(events[..]);
        Batch(State(), events[..]) == Report(config, Batch(s, evs), i, num)
    {
      if raw.hasX || raw.hasY {
        ghost var s := State();
        var rx, ry := raw.x as real, raw.y as real;
        var rp := raw.pressure as real;
        var ts := Seconds(ev);
        HistoryPush(rx, ry, rp, raw.tiltX as real, raw.tiltY as real, num.sqrt);
        var fx, fy, fp := ApplyFilter(rx, ry, rp, ts, num);
        ghost var f := FilterReport(config, s, ts, num);
        assert f == Filtered(State(), fx, fy, fp);
        WriteBackFiltered(events, i, fx, fy, fp, config.pressureSmoothing);
      }
      raw := raw.(hasX := false, hasY := false);
    }

    /** The last part of the loop body of `read`: the two pen-lift conditions. */
    method LiftCheckEvent(ev: InputEvent)
      requires Valid()
      modifies this`histCount, this`histHead, this`pull, this`euro, this`prev, this`raw
      ensures Valid()
      ensures var s := old(State()); State() == LiftCheck(s, ev)
    {
      if ev.evType == EV_ABS && ev.code == ABS_PRESSURE && ev.value < LIFT_PRESSURE {
        HistoryClear();
      }
      if ev.evType == EV_KEY && ev.code == BTN_TOOL_PEN && ev.value == 0 {
        HistoryClear();
      }
    }
  }
}
