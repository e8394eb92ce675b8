/**
 * The smoothing algorithms of the stabilizer and their dispatch
 * (`apply_filter`). Arithmetic is on mathematical reals; the square root,
 * the Gaussian kernel and the one-euro smoothing factor, which the
 * program takes from libm and pi, are parameters.
 */
module Filters {
  import opened Settings
  import opened History

  /**
   * The transcendental functions the filters call: `sqrt`; the Gaussian
   * weight of a point as a function of (sigma, cumulative distance),
   * `exp(-d*d / (2*sigma*sigma)) / (sqrt(2*pi) * sigma)`; and the one-euro
   * smoothing factor as a function of (cutoff, dt), `oe_alpha`.
   */
  datatype Numerics = Numerics(sqrt: real -> real, gaussWeight: (real, real) -> real, oeAlpha: (real, real) -> real)

  /** A filter's output together with the filter state it leaves behind. */
  datatype Filtered = Filtered(st: FilterState, x: real, y: real, p: real)

  /** A position filter's output together with the filter's own state it leaves behind. */
  datatype Moved<S> = Moved(st: S, x: real, y: real)

  // ---------------------------------------------------------------------
  // Arithmetic helpers

  lemma ScaleLess(a: real, b: real, n: real)
    requires a < b && 0.0 < n
    ensures a * n < b * n
  {
    var d := b - a;
    var dn := d * n;
    assert 0.0 < dn;
    assert b * n == a * n + dn;
  }

  lemma ScaleLeq(a: real, b: real, n: real)
    requires a <= b && 0.0 <= n
    ensures a * n <= b * n
  {
    var d := b - a;
    var dn := d * n;
    assert 0.0 <= dn;
    assert b * n == a * n + dn;
  }

  /** Dividing bounds `lo * n <= s <= hi * n` by a positive n. */
  lemma DivideBounds(s: real, n: real, lo: real, hi: real)
    requires 0.0 < n && lo * n <= s <= hi * n
    ensures lo <= s / n <= hi
  {
    var m := s / n;
    assert m * n == s;
    if m < lo {
      ScaleLess(m, lo, n);
    }
    if hi < m {
      ScaleLess(hi, m, n);
    }
  }

  // ---------------------------------------------------------------------
  // Moving average

  function Sum(s: seq<real>): real
    decreases |s|
  {
    if s == [] then 0.0 else Sum(s[..|s| - 1]) + s[|s| - 1]
  }

  function Mean(s: seq<real>): real
    requires 0 < |s|
  {
    Sum(s) / |s| as real
  }

  lemma {:induction false} SumBounds(s: seq<real>, lo: real, hi: real)
    requires forall k :: 0 <= k < |s| ==> lo <= s[k] <= hi
    ensures lo * |s| as real <= Sum(s) <= hi * |s| as real
    decreases |s|
  {
    if s != [] {
      var n := |s| as real;
      SumBounds(s[..|s| - 1], lo, hi);
      assert lo * (n - 1.0) + lo == lo * n;
      assert hi * (n - 1.0) + hi == hi * n;
    }
  }

  /** A mean lies between the smallest and the largest of its values. */
  lemma MeanBounds(s: seq<real>, lo: real, hi: real)
    requires 0 < |s|
    requires forall k :: 0 <= k < |s| ==> lo <= s[k] <= hi
    ensures lo <= Mean(s) <= hi
  {
    SumBounds(s, lo, hi);
    DivideBounds(Sum(s), |s| as real, lo, hi);
  }

  function Xs(pts: seq<Point>): (s: seq<real>)
    ensures |s| == |pts| && forall k :: 0 <= k < |pts| ==> s[k] == pts[k].x
  {
    seq(|pts|, k requires 0 <= k < |pts| => pts[k].x)
  }

  function Ys(pts: seq<Point>): (s: seq<real>)
    ensures |s| == |pts| && forall k :: 0 <= k < |pts| ==> s[k] == pts[k].y
  {
    seq(|pts|, k requires 0 <= k < |pts| => pts[k].y)
  }

  /** Extending a prefix by one point adds that point's coordinate to the sum. */
  lemma SumPrefixStep(pts: seq<Point>, i: nat)
    requires i < |pts|
    ensures Sum(Xs(pts[..i + 1])) == Sum(Xs(pts[..i])) + pts[i].x
    ensures Sum(Ys(pts[..i + 1])) == Sum(Ys(pts[..i])) + pts[i].y
  {
    assert Xs(pts[..i + 1])[..i] == Xs(pts[..i]);
    assert Ys(pts[..i + 1])[..i] == Ys(pts[..i]);
  }

  /** The number of newest points moving_avg_filter averages: the window (at least 1), or fewer if the ring holds fewer. */
  function AvgCount(histCount: int, window: int): (n: int)
    requires 0 <= histCount
    ensures 0 <= n <= histCount
    ensures n <= window || n <= 1
    ensures n == histCount || n == (if window < 1 then 1 else window)
    ensures 0 < histCount ==> 0 < n
  {
    var w := if window < 1 then 1 else window;
    if histCount < w then histCount else w
  }

  /**
   * With window 4, after raw x inputs 0, 10, 20, 30, 40 the average is
   * taken over the four newest, 10, 20, 30 and 40, so it is 25.
   */
  lemma MovingAverageExample(st: FilterState, rx: real, ry: real)
    requires Wf(st) && st.histCount == 5
    requires Contents(st)[0].x == 40.0 && Contents(st)[1].x == 30.0
    requires Contents(st)[2].x == 20.0 && Contents(st)[3].x == 10.0
    requires Contents(st)[4].x == 0.0
    ensures MovingAverage(st, 4, rx, ry).0 == 25.0
  {
    var xs := Xs(Contents(st)[..4]);
    assert xs == [40.0, 30.0, 20.0, 10.0];
    assert xs[..3] == [40.0, 30.0, 20.0];
    assert xs[..3][..2] == [40.0, 30.0];
    assert xs[..3][..2][..1] == [40.0];
    assert [40.0][..0] == [];
    assert Sum([40.0]) == 40.0;
    assert Sum([40.0, 30.0]) == 70.0;
    assert Sum([40.0, 30.0, 20.0]) == 90.0;
    assert Sum(xs) == 100.0;
  }

  /** One step of the walk back from the head adds the slot's point to the window sums. */
  lemma WindowStep(st: FilterState, n: nat, i: nat)
    requires Wf(st) && i < n <= st.histCount
    ensures var newest, p := Contents(st)[..n], st.history[Slot(st.histHead, i)];
      && Sum(Xs(newest[..i + 1])) == Sum(Xs(newest[..i])) + p.x
      && Sum(Ys(newest[..i + 1])) == Sum(Ys(newest[..i])) + p.y
  {
    ContentsAt(st, i);
    SumPrefixStep(Contents(st)[..n], i);
  }

  /**
   * moving_avg_filter: the mean of the `AvgCount` newest points of the
   * ring, or the raw position when the ring is empty.
   */
  function MovingAverage(st: FilterState, window: int, rx: real, ry: real): (r: (real, real))
    requires Wf(st)
    ensures st.histCount == 0 ==> r == (rx, ry)
  {
    var n := AvgCount(st.histCount, window);
    if n == 0 then (rx, ry)
    else
      var newest := Contents(st)[..n];
      (Mean(Xs(newest)), Mean(Ys(newest)))
  }

  /**
   * The moving average lies inside every box that holds the points it
   * averages: it never overshoots the recent raw positions.
   */
  lemma MovingAverageInBox(st: FilterState, window: int, rx: real, ry: real,
                           loX: real, hiX: real, loY: real, hiY: real)
    requires Wf(st) && 0 < st.histCount
    requires forall k :: 0 <= k < AvgCount(st.histCount, window) ==>
               loX <= Contents(st)[k].x <= hiX && loY <= Contents(st)[k].y <= hiY
    ensures loX <= MovingAverage(st, window, rx, ry).0 <= hiX
    ensures loY <= MovingAverage(st, window, rx, ry).1 <= hiY
  {
    var n := AvgCount(st.histCount, window);
    var newest := Contents(st)[..n];
    MeanBounds(Xs(newest), loX, hiX);
    MeanBounds(Ys(newest), loY, hiY);
  }

  // ---------------------------------------------------------------------
  // Gaussian-weighted average

  /** The running sums of gaussian_smooth: weighted x, y, pressure and the total weight. */
  datatype Sums = Sums(x: real, y: real, p: real, w: real)

  /** Add a point with weight w to the running sums. */
  function AddPoint(acc: Sums, w: real, pt: Point): Sums
  {
    Sums(acc.x + w * pt.x, acc.y + w * pt.y, acc.p + w * pt.pressure, acc.w + w)
  }

  /** The early exit of gaussian_smooth: a weight below 0.1% of the total gathered so far. */
  predicate Negligible(w: real, total: real)
  {
    0.0 < total && w / total < 0.001
  }

  /**
   * The loop of gaussian_smooth from the i-th newest point on: add the
   * point's distance to the cumulative distance, weigh it, and stop early
   * once a weight falls below 0.1% of the weight gathered so far.
   */
  function GaussianAcc(pts: seq<Point>, i: nat, cum: real, acc: Sums, sigma: real,
                       weight: (real, real) -> real): Sums
    requires i <= |pts|
    decreases |pts| - i
  {
    if i == |pts| then acc
    else
      var cum' := cum + pts[i].distance;
      var w := weight(sigma, cum');
      if 0 < i && Negligible(w, acc.w) then acc
      else
        GaussianAcc(pts, i + 1, cum', AddPoint(acc, w, pts[i]), sigma, weight)
  }

  /** The early exit of the walk: a negligible weight for point i ends it with the sums gathered so far. */
  lemma GaussianAccStop(pts: seq<Point>, i: nat, cum: real, acc: Sums, sigma: real,
                        weight: (real, real) -> real, cumNext: real, w: real)
    requires 0 < i < |pts| && cumNext == cum + pts[i].distance && w == weight(sigma, cumNext)
    requires Negligible(w, acc.w)
    ensures GaussianAcc(pts, i, cum, acc, sigma, weight) == acc
  {
  }

  /** One step of the walk: point p, the i-th, is added with weight w unless that weight is negligible. */
  lemma GaussianAccAdd(pts: seq<Point>, i: nat, cum: real, acc: Sums,
                       sigma: real, weight: (real, real) -> real, cumNext: real, w: real, p: Point)
    requires i < |pts| && p == pts[i] && cumNext == cum + p.distance && w == weight(sigma, cumNext)
    requires !(0 < i && Negligible(w, acc.w))
    ensures GaussianAcc(pts, i, cum, acc, sigma, weight)
            == GaussianAcc(pts, i + 1, cumNext, AddPoint(acc, w, p), sigma, weight)
  {
    assert weight(sigma, cum + pts[i].distance) == w;
  }

  /** gaussian_smooth: the weighted mean, or the raw sample when sigma or the history is too small or no weight was gathered. */
  function GaussianSmooth(st: FilterState, c: Config, rx: real, ry: real, rp: real,
                          weight: (real, real) -> real): (r: (real, real, real))
    requires Wf(st)
    ensures c.gaussianSigma <= 0.0 || st.histCount < 2 ==> r == (rx, ry, rp)
    ensures !c.pressureSmoothing ==> r.2 == rp
  {
    if c.gaussianSigma <= 0.0 || st.histCount < 2 then (rx, ry, rp)
    else
      var s := GaussianAcc(Contents(st), 0, 0.0, Sums(0.0, 0.0, 0.0, 0.0), c.gaussianSigma, weight);
      if 0.0 < s.w then (s.x / s.w, s.y / s.w, if c.pressureSmoothing then s.p / s.w else rp)
      else (rx, ry, rp)
  }

  /** Weighted sums whose weighted mean would lie inside the box. */
  predicate InBox(acc: Sums, loX: real, hiX: real, loY: real, hiY: real)
  {
    0.0 <= acc.w && loX * acc.w <= acc.x <= hiX * acc.w && loY * acc.w <= acc.y <= hiY * acc.w
  }

  lemma AddWeighted(sum: real, sw: real, w: real, v: real, lo: real, hi: real)
    requires 0.0 <= w && lo <= v <= hi
    requires lo * sw <= sum <= hi * sw
    ensures lo * (sw + w) <= sum + w * v <= hi * (sw + w)
  {
    ScaleLeq(lo, v, w);
    ScaleLeq(v, hi, w);
    assert lo * (sw + w) == lo * sw + lo * w;
    assert hi * (sw + w) == hi * sw + hi * w;
  }

  lemma AddPointInBox(acc: Sums, w: real, pt: Point, loX: real, hiX: real, loY: real, hiY: real)
    requires InBox(acc, loX, hiX, loY, hiY) && 0.0 <= w
    requires loX <= pt.x <= hiX && loY <= pt.y <= hiY
    ensures InBox(AddPoint(acc, w, pt), loX, hiX, loY, hiY)
  {
    AddWeighted(acc.x, acc.w, w, pt.x, loX, hiX);
    AddWeighted(acc.y, acc.w, w, pt.y, loY, hiY);
  }

  lemma {:induction false} GaussianAccInBox(pts: seq<Point>, i: nat, cum: real, acc: Sums, sigma: real,
                                            weight: (real, real) -> real,
                                            loX: real, hiX: real, loY: real, hiY: real)
    requires i <= |pts|
    requires forall d :: 0.0 <= weight(sigma, d)
    requires forall k :: i <= k < |pts| ==> loX <= pts[k].x <= hiX && loY <= pts[k].y <= hiY
    requires InBox(acc, loX, hiX, loY, hiY)
    ensures InBox(GaussianAcc(pts, i, cum, acc, sigma, weight), loX, hiX, loY, hiY)
    decreases |pts| - i
  {
    if i < |pts| {
      var w := weight(sigma, cum + pts[i].distance);
      if !(0 < i && Negligible(w, acc.w)) {
        AddPointInBox(acc, w, pts[i], loX, hiX, loY, hiY);
        GaussianAccInBox(pts, i + 1, cum + pts[i].distance, AddPoint(acc, w, pts[i]), sigma, weight,
                         loX, hiX, loY, hiY);
      }
    }
  }

  /**
   * With non-negative weights the Gaussian average lies inside every box
   * that holds the raw point and the points in the ring.
   */
  lemma GaussianSmoothInBox(st: FilterState, c: Config, rx: real, ry: real, rp: real,
                            weight: (real, real) -> real, loX: real, hiX: real, loY: real, hiY: real)
    requires Wf(st)
    requires forall d :: 0.0 <= weight(c.gaussianSigma, d)
    requires loX <= rx <= hiX && loY <= ry <= hiY
    requires forall k :: 0 <= k < st.histCount ==>
               loX <= Contents(st)[k].x <= hiX && loY <= Contents(st)[k].y <= hiY
    ensures loX <= GaussianSmooth(st, c, rx, ry, rp, weight).0 <= hiX
    ensures loY <= GaussianSmooth(st, c, rx, ry, rp, weight).1 <= hiY
  {
    if !(c.gaussianSigma <= 0.0 || st.histCount < 2) {
      var zero := Sums(0.0, 0.0, 0.0, 0.0);
      GaussianAccInBox(Contents(st), 0, 0.0, zero, c.gaussianSigma, weight, loX, hiX, loY, hiY);
      var s := GaussianAcc(Contents(st), 0, 0.0, zero, c.gaussianSigma, weight);
      if 0.0 < s.w {
        DivideBounds(s.x, s.w, loX, hiX);
        DivideBounds(s.y, s.w, loY, hiY);
      }
    }
  }

  // ---------------------------------------------------------------------
  // String pull

  /**
   * string_pull_filter: seed the anchor at the raw point on the first call
   * of a stroke; when the raw point is farther than L from the anchor, pull
   * the anchor toward it by the excess; output the anchor.
   */
  function StringPull(a: PullState, rx: real, ry: real, L: real, sqrt: real -> real): (r: Moved<PullState>)
    requires 0.0 <= L
    ensures r.st.init && r.x == r.st.x && r.y == r.st.y
  {
    var seeded := if a.init then a else PullState(rx, ry, true);
    var dist := Dist(sqrt, seeded.x, seeded.y, rx, ry);
    var pulled :=
      if dist > L then
        var p := Toward(seeded.x, seeded.y, rx, ry, (dist - L) / dist);
        seeded.(x := p.0, y := p.1)
      else seeded;
    Moved(pulled, pulled.x, pulled.y)
  }

  /** The point the fraction t of the way from (ax, ay) to (rx, ry). */
  function Toward(ax: real, ay: real, rx: real, ry: real, t: real): (real, real)
  {
    (ax + (rx - ax) * t, ay + (ry - ay) * t)
  }

  /** The first call of a stroke outputs the raw point. */
  lemma StringPullSeeds(a: PullState, rx: real, ry: real, L: real, sqrt: real -> real)
    requires 0.0 <= L && IsSqrt(sqrt) && !a.init
    ensures StringPull(a, rx, ry, L, sqrt) == Moved(PullState(rx, ry, true), rx, ry)
  {
    SqrtOfSquare(sqrt, 0.0);
    assert Dist(sqrt, rx, ry, rx, ry) == sqrt(0.0 * 0.0);
  }

  /** Inside the dead zone the anchor does not move. */
  lemma StringPullDeadZone(a: PullState, rx: real, ry: real, L: real, sqrt: real -> real)
    requires 0.0 <= L && a.init
    requires Dist(sqrt, a.x, a.y, rx, ry) <= L
    ensures StringPull(a, rx, ry, L, sqrt) == Moved(a, a.x, a.y)
  {
  }

  /** The algebra of a pull: scaling an offset of length d by 1 - t, where t * d = d - L, leaves length L. */
  lemma PullAlgebra(dx: real, dy: real, d: real, L: real, t: real)
    requires 0.0 < d && d * d == dx * dx + dy * dy && t * d == d - L
    ensures (dx - dx * t) * (dx - dx * t) + (dy - dy * t) * (dy - dy * t) == L * L
  {
    var u := 1.0 - t;
    assert u * d == d - t * d;
    assert u * d == L;
    assert dx - dx * t == u * dx;
    assert dy - dy * t == u * dy;
    assert (u * dx) * (u * dx) + (u * dy) * (u * dy) == (u * u) * (dx * dx + dy * dy);
    assert (u * u) * (d * d) == (u * d) * (u * d);
  }

  /** The squared distance left after moving (ax, ay) the fraction t of the way toward (rx, ry). */
  lemma PullSquare(ax: real, ay: real, rx: real, ry: real, d: real, L: real, t: real)
    requires 0.0 < d && d * d == (rx - ax) * (rx - ax) + (ry - ay) * (ry - ay) && t * d == d - L
    ensures var p := Toward(ax, ay, rx, ry, t);
      (rx - p.0) * (rx - p.0) + (ry - p.1) * (ry - p.1) == L * L
  {
    var dx, dy := rx - ax, ry - ay;
    PullAlgebra(dx, dy, d, L, t);
    var ex, ey := rx - (ax + dx * t), ry - (ay + dy * t);
    assert ex == dx - dx * t && ey == dy - dy * t;
  }

  /** The fraction of the way the anchor is pulled, (d - L) / d, lies in (0,1] when L < d. */
  lemma PullRatio(d: real, L: real)
    requires 0.0 <= L < d
    ensures var t := (d - L) / d; 0.0 < t <= 1.0 && t * d == d - L
  {
    var t := (d - L) / d;
    assert t * d == d - L;
    DivideBounds(d - L, d, 0.0, 1.0);
    assert 0.0 < t;
  }

  /** Pulling a point farther than L from (rx, ry) by the excess leaves it exactly L away. */
  lemma PullGeometry(sqrt: real -> real, ax: real, ay: real, rx: real, ry: real, L: real)
    requires IsSqrt(sqrt) && 0.0 <= L < Dist(sqrt, ax, ay, rx, ry)
    ensures var d := Dist(sqrt, ax, ay, rx, ry);
      var p := Toward(ax, ay, rx, ry, (d - L) / d);
      Dist(sqrt, p.0, p.1, rx, ry) == L
  {
    var d := Dist(sqrt, ax, ay, rx, ry);
    DistSquared(sqrt, ax, ay, rx, ry);
    PullRatio(d, L);
    var p := Toward(ax, ay, rx, ry, (d - L) / d);
    PullSquare(ax, ay, rx, ry, d, L, (d - L) / d);
    DistIs(sqrt, p.0, p.1, rx, ry, L);
  }

  /**
   * Outside the dead zone the anchor moves toward the raw point by the
   * fraction t = (dist - L) / dist of the way, with t in (0,1], which ends
   * exactly L from it.
   */
  lemma StringPullTaut(a: PullState, rx: real, ry: real, L: real, sqrt: real -> real)
    requires 0.0 <= L && IsSqrt(sqrt) && a.init
    requires L < Dist(sqrt, a.x, a.y, rx, ry)
    ensures var r, d := StringPull(a, rx, ry, L, sqrt), Dist(sqrt, a.x, a.y, rx, ry);
      var t := (d - L) / d;
      && 0.0 < t <= 1.0
      && (r.x, r.y) == Toward(a.x, a.y, rx, ry, t)
      && Dist(sqrt, r.x, r.y, rx, ry) == L
  {
    PullRatio(Dist(sqrt, a.x, a.y, rx, ry), L);
    PullGeometry(sqrt, a.x, a.y, rx, ry, L);
  }

  /** After every call the output is within the string length of the raw point. */
  lemma StringPullBounded(a: PullState, rx: real, ry: real, L: real, sqrt: real -> real)
    requires 0.0 <= L && IsSqrt(sqrt)
    ensures var r := StringPull(a, rx, ry, L, sqrt);
      Dist(sqrt, r.x, r.y, rx, ry) <= L
  {
    if !a.init {
      StringPullSeeds(a, rx, ry, L, sqrt);
      SqrtOfSquare(sqrt, 0.0);
      assert Dist(sqrt, rx, ry, rx, ry) == sqrt(0.0 * 0.0);
    } else if L < Dist(sqrt, a.x, a.y, rx, ry) {
      StringPullTaut(a, rx, ry, L, sqrt);
    }
  }

  /**
   * A sample run: with L = 550 and the anchor at the origin, a jump to (1000, 0) moves the output to (450, 0), and a
   * further sample at (1000, 0) leaves it there.
   */
  lemma StringPullExample(a: PullState, sqrt: real -> real)
    requires IsSqrt(sqrt) && a.init && a.x == 0.0 && a.y == 0.0
    ensures var r := StringPull(a, 1000.0, 0.0, 550.0, sqrt);
      r.x == 450.0 && r.y == 0.0 && StringPull(r.st, 1000.0, 0.0, 550.0, sqrt) == r
  {
    SqrtOfSquare(sqrt, 1000.0);
    assert Dist(sqrt, 0.0, 0.0, 1000.0, 0.0) == sqrt(1000.0 * 1000.0);
    var r := StringPull(a, 1000.0, 0.0, 550.0, sqrt);
    assert r.x == 450.0;
    SqrtOfSquare(sqrt, 550.0);
    assert Dist(sqrt, 450.0, 0.0, 1000.0, 0.0) == sqrt(550.0 * 550.0);
  }

  // ---------------------------------------------------------------------
  // One-euro filter

  /** oe_lowpass: exponential smoothing with factor a. */
  function Lowpass(x: real, prev: real, a: real): real
  {
    a * x + (1.0 - a) * prev
  }

  /** With a factor in [0,1] the smoothed value lies between the previous estimate and the new sample. */
  lemma LowpassBetween(x: real, prev: real, a: real)
    requires 0.0 <= a <= 1.0
    ensures prev <= x ==> prev <= Lowpass(x, prev, a) <= x
    ensures x <= prev ==> x <= Lowpass(x, prev, a) <= prev
  {
    var m := a * (x - prev);
    assert Lowpass(x, prev, a) == prev + m;
    if prev <= x {
      ScaleBetween(a, x - prev);
    } else {
      var n := a * (prev - x);
      assert m == -n;
      ScaleBetween(a, prev - x);
    }
  }

  lemma ScaleBetween(a: real, v: real)
    requires 0.0 <= a <= 1.0 && 0.0 <= v
    ensures 0.0 <= a * v <= v
  {
    ScaleLeq(0.0, a, v);
    ScaleLeq(a, 1.0, v);
  }

  /** The time step of one_euro_filter: the elapsed time, or 2 ms when it is not positive. */
  function TimeStep(last: real, ts: real): (dt: real)
    ensures 0.0 < dt
    ensures ts - last <= 0.0 ==> dt == 0.002
    ensures 0.0 < ts - last ==> dt == ts - last
  {
    var elapsed := ts - last;
    if elapsed <= 0.0 then 0.002 else elapsed
  }

  /** The smoothed velocity of one_euro_filter over the step dt, on both axes. */
  function Velocity(e: EuroState, c: Config, rx: real, ry: real, dt: real, num: Numerics): (real, real)
    requires 0.0 < dt
  {
    var ad := num.oeAlpha(c.oneEuroDCutoff, dt);
    (Lowpass((rx - e.x) / dt, e.dx, ad), Lowpass((ry - e.y) / dt, e.dy, ad))
  }

  /** The position cutoff of one_euro_filter: it grows by beta with the speed. */
  function Cutoff(c: Config, speed: real): real
  {
    c.oneEuroMinCutoff + c.oneEuroBeta * speed
  }

  /** The position smoothing factor for the velocity v. */
  function PositionAlpha(c: Config, v: (real, real), dt: real, num: Numerics): real
  {
    num.oeAlpha(Cutoff(c, Norm(num.sqrt, v.0, v.1)), dt)
  }

  /**
   * one_euro_filter: the first call of a stroke seeds the estimates and
   * outputs the raw point; later calls smooth the velocity with the fixed
   * derivative cutoff and the position with a cutoff that grows with speed.
   */
  function OneEuro(e: EuroState, c: Config, rx: real, ry: real, ts: real, num: Numerics): (r: Moved<EuroState>)
    ensures r.st.init && r.st.lastTime == ts && r.x == r.st.x && r.y == r.st.y
    ensures !e.init ==> r.x == rx && r.y == ry && r.st.dx == 0.0 && r.st.dy == 0.0
  {
    if !e.init then
      Moved(EuroState(rx, ry, 0.0, 0.0, ts, true), rx, ry)
    else
      var dt := TimeStep(e.lastTime, ts);
      var v := Velocity(e, c, rx, ry, dt, num);
      var a := PositionAlpha(c, v, dt, num);
      var x := Lowpass(rx, e.x, a);
      var y := Lowpass(ry, e.y, a);
      Moved(e.(x := x, y := y, dx := v.0, dy := v.1, lastTime := ts), x, y)
  }

  /**
   * With a positive minimum cutoff and a non-negative beta, the position
   * cutoff is positive whatever the speed, so (as oe_alpha is in [0,1] for
   * positive cutoffs and steps) the output of a running stroke lies between
   * the previous estimate and the raw sample, on each axis.
   */
  lemma OneEuroBetween(e: EuroState, c: Config, rx: real, ry: real, ts: real, num: Numerics)
    requires e.init && IsSqrt(num.sqrt)
    requires 0.0 < c.oneEuroMinCutoff && 0.0 <= c.oneEuroBeta
    requires forall cutoff, dt :: 0.0 < cutoff && 0.0 < dt ==> 0.0 <= num.oeAlpha(cutoff, dt) <= 1.0
    ensures var r := OneEuro(e, c, rx, ry, ts, num);
      && (e.x <= rx ==> e.x <= r.x <= rx) && (rx <= e.x ==> rx <= r.x <= e.x)
      && (e.y <= ry ==> e.y <= r.y <= ry) && (ry <= e.y ==> ry <= r.y <= e.y)
  {
    var dt := TimeStep(e.lastTime, ts);
    var v := Velocity(e, c, rx, ry, dt, num);
    var speed := Norm(num.sqrt, v.0, v.1);
    DistNonNeg(num.sqrt, 0.0, 0.0, v.0, v.1);
    assert speed == Dist(num.sqrt, 0.0, 0.0, v.0, v.1);
    ScaleLeq(0.0, c.oneEuroBeta, speed);
    assert 0.0 < Cutoff(c, speed);
    var a := PositionAlpha(c, v, dt, num);
    LowpassBetween(rx, e.x, a);
    LowpassBetween(ry, e.y, a);
  }

  // ---------------------------------------------------------------------
  // Dispatch

  /**
   * apply_filter: run the configured algorithm. Pressure passes through
   * unless the Gaussian average smooths it. Only the anchor and the
   * one-euro estimates can change.
   */
  function Filter(c: Config, st: FilterState, rx: real, ry: real, rp: real, ts: real, num: Numerics): (r: Filtered)
    requires Wf(st) && 0.0 <= c.stringLength
    ensures r.st.(pull := st.pull, euro := st.euro) == st
    ensures Wf(r.st)
    ensures c.algorithm == Off ==> r == Filtered(st, rx, ry, rp)
    ensures c.algorithm != GaussianAvg || !c.pressureSmoothing ==> r.p == rp
  {
    match c.algorithm
    case MovingAvg =>
      var m := MovingAverage(st, c.movingAvgWindow, rx, ry);
      Filtered(st, m.0, m.1, rp)
    case GaussianAvg =>
      var g := GaussianSmooth(st, c, rx, ry, rp, num.gaussWeight);
      Filtered(st, g.0, g.1, g.2)
    case StringPull =>
      var m := StringPull(st.pull, rx, ry, c.stringLength, num.sqrt);
      Filtered(st.(pull := m.st), m.x, m.y, rp)
    case OneEuro =>
      var m := OneEuro(st.euro, c, rx, ry, ts, num);
      Filtered(st.(euro := m.st), m.x, m.y, rp)
    case Off =>
      Filtered(st, rx, ry, rp)
  }

  /**
   * After a reset, the first report of the new stroke comes out exactly as
   * it went in, whatever the algorithm.
   */
  lemma FirstSampleAfterReset(c: Config, st: FilterState, rx: real, ry: real, rp: real,
                              tiltX: real, tiltY: real, ts: real, num: Numerics)
    requires Wf(st) && 0.0 <= c.stringLength && IsSqrt(num.sqrt)
    ensures var f := Filter(c, Pushed(Cleared(st), rx, ry, rp, tiltX, tiltY, num.sqrt), rx, ry, rp, ts, num);
      f.x == rx && f.y == ry
  {
    var restarted := Pushed(Cleared(st), rx, ry, rp, tiltX, tiltY, num.sqrt);
    PushedContents(Cleared(st), rx, ry, rp, tiltX, tiltY, num.sqrt);
    assert restarted.histCount == 1;
    match c.algorithm {
      case MovingAvg =>
        var newest := Contents(restarted)[..1];
        assert Xs(newest) == [rx] && Ys(newest) == [ry];
        assert Sum([rx]) == Sum([]) + rx;
        assert Sum([ry]) == Sum([]) + ry;
      case GaussianAvg =>
      case StringPull =>
        StringPullSeeds(restarted.pull, rx, ry, c.stringLength, num.sqrt);
      case OneEuro =>
      case Off =>
    }
  }
}
