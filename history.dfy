/**
 * The filter state of the stabilizer as a value, and the ring buffer of
 * recent raw points it holds: `history_push` and `history_clear`.
 */
module History {

  const MAX_HISTORY: nat := 64

  /** A raw point in the history; `distance` is its distance from the previous newest point. */
  datatype Point = Point(x: real, y: real, pressure: real, tiltX: real, tiltY: real, distance: real)

  const Origin: Point := Point(0.0, 0.0, 0.0, 0.0, 0.0, 0.0)

  /** The string-pull anchor and whether it has been seeded in this stroke. */
  datatype PullState = PullState(x: real, y: real, init: bool)

  /** The one-euro estimates: position, velocity, the last timestamp, and whether they are seeded. */
  datatype EuroState = EuroState(x: real, y: real, dx: real, dy: real, lastTime: real, init: bool)

  /**
   * The raw axis values carried between reports, and whether X or Y
   * changed since the last report.
   */
  datatype RawState = RawState(x: int, y: int, pressure: int, tiltX: int, tiltY: int, hasX: bool, hasY: bool)

  /** The previous output; it is declared, and its flag is reset, but no filter reads it. */
  datatype PrevOutput = PrevOutput(x: real, y: real, init: bool)

  /**
   * `struct FilterState`: the ring buffer, then one record for each of the
   * commented groups of fields that follow it in the struct.
   */
  datatype FilterState = FilterState(
    history: seq<Point>, histCount: int, histHead: int,
    pull: PullState, euro: EuroState, raw: RawState, prev: PrevOutput)

  /** The zero-initialised global `g_state`. */
  const InitialState: FilterState :=
    FilterState(seq(MAX_HISTORY, _ => Origin), 0, 0,
                PullState(0.0, 0.0, false),
                EuroState(0.0, 0.0, 0.0, 0.0, 0.0, false),
                RawState(0, 0, 0, 0, 0, false, false),
                PrevOutput(0.0, 0.0, false))

  /** 64 slots, a head slot and a count that never exceeds the capacity. */
  predicate Wf(st: FilterState)
  {
    |st.history| == MAX_HISTORY && 0 <= st.histCount <= MAX_HISTORY && 0 <= st.histHead < MAX_HISTORY
  }

  /** The slot `i` steps back from `head`, wrapping around the ring. */
  function Slot(head: int, i: int): (k: nat)
    ensures k < MAX_HISTORY
    ensures (head - i - k) % MAX_HISTORY == 0
  {
    (head - i) % MAX_HISTORY
  }

  /** Stepping back with `(idx - 1 + MAX_HISTORY) % MAX_HISTORY` moves one slot further back. */
  lemma SlotStep(head: int, i: int)
    ensures (Slot(head, i) - 1 + MAX_HISTORY) % MAX_HISTORY == Slot(head, i + 1)
  {
    var q := (head - i) / MAX_HISTORY;
    assert head - i == q * MAX_HISTORY + Slot(head, i);
    assert Slot(head, i) - 1 + MAX_HISTORY == (head - i - 1) + (1 - q) * MAX_HISTORY;
  }

  /** Seen from the slot after `head`, every slot is one step further back. */
  lemma SlotShift(head: int, i: int)
    ensures Slot((head + 1) % MAX_HISTORY, i + 1) == Slot(head, i)
  {
    var next := (head + 1) % MAX_HISTORY;
    var q := (head + 1) / MAX_HISTORY;
    var r := (head - i) / MAX_HISTORY;
    assert head + 1 == q * MAX_HISTORY + next;
    assert head - i == r * MAX_HISTORY + Slot(head, i);
    assert next - (i + 1) == (r - q) * MAX_HISTORY + Slot(head, i);
  }

  /** Fewer than 64 steps back never revisit a slot. */
  lemma SlotsDistinct(head: int, i: int, j: int)
    requires 0 <= i < j < MAX_HISTORY
    ensures Slot(head, i) != Slot(head, j)
  {
    var qi, qj := (head - i) / MAX_HISTORY, (head - j) / MAX_HISTORY;
    assert head - i == qi * MAX_HISTORY + Slot(head, i);
    assert head - j == qj * MAX_HISTORY + Slot(head, j);
    assert Slot(head, i) - Slot(head, j) == (j - i) - (qi - qj) * MAX_HISTORY;
  }

  /** The points in the ring, newest first. */
  function Contents(st: FilterState): (s: seq<Point>)
    requires Wf(st)
    ensures |s| == st.histCount
    ensures 0 < |s| ==> s[0] == st.history[st.histHead]
  {
    seq(st.histCount, i requires 0 <= i < st.histCount => st.history[Slot(st.histHead, i)])
  }

  /** Entry i of the contents is the slot i steps back from the head. */
  lemma ContentsAt(st: FilterState, i: int)
    requires Wf(st) && 0 <= i < st.histCount
    ensures Contents(st)[i] == st.history[Slot(st.histHead, i)]
  {
  }

  /** `sqrt` returns the non-negative square root of every non-negative number. */
  ghost predicate IsSqrt(sqrt: real -> real)
  {
    forall v :: 0.0 <= v ==> 0.0 <= sqrt(v) && sqrt(v) * sqrt(v) == v
  }

  /** The length of the offset (dx, dy), through the given square root. */
  function Norm(sqrt: real -> real, dx: real, dy: real): real
  {
    sqrt(dx * dx + dy * dy)
  }

  /** The Euclidean distance between two points. */
  function Dist(sqrt: real -> real, ax: real, ay: real, px: real, py: real): real
  {
    Norm(sqrt, px - ax, py - ay)
  }

  lemma SquareNonNeg(d: real)
    ensures 0.0 <= d * d
  {
    if d < 0.0 {
      var e := -d;
      assert d * d == e * e;
    }
  }

  lemma SquareLess(a: real, b: real)
    requires 0.0 <= a < b
    ensures a * a < b * b
  {
    var ab := a * b;
    assert a * a <= ab;
    assert ab < b * b;
  }

  /** Two non-negative numbers with the same square are equal. */
  lemma SquareInjective(a: real, b: real)
    requires 0.0 <= a && 0.0 <= b && a * a == b * b
    ensures a == b
  {
    if a < b {
      SquareLess(a, b);
    } else if b < a {
      SquareLess(b, a);
    }
  }

  /** The square root of a square is the number itself, for non-negative numbers. */
  lemma SqrtOfSquare(sqrt: real -> real, v: real)
    requires IsSqrt(sqrt) && 0.0 <= v
    ensures sqrt(v * v) == v
  {
    SquareNonNeg(v);
    SquareInjective(sqrt(v * v), v);
  }

  lemma DistNonNeg(sqrt: real -> real, ax: real, ay: real, px: real, py: real)
    requires IsSqrt(sqrt)
    ensures 0.0 <= Dist(sqrt, ax, ay, px, py)
  {
    SquareNonNeg(px - ax);
    SquareNonNeg(py - ay);
  }

  /** The square of a distance is the sum of the squared offsets. */
  lemma DistSquared(sqrt: real -> real, ax: real, ay: real, px: real, py: real)
    requires IsSqrt(sqrt)
    ensures var d := Dist(sqrt, ax, ay, px, py);
      0.0 <= d && d * d == (px - ax) * (px - ax) + (py - ay) * (py - ay)
  {
    SquareNonNeg(px - ax);
    SquareNonNeg(py - ay);
  }

  /** A distance whose squared offsets sum to L * L is L. */
  lemma DistIs(sqrt: real -> real, ax: real, ay: real, px: real, py: real, L: real)
    requires IsSqrt(sqrt) && 0.0 <= L
    requires (px - ax) * (px - ax) + (py - ay) * (py - ay) == L * L
    ensures Dist(sqrt, ax, ay, px, py) == L
  {
    SqrtOfSquare(sqrt, L);
  }

  /**
   * history_push: store the point in the slot after the head, with its
   * distance from the previous newest point (0 when the ring was empty),
   * make that slot the head and count it, up to the capacity.
   */
  function Pushed(st: FilterState, x: real, y: real, pressure: real, tiltX: real, tiltY: real,
                  sqrt: real -> real): (r: FilterState)
    requires Wf(st)
    ensures Wf(r)
    ensures r.(history := st.history, histCount := st.histCount, histHead := st.histHead) == st
  {
    var idx := (st.histHead + 1) % MAX_HISTORY;
    var distance :=
      if st.histCount > 0 then
        var prev := st.history[st.histHead];
        Dist(sqrt, prev.x, prev.y, x, y)
      else 0.0;
    st.(history := st.history[idx := Point(x, y, pressure, tiltX, tiltY, distance)],
        histHead := idx,
        histCount := if st.histCount < MAX_HISTORY then st.histCount + 1 else st.histCount)
  }

  /**
   * Seen as a newest-first sequence, a push puts the new point in front and
   * drops the oldest point once all 64 slots are in use.
   */
  lemma PushedContents(st: FilterState, x: real, y: real, pressure: real, tiltX: real, tiltY: real,
                       sqrt: real -> real)
    requires Wf(st)
    ensures var s, before := Contents(Pushed(st, x, y, pressure, tiltX, tiltY, sqrt)), Contents(st);
      && |s| == (if |before| < MAX_HISTORY then |before| + 1 else MAX_HISTORY)
      && s[0].x == x && s[0].y == y && s[0].pressure == pressure && s[0].tiltX == tiltX && s[0].tiltY == tiltY
      && (|before| == 0 ==> s[0].distance == 0.0)
      && (0 < |before| ==> s[0].distance == Dist(sqrt, before[0].x, before[0].y, x, y))
      && (IsSqrt(sqrt) ==> 0.0 <= s[0].distance)
      && forall k :: 1 <= k < |s| ==> s[k] == before[k - 1]
  {
    var r := Pushed(st, x, y, pressure, tiltX, tiltY, sqrt);
    var s, before := Contents(r), Contents(st);
    var idx := r.histHead;
    assert idx == Slot(st.histHead, -1);
    forall k | 1 <= k < |s|
      ensures s[k] == before[k - 1]
    {
      SlotShift(st.histHead, k - 1);
      SlotsDistinct(idx, 0, k);
      assert Slot(idx, 0) == idx;
    }
    if IsSqrt(sqrt) && 0 < |before| {
      DistNonNeg(sqrt, before[0].x, before[0].y, x, y);
    }
  }

  /**
   * history_clear: empty the ring, forget the anchor, the one-euro state and
   * the pending X/Y flags. The raw axis values are carried forward.
   */
  function Cleared(st: FilterState): (r: FilterState)
    ensures Wf(st) ==> Wf(r)
    ensures r.histCount == 0 && r.histHead == 0 && r.history == st.history
    ensures !r.pull.init && !r.euro.init && !r.prev.init && !r.raw.hasX && !r.raw.hasY
    ensures r.pull.x == st.pull.x && r.pull.y == st.pull.y
    ensures r.raw.(hasX := st.raw.hasX, hasY := st.raw.hasY) == st.raw
  {
    st.(histCount := 0, histHead := 0,
        pull := st.pull.(init := false),
        euro := st.euro.(init := false),
        raw := st.raw.(hasX := false, hasY := false),
        prev := st.prev.(init := false))
  }

  /** After a clear the ring holds no points. */
  lemma ClearedEmpty(st: FilterState)
    requires Wf(st)
    ensures Contents(Cleared(st)) == []
  {
  }
}
