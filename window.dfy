/** The live monitor's sliding window as values: the points a chart is drawn
    from, one step of the update discipline, and the closed form of the window
    after any number of successful polls. */
module Window {

  /** One plotted point: `x` is the time offset in polling intervals (0 is the
      latest poll, negative is older), `y` the reading in watts. */
  datatype Point = Point(x: int, y: nat)

  /** The readings of a window, oldest first. */
  function Readings(w: seq<Point>): (ys: seq<nat>)
    ensures |ys| == |w|
    ensures forall i :: 0 <= i < |w| ==> ys[i] == w[i].y
  {
    seq(|w|, i requires 0 <= i < |w| => w[i].y)
  }

  /** Strictly increasing time offsets: the window is ordered oldest first. */
  predicate Ascending(w: seq<Point>) {
    forall i, j :: 0 <= i < j < |w| ==> w[i].x < w[j].x
  }

  /** Every point aged by one interval: x decreases by 1, y is kept. */
  function Shifted(w: seq<Point>): (r: seq<Point>)
    ensures |r| == |w|
    ensures forall i :: 0 <= i < |w| ==> r[i] == Point(w[i].x - 1, w[i].y)
  {
    if w == [] then [] else [Point(w[0].x - 1, w[0].y)] + Shifted(w[1..])
  }

  /** The window with the point at index 0 dropped if it holds `capacity`
      points. */
  function Evicted(w: seq<Point>, capacity: nat): seq<Point> {
    if |w| == capacity && capacity > 0 then w[1..] else w
  }

  /** One iteration of the monitor loop after a successful poll: age every
      point, drop the point at index 0 if the window is full, append the new
      reading at offset 0. The eviction happens before the push, so a window
      within its capacity stays within it. */
  function Step(w: seq<Point>, capacity: nat, reading: nat): (w': seq<Point>)
    requires capacity > 0
    ensures |w'| == if |w| == capacity then capacity else |w| + 1
    ensures |w| <= capacity ==> |w'| == (if |w| + 1 < capacity then |w| + 1 else capacity)
    ensures w'[|w'| - 1] == Point(0, reading)
    ensures var evicted := if |w| == capacity then 1 else 0;
      forall i :: 0 <= i < |w'| - 1 ==> w'[i] == Point(w[i + evicted].x - 1, w[i + evicted].y)
  {
    var aged := Shifted(w);
    (if |aged| == capacity then aged[1..] else aged) + [Point(0, reading)]
  }

  /** The window after the readings `readings` (oldest first), starting from the
      empty window: the last `n` readings, `n` bounded by the capacity, at
      offsets `-(n-1), ..., -1, 0`. */
  function WindowOf(readings: seq<nat>, capacity: nat): (w: seq<Point>) {
    var n := if |readings| < capacity then |readings| else capacity;
    seq(n, i requires 0 <= i < n => Point(i - (n - 1), readings[|readings| - n + i]))
  }

  /** The window the monitor loop holds after feeding it `readings`, one
      `Step` per reading, starting from the empty window. */
  function Replay(capacity: nat, readings: seq<nat>): (w: seq<Point>)
    requires capacity > 0
    decreases |readings|
  {
    if readings == [] then []
    else Step(Replay(capacity, readings[..|readings| - 1]), capacity, readings[|readings| - 1])
  }

  /** What the chart is drawn from: at most `capacity` points, ordered by
      strictly increasing offset, the newest at offset 0, all inside the
      chart's x-domain `[-capacity, 0]`, carrying the latest readings in
      order. */
  lemma WindowShape(readings: seq<nat>, capacity: nat)
    ensures var w := WindowOf(readings, capacity);
      && |w| == (if |readings| < capacity then |readings| else capacity)
      && |w| <= capacity
      && Ascending(w)
      && (|w| > 0 ==> w[|w| - 1] == Point(0, readings[|readings| - 1]))
      && (forall i :: 0 <= i < |w| ==> -(capacity as int) < w[i].x <= 0)
      && Readings(w) == readings[|readings| - |w|..]
  {
  }

  /** One step maps the window of `readings` to the window of `readings`
      followed by the new reading. */
  lemma StepWindowOf(readings: seq<nat>, capacity: nat, reading: nat)
    requires capacity > 0
    ensures Step(WindowOf(readings, capacity), capacity, reading) == WindowOf(readings + [reading], capacity)
  {
    var w := WindowOf(readings, capacity);
    var longer := readings + [reading];
    var a, b := Step(w, capacity, reading), WindowOf(longer, capacity);
    assert |a| == |b|;
    forall i | 0 <= i < |a|
      ensures a[i] == b[i]
    {
      if i < |a| - 1 {
        var evicted := if |w| == capacity then 1 else 0;
        assert longer[|longer| - |b| + i] == readings[|readings| - |w| + i + evicted];
      }
    }
  }

  /** Starting from the empty window, the loop's windows are exactly the
      closed form. */
  lemma {:induction false} ReplayIsWindow(capacity: nat, readings: seq<nat>)
    requires capacity > 0
    ensures Replay(capacity, readings) == WindowOf(readings, capacity)
    decreases |readings|
  {
    if readings != [] {
      var front := readings[..|readings| - 1];
      ReplayIsWindow(capacity, front);
      StepWindowOf(front, capacity, readings[|readings| - 1]);
      assert front + [readings[|readings| - 1]] == readings;
    }
  }

  /** Once the live window is full, the point a step evicts is the one at
      index 0: the oldest, with the smallest offset, holding the oldest reading
      still shown. Every other point survives, aged by one interval and in the
      same order. */
  lemma EvictsOldest(readings: seq<nat>, capacity: nat, reading: nat)
    requires capacity > 0 && |readings| >= capacity
    ensures var w := WindowOf(readings, capacity);
      && |w| == capacity
      && (forall i :: 0 < i < |w| ==> w[0].x < w[i].x)
      && w[0] == Point(1 - capacity, readings[|readings| - capacity])
      && Step(w, capacity, reading)[..capacity - 1] == Shifted(w[1..])
  {
  }

  /** A step that does not find the window full keeps every point, aged. */
  lemma KeepsAllWhenNotFull(w: seq<Point>, capacity: nat, reading: nat)
    requires capacity > 0 && |w| != capacity
    ensures Step(w, capacity, reading) == Shifted(w) + [Point(0, reading)]
  {
  }

  /** With capacity 3 and polls 5, 6, 7, 8 the window ends as
      (-2, 6), (-1, 7), (0, 8). */
  lemma MonitorExample()
    ensures Replay(3, [5, 6, 7, 8]) == [Point(-2, 6), Point(-1, 7), Point(0, 8)]
  {
    ReplayIsWindow(3, [5, 6, 7, 8]);
  }
}
