/** Monitor mode: the sliding window the live chart is drawn from, updated in
    place once per poll, and the loop that drives it. */
module Monitor {
  import opened Device
  import opened Window

  /** The chart's width in points: the window's capacity. */
  const PLOT_WIDTH: nat := 100

  /** The `samples` vector of `monitor`. `history` is the ghost record of the
      readings appended so far, oldest first. */
  class LiveWindow {
    const capacity: nat
    var points: seq<Point>
    ghost var history: seq<nat>

    /** The window always holds the closed form of the readings seen. */
    ghost predicate Valid()
      reads this
    {
      capacity > 0 && points == WindowOf(history, capacity)
    }

    /** An empty window (`Vec::new()`). */
    constructor (capacity: nat)
      requires capacity > 0
      ensures Valid() && this.capacity == capacity
      ensures points == [] && history == []
    {
      this.capacity := capacity;
      points := [];
      history := [];
    }

    /** The `iter_mut` loop: every point's offset decreases by one. */
    method Age()
      modifies this`points
      ensures points == Shifted(old(points))
    {
      ghost var before := points;
      var i := 0;
      while i < |points|
        invariant 0 <= i <= |points| == |before|
        invariant forall k :: 0 <= k < i ==> points[k] == Point(before[k].x - 1, before[k].y)
        invariant forall k :: i <= k < |points| ==> points[k] == before[k]
      {
        points := points[i := Point(points[i].x - 1, points[i].y)];
        i := i + 1;
      }
    }

    /** Remove the point at index 0 when the window is full, so that the
        window is below capacity before the new point is pushed. */
    method EvictIfFull()
      requires capacity > 0 && |points| <= capacity
      modifies this`points
      ensures points == Evicted(old(points), capacity)
      ensures |points| < capacity
    {
      if |points| == capacity {
        points := points[1..];
      }
    }

    /** Append the new reading at offset 0. */
    method Push(reading: nat)
      modifies this`points
      ensures points == old(points) + [Point(0, reading)]
    {
      points := points + [Point(0, reading)];
    }

    /** One loop iteration: age, evict, poll, append. A failed poll is
        returned as the error and leaves the aged, possibly evicted window
        behind; the caller abandons it. */
    method Tick(poll: Poll) returns (outcome: TickOutcome)
      requires Valid()
      modifies this
      ensures outcome.PollFailed? <==> poll.Err?
      ensures outcome.PollFailed? ==> outcome.error == poll.error
      ensures poll.Ok? ==>
        && Valid()
        && history == old(history) + [poll.value]
        && points == Step(old(points), capacity, poll.value)
      ensures poll.Err? ==>
        && history == old(history)
        && points == Evicted(Shifted(old(points)), capacity)
    {
      WindowShape(history, capacity);
      Age();
      EvictIfFull();
      if poll.Err? {
        return PollFailed(poll.error);
      }
      Push(poll.value);
      StepWindowOf(history, capacity, poll.value);
      history := history + [poll.value];
      outcome := Polled;
    }
  }

  /** How one iteration went: the poll succeeded, or it failed with an error. */
  datatype TickOutcome = Polled | PollFailed(error: DeviceError)

  /** How the monitor loop ended: the caller stopped driving it, or a poll
      failed and its error was propagated. */
  datatype Exit = Interrupted | Failed(error: DeviceError)

  /** `monitor`, driven for at most `ticks` iterations (the source loops until a
      poll fails or the process is interrupted). Returns how the loop ended,
      the number of polls issued, and the window handed to the chart after
      each successful poll: after the k-th reading it is the closed form of
      the first k readings. */
  method Run(device: nat -> Poll, capacity: nat, ticks: nat)
    returns (exit: Exit, polled: nat, frames: seq<seq<Point>>)
    requires capacity > 0
    ensures polled <= ticks
    ensures exit.Interrupted? <==> polled == ticks && AllOk(device, ticks)
    ensures exit.Interrupted? ==> |frames| == polled
    ensures exit.Failed? ==>
      0 < polled && AllOk(device, polled - 1) && device(polled - 1) == Err(exit.error) &&
      |frames| == polled - 1
    ensures FramesOf(device, capacity, frames)
  {
    var window := new LiveWindow(capacity);
    polled, frames := 0, [];
    while polled < ticks
      invariant polled <= ticks
      invariant window.Valid() && window.capacity == capacity
      invariant AllOk(device, polled)
      invariant window.history == OkValues(device, polled)
      invariant |frames| == polled && FramesOf(device, capacity, frames)
    {
      var outcome := window.Tick(device(polled));
      polled := polled + 1;
      if outcome.PollFailed? {
        return Failed(outcome.error), polled, frames;
      }
      OkValuesSnoc(device, polled - 1);
      FramesExtend(device, capacity, frames);
      frames := frames + [window.points];
    }
    exit := Interrupted;
  }

  /** The frames drawn so far are the windows of the successive prefixes of
      the readings. */
  predicate FramesOf(device: nat -> Poll, capacity: nat, frames: seq<seq<Point>>) {
    && AllOk(device, |frames|)
    && forall k :: 0 <= k < |frames| ==> frames[k] == WindowOf(OkValues(device, k + 1), capacity)
  }

  /** Drawing the window of one more successful poll extends the frames. */
  lemma FramesExtend(device: nat -> Poll, capacity: nat, frames: seq<seq<Point>>)
    requires FramesOf(device, capacity, frames) && device(|frames|).Ok?
    ensures FramesOf(device, capacity, frames + [WindowOf(OkValues(device, |frames| + 1), capacity)])
  {
  }

  /** A frame the chart can draw as intended: at most PLOT_WIDTH points, in
      order of offset, all inside the x-domain `[-PLOT_WIDTH, 0]`, the last
      one being the reading just printed as the current power, at offset 0. */
  predicate ChartReady(frame: seq<Point>, current: nat) {
    && 0 < |frame| <= PLOT_WIDTH
    && Ascending(frame)
    && (forall i :: 0 <= i < |frame| ==> -(PLOT_WIDTH as int) <= frame[i].x <= 0)
    && frame[|frame| - 1] == Point(0, current)
  }

  /** The monitor as shipped: a window of PLOT_WIDTH points. It keeps every
      guarantee of `Run`, and each frame it draws is one the chart can show
      as intended. */
  method Monitor(device: nat -> Poll, ticks: nat)
    returns (exit: Exit, polled: nat, frames: seq<seq<Point>>)
    ensures polled <= ticks
    ensures exit.Interrupted? <==> polled == ticks && AllOk(device, ticks)
    ensures exit.Interrupted? ==> |frames| == polled
    ensures exit.Failed? ==>
      0 < polled && AllOk(device, polled - 1) && device(polled - 1) == Err(exit.error) &&
      |frames| == polled - 1
    ensures FramesOf(device, PLOT_WIDTH, frames)
    ensures forall k :: 0 <= k < |frames| ==> ChartReady(frames[k], device(k).value)
  {
    exit, polled, frames := Run(device, PLOT_WIDTH, ticks);
    forall k | 0 <= k < |frames|
      ensures ChartReady(frames[k], device(k).value)
    {
      WindowShape(OkValues(device, k + 1), PLOT_WIDTH);
    }
  }
}
