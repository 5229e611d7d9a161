/** Measure mode: take a fixed number of samples, failing fast on the first
    poll error, then report their extrema. */
module Sampler {
  import opened Device
  import Stats

  /** How many samples a single measurement takes. */
  const MEASUREMENT_SAMPLE_COUNT: nat := 10

  /** `get_samples`: poll the device `count` times and collect the readings in
      poll order. The `?` on a poll returns its error at once: no further poll
      is made and the samples gathered so far are dropped. `polled` is the
      number of polls issued. */
  method GetSamples(device: nat -> Poll, count: nat) returns (result: Result<seq<nat>>, polled: nat)
    ensures polled <= count
    ensures result.Ok? <==> polled == count && AllOk(device, count)
    ensures result.Ok? ==> result.value == OkValues(device, count)
    ensures result.Err? ==>
      0 < polled && AllOk(device, polled - 1) && device(polled - 1) == Err(result.error)
  {
    var samples: seq<nat> := [];
    polled := 0;
    while polled < count
      invariant polled <= count
      invariant AllOk(device, polled)
      invariant samples == OkValues(device, polled)
    {
      var poll := device(polled);
      polled := polled + 1;
      if poll.Err? {
        return Err(poll.error), polled;
      }
      OkValuesSnoc(device, polled - 1);
      samples := samples + [poll.value];
    }
    result := Ok(samples);
  }

  /** What `print_stats` reports besides the floating-point mean and deviation. */
  datatype Summary = Summary(samples: seq<nat>, min: nat, max: nat)

  /** The measure command: collect `MEASUREMENT_SAMPLE_COUNT` samples, then
      summarise them. Because the count is positive, the `expect` calls in
      `print_stats` cannot fail. */
  method Measure(device: nat -> Poll) returns (result: Result<Summary>, polled: nat)
    ensures result.Ok? <==> AllOk(device, MEASUREMENT_SAMPLE_COUNT)
    ensures result.Ok? ==> polled == MEASUREMENT_SAMPLE_COUNT
    ensures result.Ok? ==>
      var s := OkValues(device, MEASUREMENT_SAMPLE_COUNT);
      result.value == Summary(s, Stats.Min(s), Stats.Max(s))
    ensures result.Err? ==>
      0 < polled <= MEASUREMENT_SAMPLE_COUNT && AllOk(device, polled - 1) &&
      device(polled - 1) == Err(result.error)
  {
    var samples;
    samples, polled := GetSamples(device, MEASUREMENT_SAMPLE_COUNT);
    if samples.Err? {
      return Err(samples.error), polled;
    }
    var s := samples.value;
    result := Ok(Summary(s, Stats.Min(s), Stats.Max(s)));
  }
}
