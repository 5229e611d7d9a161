# tapo-power-monitor, modelled in Dafny

A model of the core of `tapo-power-monitor`, a command-line tool that polls a
Tapo P115 smart plug for its current power draw. It has two modes:

- **measure** takes `MEASUREMENT_SAMPLE_COUNT` (10) samples and fails fast on
  the first poll error. It then reports the minimum and maximum, along with
  statistics not modelled here.
- **monitor** keeps a sliding window of at most `PLOT_WIDTH` (100) points
  `(offset, watts)` and redraws a terminal chart from it after every poll. On
  each iteration it ages every point by one interval, evicts index 0 if the
  window is full, polls, and appends the new reading at offset 0.

The device is modelled as a total function `device: nat -> Poll`: the j-th
poll the program issues returns `device(j)`, which is either `Ok(watts)` or
`Err(error)`. Polls are counted, so "no further polls after a failure" can be
observed.

Files, one module each:

- `device.dfy` (`Device`): poll outcomes, `AllOk` and `OkValues`.
- `stats.dfy` (`Stats`): the extrema reported by `print_stats`.
- `sampler.dfy` (`Sampler`): `get_samples` as a loop, and the measure command.
- `window.dfy` (`Window`): the sliding window as values. It has one update step
  (`Step`), the closed form after any number of readings (`WindowOf`), the
  step-by-step replay (`Replay`), and the lemmas that connect them.
- `monitor.dfy` (`Monitor`): the window as a class whose `points` sequence is
  updated in place, the per-iteration `Tick`, and the monitor loop.

The class invariant `LiveWindow.Valid()` says the window equals
`WindowOf(history, capacity)`. In words: with `n = min(readings, capacity)`,
the window holds the last `n` readings at offsets `-(n-1), …, -1, 0`. It holds
after construction and after every successful `Tick`. A failed `Tick` has
already aged the window, and possibly evicted its oldest point, before it sees
the error. It leaves that window behind for `Run` to discard, and `Valid()` is
not promised then.

`Device.OkValues` is the reference definition of "the readings of the first n
polls, in poll order". `GetSamples`, `Measure`, `Run` and `Monitor` are proved
against it.

## Model

| member | source | states |
|---|---|---|
| `Device.OkValues` | src/main.rs:50-51 | reference definition, not an operation: the readings of the first n polls when all succeed, n values with the j-th being poll j's reading; the sampler and the monitor are proved against it |
| `Stats.Max` | src/main.rs:62 | the maximum of a non-empty sample sequence is one of its elements and no element exceeds it |
| `Stats.Min` | src/main.rs:63 | the minimum of a non-empty sample sequence is one of its elements and no element is below it |
| `Stats.Bracketed` | src/main.rs:61-63 | every sample s satisfies min <= s <= max, so min <= max |
| `Stats.OrderIrrelevant` | src/main.rs:62-63 | samples that are a permutation of each other have the same min and max |
| `Stats.MeasureExample` | src/main.rs:62-63 | the readings 100, 110, 90, 105, 95, 100, 100, 110, 90, 100 give min 90 and max 110 |
| `Sampler.GetSamples` | src/main.rs:41-59 | if all `count` polls succeed, the result is their readings in poll order, after exactly `count` polls; if poll j is the first failure, the result is its error, after exactly j+1 polls, with no partial samples |
| `Sampler.Measure` | src/main.rs:30-34 | measure succeeds exactly when the 10 polls all succeed; it then makes exactly 10 polls and reports those readings with their min and max; otherwise it propagates the first poll error |
| `Window.Shifted` | src/main.rs:90-92 | aging keeps the length and order; every point's x drops by exactly 1 and its y is unchanged |
| `Window.Step` | src/main.rs:89-99 | after one step the length is len+1, or capacity if the window was full, so min(len+1, capacity) for a bounded window; the last point is (0, reading); every surviving older point has x decreased by 1, y unchanged and order kept; only index 0 is evicted, and only when len == capacity |
| `Window.WindowShape` | src/main.rs:87-103 | the window after any readings has min(k, capacity) points and strictly ascending offsets; the newest point is (0, last reading); every offset lies in the chart domain [-capacity, 0]; the y-values are the last readings in order |
| `Window.StepWindowOf` | src/main.rs:89-99 | one step maps the closed-form window of some readings to the closed-form window of those readings plus the new one |
| `Window.ReplayIsWindow` | src/main.rs:87-99 | starting from the empty vector, k steps give exactly [(i-(n-1), r[k-n+i]) for 0 <= i < n], where n = min(k, capacity) |
| `Window.EvictsOldest` | src/main.rs:93-95 | once the live window is full, it has exactly capacity points; the point at index 0 is the oldest, with the smallest offset 1-capacity and the oldest reading still shown; a step evicts exactly that point, and the rest survive, aged and in order |
| `Window.KeepsAllWhenNotFull` | src/main.rs:90-99 | a step on a window that is not full evicts nothing: it returns the aged window plus (0, reading) |
| `Window.MonitorExample` | src/main.rs:87-99 | with capacity 3 and polls 5, 6, 7, 8 the window is (-2,6), (-1,7), (0,8) |
| `Monitor.LiveWindow.constructor` | src/main.rs:87 | the window starts empty with no readings seen, and the invariant holds |
| `Monitor.LiveWindow.Age` | src/main.rs:90-92 | the in-place loop leaves the points equal to the aged old points |
| `Monitor.LiveWindow.EvictIfFull` | src/main.rs:93-95 | on a window within capacity, the first point is removed exactly when the length equals capacity and nothing else changes; afterwards the window is below capacity, so the push cannot exceed it |
| `Monitor.LiveWindow.Push` | src/main.rs:99 | (0, reading) is appended at the end |
| `Monitor.LiveWindow.Tick` | src/main.rs:89-99 | after a successful poll the window is `Step` of the old window, the history grows by the reading, and the invariant is kept; a failed poll returns its error, records no reading, and leaves the window aged and, if it was full, with index 0 evicted, for the caller to discard |
| `Monitor.Run` | src/main.rs:81-116 | the loop polls until one fails or the caller stops driving it; a failure at poll j is returned after exactly j+1 polls; the k-th frame drawn is the closed-form window of the first k readings |
| `Monitor.Monitor` | src/main.rs:82-112 | with PLOT_WIDTH = 100, all of `Run`'s guarantees hold: it stops at the first failed poll, after exactly j+1 polls, with that poll's error, or when driving stops; frame k is the closed-form window of the first k readings. In addition, every frame drawn has 1 to 100 points, ascending offsets within [-100, 0], and ends with (0, the reading just printed as current power) |

## Left out

- Timing: tokio async, `sleep(TAPO_TEMPORAL_RESOLUTION)`, the one-second interval and cadence drift. These are time and runtime concerns.
- The `tapo` client (`ApiClient`, `p115`, `get_current_power`): a foreign network client. It is modelled only as the outcome function `device`.
- Credential loading from `TAPO_USERNAME` / `TAPO_PASSWORD`, `clap` argument parsing and connection errors: I/O and a library wrapper.
- The `indicatif` progress bar: cosmetic only.
- Chart rendering through `textplots`, label formatting, `console::Term` cursor control and all `println!` output: UI and foreign libraries. `Monitor.Run` returns the frames handed to the renderer instead.
- The mean, the population variance and the standard deviation in `print_stats`: f32 floating-point arithmetic.
- Monitor.Run: the source loop never ends by itself. The model runs at most `ticks` iterations, and `Interrupted` stands for the caller stopping.
- Monitor.LiveWindow.Tick: the window is modelled as a sequence of `(int, nat)` points, not `(f32, f32)`. The x-values are small integers and exact in f32. The readings are `u64` cast to f32 in the source, which rounds readings above 2^24. That rounding is not modelled.
- Sampler.GetSamples: readings are `nat`, not bounded `u64`.
- Capacity is a parameter that must be positive. The source fixes it at 100; with capacity 0 the `remove(0)` on an empty vector would panic.
