# rmpp-stabilizer core, modelled in Dafny

`src/stabilizer.cpp` is an `LD_PRELOAD` shim. It sits between the
pen digitizer of a tablet (an evdev device) and the drawing application.
When the application opens the pen device, the shim loads a small
configuration: an algorithm and a `strength` dial, from which it derives
the tunables. On every `read` of that device, the shim does the
following to the batch of `input_event` records the kernel returned:

- it collects the X, Y, pressure and tilt axes as they arrive;
- at each `EV_SYN/SYN_REPORT` that follows new X or Y data, it pushes
  the raw sample into a 64-slot history ring and runs the configured
  smoothing filter (moving average, Gaussian-weighted average, string
  pull, or one-euro);
- it writes the rounded output back into the X and Y records of the
  batch, and into the pressure records when pressure smoothing is on;
- it resets the stroke state when the pressure drops below 50 or the pen
  leaves proximity.

The project models that core in six modules:

- `Evdev` (`evdev.dfy`): the `input_event` record, the event codes, and
  the `(int)` conversions used for the write-back.
- `Settings` (`settings.dfy`): `struct Config`, `derive_params`, and
  `load_config` as a left fold over the file's already-split
  `key=value` pairs. A loop method is proved equal to that fold.
- `History` (`history.dfy`): `struct FilterState` as a value, the ring
  buffer as a newest-first sequence, and `history_push` /
  `history_clear` as functions on the state.
- `Filters` (`filters.dfy`): the four smoothing algorithms and the
  `apply_filter` dispatch, as functions. Lemmas state what each
  algorithm promises: the mean stays within the range of its inputs,
  string pull has a dead zone and pulls the anchor to exactly the string
  length, and so on.
- `Stream` (`stream.dfy`): one iteration of the loop of `read` as a
  function `Step` on the state and the buffer, and the loop as a fold
  `Run`. Lemmas give the invariants of the rewrite.
- `Interceptor` (`interceptor.dfy`): the class `Stabilizer` holds the
  shim's globals:
  - `g_config`, `g_pen_fd` and `g_active`;
  - the fields of `g_state`, with the history ring as a 64-element
    array.

  Its methods update the fields in place, as the C functions do. Each
  method is proved to leave exactly the state, outputs and buffer that
  the value-level functions describe.

Floating-point values are modelled as mathematical reals. The
transcendental functions are parameters, bundled in the record
`Filters.Numerics`:

- `sqrt`;
- the Gaussian kernel `exp(-d*d/(2*sigma*sigma)) / (sqrt(2*pi)*sigma)`;
- `oe_alpha`.

A lemma that needs `sqrt` to be a square root requires
`History.IsSqrt(sqrt)`.

## Model

| member | source | states |
|---|---|---|
| Evdev.Trunc | src/stabilizer.cpp:113 | C's `(int)` on a double truncates toward zero: the result is within one unit below a non-negative argument and within one unit above a negative one |
| Evdev.ToValue | src/stabilizer.cpp:489-494 | `(int)(f + 0.5)` is the nearest integer from -0.5 upwards (halves round up); below -0.5 it is up to one unit above f |
| Settings.DeriveParams | src/stabilizer.cpp:111-118 | only the five derived tunables change; the window is 4 plus `28*strength` truncated; for strength in [0,1] the window is in [4,32], sigma in [50,500], string length in [100,1000], min cutoff in [0.2,1.5], beta in [0.001,0.011] |
| Settings.DeriveParamsMonotone | src/stabilizer.cpp:111-118 | a larger strength never gives a smaller window, sigma or string length, nor a larger min cutoff |
| Settings.DeriveParamsExamples | src/stabilizer.cpp:111-118 | strength 0.5 gives string length 550 and window 18; strength 0 gives 100 and 4; strength 1 gives 1000 and 32 |
| Settings.DeriveParamsIdempotent | src/stabilizer.cpp:111-118 | the tunables depend on strength alone, so deriving twice equals deriving once |
| Settings.ClampStrength | src/stabilizer.cpp:142-145 | the result lies in [0,1]; values in [0,1] are kept; values below 0 give 0 and values above 1 give 1 |
| Settings.AlgorithmNamed | src/stabilizer.cpp:135-141 | a recognised name maps to the algorithm spelled that way; any other value maps to no algorithm |
| Settings.AlgorithmNameRoundTrip | src/stabilizer.cpp:135-141 | every algorithm's configuration spelling maps back to that algorithm |
| Settings.ApplyPair | src/stabilizer.cpp:134-152 | a line changes only the field its key names: a recognised algorithm name selects that algorithm, `strength` sets the clamped `atof` value (in [0,1]), each smoothing flag becomes whether the value is exactly `true`; an unknown key or an unknown algorithm name changes nothing |
| Settings.ApplyPairs | src/stabilizer.cpp:132-154 | the fold over the lines changes only the four configurable fields, and keeps a valid configuration valid |
| Settings.UnknownKeysIgnored | src/stabilizer.cpp:134-152 | a file with no known key leaves the configuration unchanged |
| Settings.LastStrengthWins | src/stabilizer.cpp:142-145 | the strength is the clamped value of the last `strength=` line |
| Settings.NoStrengthKeepsStrength | src/stabilizer.cpp:142-145 | with no `strength=` line, the strength is unchanged |
| Settings.LastAlgorithmWins | src/stabilizer.cpp:135-141 | the algorithm is the one named by the last `algorithm=` line with a recognised name; later unrecognised names do not undo it |
| Settings.NoAlgorithmKeepsAlgorithm | src/stabilizer.cpp:135-141 | with no `algorithm=` line naming a known algorithm, the algorithm is unchanged |
| Settings.Loaded | src/stabilizer.cpp:120-160 | the tunables of the loaded configuration are those derived from its final strength; without a file, strength and algorithm are unchanged |
| Settings.LoadConfig | src/stabilizer.cpp:120-160 | the loop over the lines computes `Loaded`; from a strength in [0,1], the result has window in [4,32] and string length in [100,1000] |
| History.Contents | src/stabilizer.cpp:75-79 | the ring as a newest-first sequence of `hist_count` points, starting at `hist_head` |
| History.Pushed | src/stabilizer.cpp:166-186 | a push changes only the ring, the head and the count, and keeps the ring well formed |
| History.PushedContents | src/stabilizer.cpp:166-186 | after a push the new point is the newest, and the older points follow in order; the oldest is dropped once all 64 slots are in use; its distance is 0 on an empty ring, else the distance from the previous newest point (never negative) |
| History.Cleared | src/stabilizer.cpp:188-196 | count and head become 0; the string, one-euro and previous-output flags and `has_x`/`has_y` drop; the anchor position and the raw axis values carry forward |
| History.ClearedEmpty | src/stabilizer.cpp:188-196 | after a clear the ring holds no points |
| Filters.AvgCount | src/stabilizer.cpp:341-345 | the number averaged is exactly the window (raised to 1 if smaller) or the ring's count, whichever is smaller; it is positive whenever the ring is non-empty |
| Filters.MovingAverageExample | src/stabilizer.cpp:338-356 | with window 4 and raw x inputs 0, 10, 20, 30, 40, the fifth output's x is 25, the mean of the four newest |
| Filters.MovingAverage | src/stabilizer.cpp:338-356 | on an empty ring the output is the raw position |
| Filters.MovingAverageInBox | src/stabilizer.cpp:338-356 | the output lies in every box that holds the averaged newest points, so it is between their minimum and maximum |
| Filters.GaussianAccStop | src/stabilizer.cpp:229-230 | the walk ends with the sums gathered so far once a later point's weight is below 0.1% of the total |
| Filters.GaussianSmooth | src/stabilizer.cpp:205-247 | with sigma not positive or fewer than two points, the raw sample passes through; without pressure smoothing, pressure passes through |
| Filters.GaussianSmoothInBox | src/stabilizer.cpp:205-247 | with non-negative weights, the output lies in every box holding the raw point and the ring's points |
| Filters.StringPull | src/stabilizer.cpp:257-282 | the anchor is seeded after the call, and the output is the anchor |
| Filters.StringPullSeeds | src/stabilizer.cpp:262-266 | the first call of a stroke seeds the anchor at the raw point and outputs it |
| Filters.StringPullDeadZone | src/stabilizer.cpp:273-279 | within distance L of the anchor, the anchor stays put |
| Filters.StringPullTaut | src/stabilizer.cpp:273-278 | beyond L, the anchor moves toward the raw point by the fraction (dist-L)/dist, which is in (0,1], and ends exactly L away from it |
| Filters.StringPullBounded | src/stabilizer.cpp:257-282 | after every call the output is within L of the raw point |
| Filters.StringPullExample | src/stabilizer.cpp:257-282 | with L = 550 and the anchor at the origin, a jump to (1000,0) outputs (450,0), and a repeated (1000,0) leaves it there |
| Filters.LowpassBetween | src/stabilizer.cpp:295-297 | with a factor in [0,1], `oe_lowpass` lies between the previous estimate and the new sample |
| Filters.TimeStep | src/stabilizer.cpp:313-314 | the step is the elapsed time when positive, and 0.002 otherwise |
| Filters.OneEuro | src/stabilizer.cpp:299-332 | the estimates are seeded and stamped with the timestamp; the first call of a stroke outputs the raw point with zero velocity |
| Filters.OneEuroBetween | src/stabilizer.cpp:299-332 | for a running stroke with a positive minimum cutoff and a non-negative beta (which `DeriveParams` gives for strength in [0,1]), and `oe_alpha` in [0,1] for positive cutoffs and steps, each output coordinate lies between the previous estimate and the raw sample |
| Filters.Filter | src/stabilizer.cpp:362-385 | only the anchor and the one-euro estimates can change; `off` passes everything through; pressure passes through unless the Gaussian average smooths it |
| Filters.FirstSampleAfterReset | src/stabilizer.cpp:362-385 | after a history clear, the first pushed sample comes out unchanged, whatever the algorithm |
| Stream.Accumulate | src/stabilizer.cpp:450-458 | an `EV_ABS` record sets the raw value of its axis; X and Y also raise their flag; other records change nothing |
| Stream.Rewrite | src/stabilizer.cpp:487-494 | the record keeps its timestamp, type and code; X gets the written x, Y the written y, pressure the written p only with pressure smoothing; other records are unchanged |
| Stream.WriteBack | src/stabilizer.cpp:485-496 | every X and Y record at or before the report gets the new value (there is no early exit), pressure records too with pressure smoothing; later records and non-rewritable records are untouched; headers never change |
| Stream.FilterReport | src/stabilizer.cpp:464-474 | with filtering off, the output is the raw position |
| Stream.Settled | src/stabilizer.cpp:498-499 | the X and Y flags are dropped and nothing else changes |
| Stream.Report | src/stabilizer.cpp:461-500 | after a report both flags are down; a report without new X or Y data changes nothing else |
| Stream.LiftCheck | src/stabilizer.cpp:502-511 | a pressure below 50 or a pen release clears the stroke state; any other record leaves it alone |
| Stream.Step | src/stabilizer.cpp:447-512 | the record count is kept; after a report both flags are down |
| Stream.Run | src/stabilizer.cpp:447-512 | the record count is kept and the ring stays well formed |
| Stream.StepKeepsShape | src/stabilizer.cpp:447-512 | one iteration changes values only in rewritable records, keeps every header, and leaves later records alone |
| Stream.RunKeepsShape | src/stabilizer.cpp:447-512 | the whole loop keeps every record's timestamp, type and code, changes only X, Y (and, with pressure smoothing, pressure) values, and never touches records from n on |
| Stream.StepAtReport | src/stabilizer.cpp:461-500 | at a report after new X or Y data, the raw sample becomes the newest history point, the buffer gets the rounded filter output written back, and the flags drop |
| Stream.StepHoverReport | src/stabilizer.cpp:461-500 | a report without new X or Y data leaves state and buffer unchanged |
| Stream.StepNonReport | src/stabilizer.cpp:447-512 | a record that is not a report never changes the buffer |
| Stream.StepLift | src/stabilizer.cpp:502-511 | a low pressure or a pen release empties the ring and drops the anchor, the one-euro state and the flags; the raw X and Y carry forward, and a low pressure reading is recorded first |
| Stream.RunWithoutReports | src/stabilizer.cpp:447-512 | a stretch of records without reports leaves the buffer exactly as it was |
| Interceptor.WriteBackFiltered | src/stabilizer.cpp:485-496 | the backward loop from record i to record 0 leaves the buffer equal to `WriteBack` of the old buffer with the rounded outputs |
| Interceptor.Stabilizer.constructor | src/stabilizer.cpp:62-104 | the initial globals are the default configuration, no pen descriptor, inactive, and the zeroed filter state |
| Interceptor.Stabilizer.Attach | src/stabilizer.cpp:424-429 | opening the pen device records its descriptor, activates the shim and reloads the configuration; anything else changes nothing |
| Interceptor.Stabilizer.HistoryPush | src/stabilizer.cpp:166-186 | the array, head and count afterwards are exactly `Pushed` of the old state |
| Interceptor.Stabilizer.HistoryClear | src/stabilizer.cpp:188-196 | the state afterwards is exactly `Cleared` of the old state |
| Interceptor.Stabilizer.MovingAvgFilter | src/stabilizer.cpp:338-356 | the output is `MovingAverage` of the current ring |
| Interceptor.Stabilizer.WindowSums | src/stabilizer.cpp:348-353 | walking back from the head, the loop sums the x and y of the n newest points |
| Interceptor.Stabilizer.GaussianSmoothFilter | src/stabilizer.cpp:205-247 | the output is `GaussianSmooth` of the current ring |
| Interceptor.Stabilizer.WeightedSums | src/stabilizer.cpp:220-240 | the loop, with its early exit, gathers exactly the sums of the weighted walk `GaussianAcc` |
| Interceptor.Stabilizer.StringPullFilter | src/stabilizer.cpp:257-282 | the anchor and the output are those of `StringPull` from the old anchor |
| Interceptor.Stabilizer.OneEuroFilter | src/stabilizer.cpp:299-332 | the estimates and the output are those of `OneEuro` from the old estimates |
| Interceptor.Stabilizer.ApplyFilter | src/stabilizer.cpp:362-385 | the state and the outputs are those of `Filter` |
| Interceptor.Stabilizer.Read | src/stabilizer.cpp:435-515 | returns `ret`; when bypassed, buffer and state are unchanged; otherwise state and buffer are `Run` over the `ret / 24` whole records; every record keeps its header, only rewritable values change, and records past the whole ones are untouched |
| Interceptor.Stabilizer.ProcessRecords | src/stabilizer.cpp:447-512 | the loop over the first n records leaves state and buffer equal to `Run` |
| Interceptor.Stabilizer.ProcessEvent | src/stabilizer.cpp:447-512 | one loop iteration leaves state and buffer equal to `Step` |
| Interceptor.Stabilizer.AccumulateEvent | src/stabilizer.cpp:450-458 | the raw fields afterwards are `Accumulate` of the old ones |
| Interceptor.Stabilizer.ReportEvent | src/stabilizer.cpp:461-500 | state and buffer afterwards are `Report` of the old ones |
| Interceptor.Stabilizer.LiftCheckEvent | src/stabilizer.cpp:502-511 | the state afterwards is `LiftCheck` of the old state |

## Behaviour of the code worth noting

- **Window size.** The window is `4 + (int)(strength * 28)`: the product
  is truncated, not rounded (line 113). At strength 0.5 it is 18.
- **Moving average over the newest points.** With window 4 and raw inputs
  0, 10, 20, 30, 40, the fifth output averages the four newest points,
  10, 20, 30 and 40, and is 25 (`Filters.MovingAverageExample`).
- **Write-back.** The write-back loop (lines 485-496) has no early exit.
  At a report, every earlier X and Y record of the batch is overwritten,
  not only the most recent ones (`Stream.WriteBack`).
- **String pull on a still pen.** The comment at line 254 promises zero
  steady-state latency when the pen is stationary. The code never moves
  the anchor while it is within the string length of the pen, so the
  output stays within L of the pen (`Filters.StringPullBounded`,
  `Filters.StringPullDeadZone`) but need not reach it.

## Left out

- The dynamic-linker plumbing is not modelled: `init_hooks`, `dlsym`,
  `real_open`, `real_read` and `is_pen_device` (lines 391-433). `Attach`
  takes the opened descriptor, whether the path is the pen device, and
  the configuration file's contents. `Read` takes the buffer the real
  `read` filled and its byte count.
- File reading is not modelled: `fopen`, `fgets`, `sscanf` and `fclose`
  (lines 124-134, 155). The file is given as the sequence of
  (key, value) pairs of the lines that `sscanf` accepts, or as no file.
- `atof` is a parameter.
- Floating point is modelled as exact real arithmetic, so there is no
  rounding, overflow, infinity or NaN. A `strength=` value that `atof`
  turns into NaN, which the C clamp lets through, is not represented.
- `sqrt`, `exp` and pi, and therefore `oe_alpha` and the Gaussian kernel,
  are parameters (`Filters.Numerics`). Properties that need them are
  proved for any `sqrt` satisfying `History.IsSqrt`, and for weights or
  smoothing factors with the stated signs or ranges.
- The `int` fields and the `ssize_t` byte count are unbounded integers.
  The widths of `input_event` fields are not modelled.
- `Evdev.Seconds`: `tv_usec / 1e6` is exact division.
- The `fprintf` diagnostics and the static `debug_counter` are not
  modelled. They have no effect on the state or the buffer.
- Some state is stored but never read by a filter, so no property is
  stated about it:
  - `tilt_smoothing` and `string_finish`;
  - the tilt values in the history;
  - `prev_x` and `prev_y` (only `prev_init` is reset).
- `Interceptor.Stabilizer.Read`: only whole records are modelled. A
  trailing partial record is left untouched, as `ret / 24` implies, and
  the bytes of the buffer are not modelled.
- The commented groups of `struct FilterState` are held as records in
  the class: the string-pull anchor, the one-euro estimates, the raw
  values and the previous output. A method assigns a whole record where
  the C code assigns single fields. The fields a method may change are
  still exactly those of the groups it touches.
- The loops of `moving_avg_filter` and `gaussian_smooth` are separate
  methods (`WindowSums`, `WeightedSums`), and so are their callers'
  final divisions. The four accumulations of one Gaussian step are the
  helper `AddSample`. The loop body of `read` is split the same way:
  `ProcessEvent`, `AccumulateEvent`, `ReportEvent` and
  `LiftCheckEvent`.
