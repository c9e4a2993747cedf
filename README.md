# A Dafny model of the audio-effects engine core

This project models the heart of an offline audio-effects engine: the
feedback delay (the current `Delay` effect and the older `delay` function),
the peaking-EQ biquad, `gain` and `distortion`, and the two effect-chain
grammars that turn tokens such as `delay:mix=0.5:fb=0.3:time=250` into an
effect name and an argument map.

Samples are `real`. The engine's floating-point helpers are parameters:
- the float and integer parses of argument text;
- `10^x` and `tanh`;
- the biquad coefficient design (`powf`, `sin`, `cos`, `PI`);
- the energy test `sqrt(square_sum) / sqrt(size)`, as `rms(squareSum, size)`.

Panics (`unwrap`, `expect`, `panic!`) are an outcome, `Panicked(cause)`. Every
panic in these effects happens before any sample is touched. The delays'
energy-driven tail loops run for at most `fuel` iterations; a loop still
running then ends the effect with the outcome `Unfinished`.

Modules, one per source file, plus shared ones:

- `Wrappers`: `Option` and `Result`.
- `Text`: `str::split`, `trim` and `to_lowercase` on `seq<char>`.
- `Ring`: the `ringbuffer` crate's `AllocRingBuffer` as a bounded FIFO, with
  the stream facts about it:
  - the line holds the last `capacity` values enqueued;
  - its front is the value enqueued `capacity` steps earlier;
  - the running sum of squares.
- `Audio`: the sample buffer, the truncating casts, `clamp` and even-length
  padding.
- `Delay`: `src/effect_modules/delay.rs`.
- `LegacyDelay`: `src/delay.rs`.
- `EqBand`: `src/effect_modules/eqband.rs`.
- `Dynamics`: `src/dynamics.rs`.
- `ParseUtils`: `src/parse_utils.rs`.
- `EffectParser`: `src/effect_parser.rs`.

Each in-place loop is a method over an `AudioBuffer` object, and a
`RingBuffer` object where the source uses one. Each such method is proved
against a specification function:
- the comb filter: `CombOutput` and `Feed`;
- the tails: `FixedTail`, `AutoTail`, `Echoes` and `Drain`;
- the biquad: `Filter`;
- the dynamics: `Amplified` and `Saturated`;
- the parsers: `EffectSpecOf`.

The lemmas then state what the source promises about those functions.

Four behaviours of the code are worth stating plainly:

- **Padding.** The delay pads an odd total length with one `0.0`, so the
  result is even. It does not pad to a multiple of the channel count.
- **Stagnation guard.** The current delay's counter does not count
  consecutive non-decreasing steps. It goes up on a step whose energy did not
  fall, and down (never below zero) on a step whose energy fell. The loop
  stops when the counter reaches the line size.
- **Fixed-tail length (current delay).** The tail length in seconds is
  truncated to an integer before it is multiplied. A tail under one second
  appends nothing.
- **Legacy comb loop.** The older delay reads the line's front again after
  enqueueing. So an input sample hears the value enqueued `size - 1` steps
  earlier, and with zero feedback it hears nothing at all.

## Model

| member | source | states |
|---|---|---|
| Ring.RingBuffer.constructor | src/effect_modules/delay.rs:54 | a new line has the requested positive capacity and holds nothing |
| Ring.RingBuffer.Enqueue | src/effect_modules/delay.rs:60 | enqueue appends, dropping the oldest value when the line is full, and the line stays within its capacity |
| Ring.RingBuffer.SquareSum | src/effect_modules/delay.rs:64 | the energy sum over the line's contents is the sum of their squares, and it is never negative |
| Ring.RingBuffer.Front | src/effect_modules/delay.rs:59 | `front()` is the oldest value, the one the rest of the line follows |
| Ring.RingBuffer.Back | src/effect_modules/delay.rs:96 | `back()` is the newest value, the one that follows the rest of the line |
| Ring.Enqueued | src/effect_modules/delay.rs:60 | an enqueue leaves a non-empty line within capacity |
| Ring.EnqueuedContents | src/effect_modules/delay.rs:60 | an enqueue puts `x` last: it is appended to a line that is not full, and a full line keeps its length and drops its oldest value |
| Ring.LastN | src/effect_modules/delay.rs:54-60 | the window has the capacity's length, or the whole stream when that is shorter |
| Ring.EnqueuedLastN | src/effect_modules/delay.rs:56-61 | a line of capacity `cap` always holds exactly the last `cap` values ever enqueued |
| Ring.LineFront | src/effect_modules/delay.rs:56-59 | after `k` feeds the front of a line seeded with one `0.0` is the value fed `cap` steps earlier, or `0.0` while `k < cap` |
| Ring.NotFullFrontIsZero | src/effect_modules/delay.rs:56 | while the line is not full its front is still the seed `0.0` |
| Ring.SumSquaresNonNegative | src/effect_modules/delay.rs:64 | a sum of squares is never negative |
| Ring.SquareSumAfterEnqueue | src/effect_modules/delay.rs:92-97 | subtracting front² and adding back² around an enqueue gives the new line's sum of squares, full or filling |
| Audio.AudioBuffer.constructor | src/types.rs:4-7 | a buffer holds the given format and samples |
| Audio.TruncToInt | src/effect_modules/delay.rs:68 | a float cast to `i32` truncates toward zero |
| Audio.TruncToNat | src/effect_modules/delay.rs:53 | a float cast to `usize` truncates, and negative values become 0 |
| Audio.Clamp | src/effect_modules/delay.rs:71 | the clamped value lies in [-1, 1], equals the input inside it, and is the nearest bound outside it |
| Audio.PaddedToEven | src/effect_modules/delay.rs:103-105 | the padded length is even; the input is its prefix; at most one `0.0` is added, and only when the length was odd |
| Delay.ValidateArguments | src/effect_modules/delay.rs:17-45 | the decision table: missing `mix`, `fb`, `time` reported in that order, then `fb >= 1` without a tail, then `time < 1`, `mix < 0`, `fb < 0`; Ok exactly when none applies |
| Delay.NearUnityFeedbackAccepted | src/effect_modules/delay.rs:38-44 | feedback in (0.9, 1) without a tail only warns: validation is Ok |
| Delay.RingSize | src/effect_modules/delay.rs:52-53 | the line size is zero exactly when `time / 1000 * sample_rate * channels` is below one |
| Delay.FixedTailLength | src/effect_modules/delay.rs:68 | the fixed tail is `channels * floor(tail) * sample_rate` samples, and none for a negative tail (the loop runs zero times) |
| Delay.SubSecondTailIsEmpty | src/effect_modules/delay.rs:68 | a tail of less than one second appends no samples |
| Delay.Feed | src/effect_modules/delay.rs:58-60 | the fed stream has one value per input sample |
| Delay.FeedAt | src/effect_modules/delay.rs:59-60 | the value enqueued for sample `i` is `s[i] + delayed * fb`, with `delayed` the value enqueued `size` steps earlier (0 for `i < size`) |
| Delay.FeedWithoutFeedback | src/effect_modules/delay.rs:60 | with zero feedback the line carries the input itself |
| Delay.CombOutput | src/effect_modules/delay.rs:58-62 | the comb loop keeps the number of original samples |
| Delay.CombWithoutFeedback | src/effect_modules/delay.rs:58-62 | with zero feedback each sample gains the sample `size` steps back times mix, nothing before index `size` |
| Delay.Rotations | src/effect_modules/delay.rs:69-70 | rotating the line under feedback keeps it non-empty and within capacity |
| Delay.FixedTail | src/effect_modules/delay.rs:67-72 | fixed-tail mode appends exactly the requested count, every sample clamped into [-1, 1] |
| Delay.FixedTailGrows | src/effect_modules/delay.rs:69-71 | each iteration appends the new front times mix, clamped |
| Delay.FullLineUnitFeedback | src/effect_modules/delay.rs:69-70 | under unit feedback a full line only rotates, returning to itself after `size` steps |
| Delay.NextCounter | src/effect_modules/delay.rs:79-83 | the stagnation counter rises when the energy did not fall, and falls (not below zero) when it did |
| Delay.UpdateCounter | src/effect_modules/delay.rs:79-83 | the `if`/`else if` at the top of the loop body computes the stagnation counter update |
| Delay.Rotated | src/effect_modules/delay.rs:92-97 | a bookkeeping step leaves a non-empty line within capacity |
| Delay.AutoTail | src/effect_modules/delay.rs:74-100 | the auto tail appends at most `fuel` samples |
| Delay.AutoTailStep | src/effect_modules/delay.rs:76-99 | an iteration with energy above the threshold and the counter below `size` appends one clamped echo and continues from the rotated line |
| Delay.AutoTailStops | src/effect_modules/delay.rs:76-89 | nothing more is appended once the energy is at or below 0.0001, the fuel is spent or the counter reaches `size`, and the loop reports the first of these that holds |
| Delay.AutoTailExit | src/effect_modules/delay.rs:74-100 | the loop exits only with the energy at or below the threshold, or with the counter exactly at `size` while the energy is above it; the counter never passes `size` |
| Delay.BookkeptStep | src/effect_modules/delay.rs:92-97 | one rotation (subtract front², enqueue front times feedback, add back²) keeps `square_sum` equal to the sum of squares of the line, in either delay |
| Delay.InitialBookkept | src/effect_modules/delay.rs:56-64 | the line after the comb loop starts the tail with `square_sum` its sum of squares and, while not full, the seed `0.0` at its front |
| Delay.AutoTailKeepsSum | src/effect_modules/delay.rs:64-100 | when the loop ends, the incremental `square_sum` is still the sum of squares of the line |
| Delay.AutoTailBounded | src/effect_modules/delay.rs:99 | every auto-tail sample lies in [-1, 1] |
| Delay.AutoTailFollowsRotations | src/effect_modules/delay.rs:92-99 | from any rotation onwards, the auto tail emits the clamped fronts of the successive rotations |
| Delay.AutoTailIsFixedTail | src/effect_modules/delay.rs:67-100 | the two tail modes emit the same stream; the auto tail is the fixed tail of its own length |
| Delay.DelayOutput | src/effect_modules/delay.rs:58-105 | the result has an even length and is at least as long as the input |
| Delay.DelayOutputShape | src/effect_modules/delay.rs:47-105 | the result is even in length and starts with the comb output; every appended sample lies in [-1, 1]; fixed-tail mode adds exactly the tail count, auto mode at most `fuel` samples (each plus padding); the auto loop's running sum is still the sum of squares of the line when it stops |
| Delay.CombLineUpdate | src/effect_modules/delay.rs:59-60 | one comb step returns the front read before the enqueue and advances the line along the fed stream |
| Delay.CombPass | src/effect_modules/delay.rs:58-62 | the in-place loop turns the samples into the comb output and leaves the last `size` fed values in the line |
| Delay.FixedTailPass | src/effect_modules/delay.rs:69-72 | the fixed-tail loop appends exactly the fixed tail of the line |
| Delay.RotateLine | src/effect_modules/delay.rs:92-99 | one auto-tail step rotates the line, keeps the running sum, and yields the clamped sample |
| Delay.AutoTailPass | src/effect_modules/delay.rs:74-100 | the `while` loop, with counter and previous energy, appends exactly the auto tail and reports why it stopped |
| Delay.ApplyEffect | src/effect_modules/delay.rs:47-107 | a missing `mix`, `fb` or `time` (in that order) or a zero-size line panics with the buffer untouched; every call with the three arguments and a non-empty line is applied (or unfinished exactly when the auto tail runs out of fuel), and the samples become comb output, tail and padding |
| LegacyDelay.Argument | src/delay.rs:6-25 | an argument panics when missing, when a bare flag, or when unparsable; otherwise it is the parsed value |
| LegacyDelay.Checked | src/delay.rs:6-37 | the panics in order: `mix`, `feedback`, `time` (an integer), then feedback >= 1 without a tail, then a zero-size line, each exactly when the earlier checks pass and its own fails; Ok exactly when none applies, with the parsed settings and the line size |
| LegacyDelay.UnboundedFeedbackPanics | src/delay.rs:27-29 | whenever the checks pass without a tail length, the feedback is below 1 |
| LegacyDelay.TailCount | src/delay.rs:50 | the fixed tail is `channels * floor(tail * sample_rate)` samples, and none for a negative tail (the loop runs zero times) |
| LegacyDelay.FractionalTailCounts | src/delay.rs:50 | a sub-second tail covering at least one frame gives at least one sample per channel here, and none in the current delay |
| LegacyDelay.Feed | src/delay.rs:41-44 | the fed stream has one value per input sample |
| LegacyDelay.FeedAt | src/delay.rs:42 | the value enqueued for sample `i` is `(s[i] + front) * feedback`, with `front` the value enqueued `size` steps earlier (0 for `i < size`) |
| LegacyDelay.CombOutput | src/delay.rs:41-44 | the comb loop keeps the number of original samples |
| LegacyDelay.FeedWithoutFeedback | src/delay.rs:42 | with zero feedback every enqueued value is 0 |
| LegacyDelay.CombWithoutFeedback | src/delay.rs:41-44 | with zero feedback the input passes unchanged |
| LegacyDelay.CombDelay | src/delay.rs:42-43 | the first `size - 1` samples pass unchanged; sample `i` after them gains the value fed at `i + 1 - size` times mix |
| LegacyDelay.CombLineUpdate | src/delay.rs:42-43 | one comb step enqueues the fed value and returns the front read after it |
| LegacyDelay.CombPass | src/delay.rs:41-44 | the in-place loop turns the samples into the comb output and leaves the last `size` fed values in the line |
| LegacyDelay.Echoes | src/delay.rs:49-54 | fixed-tail mode appends exactly the requested count |
| LegacyDelay.EchoesGrow | src/delay.rs:51-53 | each iteration appends the new front times mix, unclamped |
| LegacyDelay.FixedTailIsClampedEchoes | src/delay.rs:52-53 | the current delay's fixed tail is this tail with each sample clamped |
| LegacyDelay.Rotated | src/delay.rs:57-60 | a bookkeeping step enqueues the front times feedback and keeps the line non-empty and within capacity |
| LegacyDelay.Drain | src/delay.rs:55-62 | the energy loop appends at most `fuel` samples |
| LegacyDelay.DrainStep | src/delay.rs:56-62 | an iteration with energy above 0.0001 appends one echo and continues from the rotated line |
| LegacyDelay.DrainExit | src/delay.rs:56-62 | without a stagnation guard the loop exits only with the energy at or below the threshold |
| LegacyDelay.DrainKeepsSum | src/delay.rs:46-62 | when the loop ends, the incremental `square_sum` is still the sum of squares of the line |
| LegacyDelay.DrainFollowsRotations | src/delay.rs:57-61 | from any rotation onwards, the energy loop emits the fronts of the successive rotations times mix |
| LegacyDelay.DrainIsEchoes | src/delay.rs:49-62 | the two tail modes emit the same stream; the energy loop emits the fixed tail of its own length |
| LegacyDelay.DelayOutput | src/delay.rs:41-67 | the result has an even length and is at least as long as the input |
| LegacyDelay.DelayOutputShape | src/delay.rs:35-67 | the result is the comb output, then a number of echoes (the tail count, or the at most `fuel` samples the energy loop emits), then padding to an even length; the loop's running sum is still the sum of squares of the line when it stops |
| LegacyDelay.EchoPass | src/delay.rs:51-54 | the fixed-tail loop appends exactly the echoes of the line |
| LegacyDelay.RotateLine | src/delay.rs:57-61 | one energy-loop step rotates the line, keeps the running sum, and yields the sample |
| LegacyDelay.DrainPass | src/delay.rs:55-62 | the `while` loop appends exactly what the energy loop emits and reports why it stopped |
| LegacyDelay.Apply | src/delay.rs:5-68 | any check that fails panics with its cause and leaves the buffer untouched; otherwise the call does not panic, the samples become the delay output for the parsed settings, and it is unfinished exactly when the energy loop runs out of fuel |
| EqBand.ValidateArguments | src/effect_modules/eqband.rs:18-20 | every argument map and tail length is accepted |
| EqBand.Output | src/effect_modules/eqband.rs:47 | with a zero history the output is `b0/a0` times the input, and silence gives silence |
| EqBand.Filter | src/effect_modules/eqband.rs:45-55 | the filtered stream has one output per input sample |
| EqBand.FilterPrefix | src/effect_modules/eqband.rs:45-55 | the filter is causal: filtering a prefix gives the prefix of the output |
| EqBand.FilterAt | src/effect_modules/eqband.rs:47 | output `n` is the difference equation over `x[n]`, `x[n-1]`, `x[n-2]`, `y[n-1]`, `y[n-2]`, all 0 before index 0 |
| EqBand.FilterFirst | src/effect_modules/eqband.rs:40-47 | with the zeroed history the first output is `b0/a0` times the first input |
| EqBand.ChannelsShareHistory | src/effect_modules/eqband.rs:40-55 | one history runs across the interleaved channels: a right sample's output depends on the left one |
| EqBand.FilterSilence | src/effect_modules/eqband.rs:40-54 | silence in gives silence out |
| EqBand.FilterPass | src/effect_modules/eqband.rs:45-55 | the loop that shifts `x1, x2, y1, y2` overwrites each sample in place with the filter's output |
| EqBand.ApplyEffect | src/effect_modules/eqband.rs:22-58 | a missing `freq`, `db` or `q` (in that order) panics with the buffer untouched; otherwise the samples become the filter's output for the designed coefficients |
| Dynamics.ExtractDb | src/dynamics.rs:6-19 | `db` absent, a bare flag, or unparsable each give their own error; otherwise the parsed decibels |
| Dynamics.Factor | src/dynamics.rs:21 | 0 dB is a factor of exactly one (given `10^0 = 1`) |
| Dynamics.Amplified | src/dynamics.rs:23-25 | scaling keeps the number of samples |
| Dynamics.Saturated | src/dynamics.rs:48-50 | saturation keeps the number of samples |
| Dynamics.ZeroDbIsIdentity | src/dynamics.rs:21-24 | a 0 dB gain leaves the samples as they were |
| Dynamics.GainsCompose | src/dynamics.rs:21-25 | two gains in a row equal one gain of the summed decibels |
| Dynamics.SaturatedBounded | src/dynamics.rs:49 | every distorted sample lies strictly inside (-1, 1) |
| Dynamics.SaturatedSilence | src/dynamics.rs:48-50 | distortion keeps silence silent |
| Dynamics.AmplifyPass | src/dynamics.rs:23-25 | the in-place loop multiplies every sample by the one factor |
| Dynamics.SaturatePass | src/dynamics.rs:48-50 | the in-place loop replaces every sample by `tanh(sample * factor)` |
| Dynamics.Gain | src/dynamics.rs:5-28 | every error is returned with the buffer untouched; otherwise every sample is multiplied by `10^(db/20)` |
| Dynamics.Distortion | src/dynamics.rs:30-53 | every error is returned with the buffer untouched; otherwise every sample becomes `tanh(sample * 10^(db/20))` |
| ParseUtils.Insert | src/parse_utils.rs:15-25 | an argument that is empty, not exactly one `key=value` pair, or whose value does not parse is an error; otherwise the normalized key is set to the parsed value |
| ParseUtils.InsertAll | src/parse_utils.rs:14-26 | no segments leave the map as it was; on success the loop only adds or overwrites keys, never removes one |
| ParseUtils.EffectSpecOf | src/parse_utils.rs:5-34 | a blank name is "empty effect name"; a spec's name is the first segment trimmed and lower-cased, never empty |
| ParseUtils.InsertAllOk | src/parse_utils.rs:14-26 | the argument loop succeeds exactly when every segment is well formed |
| ParseUtils.LastWins | src/parse_utils.rs:21-23 | a repeated key keeps its last value |
| ParseUtils.EffectSpecOk | src/parse_utils.rs:5-34 | a token is accepted exactly when its name is not blank and every argument segment is well formed |
| ParseUtils.MalformedSegmentRejected | src/parse_utils.rs:14-24 | an empty segment, a bare flag or `a=b=c` makes the token an error |
| ParseUtils.NoArguments | src/parse_utils.rs:6-14 | a token without `:` gives its normalized name and no arguments |
| ParseUtils.KeyValue | src/parse_utils.rs:19-23 | `key=value` stores the trimmed, lower-cased key with the parsed, trimmed, lower-cased value |
| ParseUtils.ParseEffectSpec | src/parse_utils.rs:5-34 | the loop that builds the map computes the token's spec or its first error |
| ParseUtils.ParseEffects | src/parse_utils.rs:36-45 | success exactly when every token parses, giving one spec per token in order; otherwise the first failing token's error |
| EffectParser.Insert | src/effect_parser.rs:15-24 | an empty segment or one with two or more `=` is an error; no `=` stores a flag (`None`); one `=` stores the normalized value |
| EffectParser.InsertAll | src/effect_parser.rs:14-25 | no segments leave the map as it was; on success the loop only adds or overwrites keys, never removes one |
| EffectParser.EffectSpecOf | src/effect_parser.rs:5-33 | a blank name is "empty effect name"; a spec's name is the first segment trimmed and lower-cased, never empty |
| EffectParser.InsertAllOk | src/effect_parser.rs:14-25 | the argument loop succeeds exactly when every segment is non-empty with at most one `=` |
| EffectParser.LastWins | src/effect_parser.rs:21-22 | a repeated key keeps its last flag or value |
| EffectParser.EffectSpecOk | src/effect_parser.rs:5-33 | a token is accepted exactly when its name is not blank and every argument segment is well formed |
| EffectParser.MalformedSegmentRejected | src/effect_parser.rs:14-23 | an empty segment or one with two or more `=` makes the token an error |
| EffectParser.NoArguments | src/effect_parser.rs:6-14 | a token without `:` gives its normalized name and no arguments |
| EffectParser.BareFlag | src/effect_parser.rs:21 | a segment without `=` maps its normalized key to `None` |
| EffectParser.KeyValue | src/effect_parser.rs:22 | `key=value` maps the normalized key to `Some` of the normalized value text |
| EffectParser.StrictArgumentsAccepted | src/effect_parser.rs:19-24 | argument segments the strict grammar accepts are accepted here too, with the same keys |
| EffectParser.StrictTokenAccepted | src/effect_parser.rs:5-33 | a token the strict grammar accepts is accepted here, with the same name and the same keys |
| EffectParser.ParseEffectSpec | src/effect_parser.rs:5-33 | the loop that builds the map computes the token's spec or its first error |
| EffectParser.ParseEffects | src/effect_parser.rs:35-44 | success exactly when every token parses, giving one spec per token in order; otherwise the first failing token's error |
| Text.Split | src/parse_utils.rs:6 | splitting always gives at least one piece |
| Text.IsWhitespace | src/parse_utils.rs:9 | space, tab, line feed and carriage return are white space; ASCII letters and digits are not |
| Text.SplitJoin | src/parse_utils.rs:6 | splitting loses nothing: rejoining the pieces gives the input back |
| Text.SplitPieces | src/parse_utils.rs:19-20 | there is one piece more than separators, and no piece contains the separator |
| Text.SplitWithoutSeparator | src/parse_utils.rs:19-20 | a string without the separator splits into itself alone |
| Text.SplitOnce | src/parse_utils.rs:19-22 | a string with one separator splits into the parts before and after it |
| Text.Trim | src/parse_utils.rs:9 | trim gives the slice from the first to the last non-whitespace character; it is empty exactly when the input is all whitespace |
| Text.Lower | src/parse_utils.rs:9 | lowercasing keeps the length and maps each character on its own |
| Text.LowerChar | src/parse_utils.rs:9 | a lowered character is never upper case, and other characters are kept |
| Text.Normalize | src/parse_utils.rs:9-10 | the normal form is empty exactly when the input is all whitespace, and has no upper-case letter |
| Text.NormalizeIdempotent | src/parse_utils.rs:9 | normalizing twice is normalizing once |

## Left out

- Floating point: samples and arithmetic are exact reals. The f32/f64 mixing, rounding, NaN and infinities are not modelled. For example, a NaN feedback slips past every comparison in the source.
- Audio.TruncToInt: does not model the saturation of float-to-`i32` casts at the `i32` range.
- Delay.FixedTailLength: the product `channels * tail * sample_rate` is an unbounded integer, so `i32` overflow is not modelled. The same holds for LegacyDelay.TailCount.
- Float parsing (`str::parse::<f32>`, `str::parse::<i32>`), `powf`, `tanh`, `sqrt`, `sin`, `cos` and the biquad coefficient formulas are parameters. Facts about them are not derived from their definitions, and lemmas that need such a fact take it as a precondition (for example `10^0 = 1`, or `tanh` within (-1, 1)).
- EqBand.Filter: the coefficients come from the `design` parameter. Their structure (for example `b1 == a1`) and filter linearity are not modelled.
- Delay.AutoTail: termination of the auto-tail loop is not modelled. It is bounded by a `fuel` count. A loop still running after `fuel` iterations stops there; Delay.ApplyEffect then returns `Unfinished`, with the tail emitted so far.
- LegacyDelay.Drain: termination is not modelled for the same reason, with the same `fuel` bound. LegacyDelay.Apply returns `Unfinished` when it is reached.
- The energy test is the parameter `rms(square_sum, size)`, standing for `sqrt(1/size) * sqrt(square_sum)` in the older delay and `1/sqrt(size) * sqrt(square_sum)` in the current one.
- Text.Lower: lowercases the ASCII letters only. Rust's full Unicode `to_lowercase`, which can change a string's length, is not modelled.
- The `ringbuffer` crate's internals are not part of this model. Only its bounded-FIFO contract is modelled:
  - `new` with a positive capacity;
  - `enqueue`, `front`, `back`;
  - iteration oldest first.

  A zero capacity, which the crate refuses, is the `ZeroCapacityLine` panic.
- The warning `println!`s (near-unity feedback) and the counter's debug print have no effect on samples or results and are left out.
- Delay.ApplyEffect and EqBand.ApplyEffect: the source returns `Ok(())`. This is the `Applied` outcome, and an `unwrap` on a missing argument is a `Panicked` outcome.
- `src/main.rs` (CLI, dispatch, validate-then-apply), `src/decoder.rs` and `src/encoder.rs` (WAV I/O through `hound`) are not part of this model.
- `src/types.rs` holds records only. One `AudioBuffer` class stands for both buffer shapes: `original_spec` with `normalized_samples`, and `spec` with `samples`.
- The strict grammar's `EffectSpec` type (a name and a map to floats) is not part of the shown sources. Its shape is taken from its construction in `src/parse_utils.rs`.
- A float-parse error's message is whatever the `parse` parameter returns. The text of `ParseFloatError` is not modelled.
