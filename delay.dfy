/**
 * The feedback-delay effect (`delay:mix=..:fb=..:time=..`): argument
 * validation, and the in-place comb filter followed by a fixed or
 * energy-terminated tail.
 *
 * Samples are real numbers. The energy estimate
 * `normalizing_factor * sqrt(square_sum)`, i.e. the root mean square of the
 * line, is the parameter `rms(squareSum, ringbuffer_size)`.
 */
module Delay {
  import opened Wrappers
  import opened Ring
  import opened Audio

  const CommandName := "delay"
  const MixName := "mix"
  const FeedbackName := "fb"
  const TimeName := "time"
  /** -80 dB. */
  const MinDelayEnergy: real := 0.0001

  const MissingMix := "Missing delay argument 'mix' (add 'mix=x' to delay:)"
  const MissingFeedback := "Missing delay argument 'fb' (add 'fb=x' to 'delay:')"
  const MissingTime := "Missing delay argument 'time' (add 'time=x' to 'delay:')"
  const TailRequired := "Tail length (--tail, -t) is required for delay feedback >= 1 to avoid infinite feedback cycles"
  const TimeTooShort := "Delay time must be >= 1"
  const NegativeMix := "Delay mix must be > 0"
  const NegativeFeedback := "Delay feedback must be > 0"

  predicate HasArguments(args: map<string, real>) {
    MixName in args && FeedbackName in args && TimeName in args
  }

  /**
   * `Delay::validate_arguments`. The keys are looked up in the order mix, fb,
   * time; the unbounded-feedback check comes before the range checks.
   */
  function ValidateArguments(args: map<string, real>, tail: Option<real>): (r: Result<(), string>)
    ensures MixName !in args ==> r == Err(MissingMix)
    ensures MixName in args && FeedbackName !in args ==> r == Err(MissingFeedback)
    ensures MixName in args && FeedbackName in args && TimeName !in args ==> r == Err(MissingTime)
    ensures HasArguments(args) && args[FeedbackName] >= 1.0 && tail.None? ==> r == Err(TailRequired)
    ensures HasArguments(args) && !(args[FeedbackName] >= 1.0 && tail.None?) ==>
              (args[TimeName] < 1.0 ==> r == Err(TimeTooShort))
              && (args[TimeName] >= 1.0 && args[MixName] < 0.0 ==> r == Err(NegativeMix))
    ensures r.Ok? <==>
              HasArguments(args)
              && (args[FeedbackName] < 1.0 || tail.Some?)
              && args[TimeName] >= 1.0 && args[MixName] >= 0.0 && args[FeedbackName] >= 0.0
    ensures (r.Err? && HasArguments(args) && args[FeedbackName] < 0.0
             && args[TimeName] >= 1.0 && args[MixName] >= 0.0) ==> r == Err(NegativeFeedback)
  {
    if MixName !in args then Err(MissingMix)
    else if FeedbackName !in args then Err(MissingFeedback)
    else if TimeName !in args then Err(MissingTime)
    else
      var mix, feedback, time := args[MixName], args[FeedbackName], args[TimeName];
      if feedback >= 1.0 && tail.None? then Err(TailRequired)
      else if time < 1.0 then Err(TimeTooShort)
      else if mix < 0.0 then Err(NegativeMix)
      else if feedback < 0.0 then Err(NegativeFeedback)
      else Ok(())
  }

  /** The near-unity feedback warning: printed only, never an error. */
  lemma NearUnityFeedbackAccepted(args: map<string, real>)
    requires HasArguments(args) && 0.9 < args[FeedbackName] < 1.0
    requires args[TimeName] >= 1.0 && args[MixName] >= 0.0
    ensures ValidateArguments(args, None).Ok?
  {
  }

  /** `ringbuffer_size`: the delay in samples across all interleaved channels. */
  function RingSize(time: real, spec: WavSpec): (n: nat)
    ensures n == 0 <==> (time / 1000.0) * spec.sampleRate as real * spec.channels as real < 1.0
  {
    TruncToNat((time / 1000.0) * spec.sampleRate as real * spec.channels as real)
  }

  /**
   * `tail_samples`: `channels * (tail as i32) * sample_rate`. The tail length
   * in seconds is truncated before it is multiplied; a negative count runs
   * the loop zero times.
   */
  function FixedTailLength(tail: real, spec: WavSpec): (n: nat)
    ensures tail >= 0.0 ==> n == spec.channels * tail.Floor * spec.sampleRate
    ensures tail < 0.0 ==> n == 0
  {
    var count := spec.channels * TruncToInt(tail) * spec.sampleRate;
    if count > 0 then count else 0
  }

  /** A fractional tail below one second appends nothing. */
  lemma SubSecondTailIsEmpty(tail: real, spec: WavSpec)
    requires 0.0 <= tail < 1.0
    ensures FixedTailLength(tail, spec) == 0
  {
  }

  // ---------------------------------------------------------------------
  // The comb filter over the input samples
  // ---------------------------------------------------------------------

  /**
   * The values the input loop enqueues, `sample + delayed * fb`, where
   * `delayed` is the value enqueued `cap` steps earlier (the line's initial
   * `0.0` during the first `cap` steps).
   */
  function Feed(s: seq<real>, cap: nat, fb: real): (e: seq<real>)
    requires 1 <= cap
    ensures |e| == |s|
  {
    if s == [] then []
    else
      var e := Feed(s[..|s| - 1], cap, fb);
      e + [s[|s| - 1] + Scale(FrontAfter(e, |e|, cap), fb)]
  }

  lemma {:induction false} FeedPrefix(s: seq<real>, cap: nat, fb: real, k: nat)
    requires 1 <= cap && k <= |s|
    ensures Feed(s[..k], cap, fb) == Feed(s, cap, fb)[..k]
    decreases |s|
  {
    if k < |s| {
      var init := s[..|s| - 1];
      FeedPrefix(init, cap, fb, k);
      assert init[..k] == s[..k];
    } else {
      assert s[..k] == s;
    }
  }

  /** Each enqueued value is the input sample plus feedback times the value `cap` steps earlier. */
  lemma FeedAt(s: seq<real>, cap: nat, fb: real, i: nat)
    requires 1 <= cap && i < |s|
    ensures Feed(s, cap, fb)[i] == s[i] + Scale(FrontAfter(Feed(s, cap, fb), i, cap), fb)
  {
    var e := Feed(s, cap, fb);
    FeedPrefix(s, cap, fb, i + 1);
    FeedPrefix(s, cap, fb, i);
    assert s[..i + 1][..i] == s[..i];
  }

  /**
   * The input samples after the comb loop: each becomes
   * `sample + delayed * mix`, with `delayed` the value enqueued `cap` steps
   * earlier, or `0.0` for the first `cap` samples.
   */
  function CombOutput(s: seq<real>, cap: nat, mix: real, fb: real): (y: seq<real>)
    requires 1 <= cap
    ensures |y| == |s|
  {
    var e := Feed(s, cap, fb);
    seq(|s|, i requires 0 <= i < |s| => s[i] + Scale(FrontAfter(e, i, cap), mix))
  }

  /** Without feedback the comb is a single echo: the sample `cap` steps back, scaled by mix. */
  lemma CombWithoutFeedback(s: seq<real>, cap: nat, mix: real, i: nat)
    requires 1 <= cap && i < |s|
    ensures CombOutput(s, cap, mix, 0.0)[i] == s[i] + (if i < cap then 0.0 else Scale(s[i - cap], mix))
  {
    FeedWithoutFeedback(s, cap);
  }

  lemma {:induction false} FeedWithoutFeedback(s: seq<real>, cap: nat)
    requires 1 <= cap
    ensures Feed(s, cap, 0.0) == s
  {
    if s != [] {
      FeedWithoutFeedback(s[..|s| - 1], cap);
      assert s[..|s| - 1] + [s[|s| - 1]] == s;
    }
  }

  // ---------------------------------------------------------------------
  // The tails
  // ---------------------------------------------------------------------

  /** A line as the tail loops find it: within capacity, never empty. */
  predicate LineOk(line: seq<real>, cap: nat) {
    1 <= cap && line != [] && |line| <= cap
  }

  /**
   * The line after `k` rotations under feedback: each rotation enqueues the
   * front times `fb`.
   */
  function Rotations(line: seq<real>, k: nat, cap: nat, fb: real): (r: seq<real>)
    requires LineOk(line, cap)
    ensures LineOk(r, cap)
  {
    if k == 0 then line
    else
      var prev := Rotations(line, k - 1, cap, fb);
      Enqueued(prev, Scale(prev[0], fb), cap)
  }

  /**
   * Fixed-tail mode: `n` times, rotate the line and append its new front
   * times mix, clamped to [-1, 1].
   */
  function FixedTail(line: seq<real>, n: nat, cap: nat, fb: real, mix: real): (out: seq<real>)
    requires LineOk(line, cap)
    ensures |out| == n
    ensures forall i :: 0 <= i < n ==> -1.0 <= out[i] <= 1.0
  {
    seq(n, i requires 0 <= i < n => Clamp(Scale(Rotations(line, i + 1, cap, fb)[0], mix)))
  }

  /** One more rotation appends one more sample. */
  lemma FixedTailGrows(start: seq<real>, line: seq<real>, k: nat, cap: nat, fb: real, mix: real)
    requires LineOk(line, cap)
    ensures start + FixedTail(line, k + 1, cap, fb, mix)
         == start + FixedTail(line, k, cap, fb, mix) + [Clamp(Scale(Rotations(line, k + 1, cap, fb)[0], mix))]
  {
  }

  /**
   * A full line under unit feedback only rotates: after `cap` rotations it
   * is back where it started, so the fixed tail repeats with period `cap`.
   */
  lemma {:induction false} FullLineUnitFeedback(line: seq<real>, k: nat, cap: nat)
    requires LineOk(line, cap) && |line| == cap && k <= cap
    ensures Rotations(line, k, cap, 1.0) == line[k..] + line[..k]
  {
    if k > 0 {
      FullLineUnitFeedback(line, k - 1, cap);
      var prev := Rotations(line, k - 1, cap, 1.0);
      assert prev[0] == line[k - 1];
      assert prev[1..] == line[k..] + line[..k - 1];
      assert line[..k - 1] + [line[k - 1]] == line[..k];
      assert prev[1..] + [line[k - 1]] == line[k..] + line[..k];
    }
  }

  /** The state of the auto-tail loop; `prevEnergy == None` is `f64::INFINITY`. */
  datatype TailState = TailState(line: seq<real>, squareSum: real, counter: nat, prevEnergy: Option<real>)

  /** Why the auto-tail loop ended. */
  datatype Stop = BelowThreshold | Stagnated | OutOfFuel

  datatype TailRun = TailRun(emitted: seq<real>, last: TailState, stop: Stop)

  /**
   * The stagnation counter: one down (not below zero) when the energy fell,
   * one up when it did not.
   */
  function NextCounter(counter: nat, energy: real, prev: Option<real>): (c: nat)
    ensures prev.Some? && energy >= prev.value ==> c == counter + 1
    ensures (prev.None? || energy < prev.value) ==> c == if counter > 0 then counter - 1 else 0
  {
    var falling := prev.None? || energy < prev.value;
    if falling && counter > 0 then counter - 1
    else if !falling then counter + 1
    else counter
  }

  /**
   * One rotation of the auto-tail loop: enqueue the front times feedback,
   * keep the running sum by subtracting front² and adding back², and record
   * the updated counter and the energy just measured.
   */
  function Rotated(st: TailState, cap: nat, fb: real, counter: nat, energy: real): (next: TailState)
    requires LineOk(st.line, cap)
    ensures LineOk(next.line, cap)
  {
    var line := Enqueued(st.line, Scale(st.line[0], fb), cap);
    TailState(line, st.squareSum - Square(st.line[0]) + Square(line[|line| - 1]), counter, Some(energy))
  }

  /**
   * Auto-tail mode: while the energy is above `MinDelayEnergy`, update the
   * counter, stop when it reaches `cap`, and otherwise rotate the line and
   * append its new front times mix, clamped. At most `fuel` samples.
   */
  function AutoTail(st: TailState, cap: nat, fb: real, mix: real, rms: (real, nat) -> real, fuel: nat): (run: TailRun)
    requires LineOk(st.line, cap)
    ensures |run.emitted| <= fuel
    decreases fuel
  {
    var energy := rms(st.squareSum, cap);
    if energy <= MinDelayEnergy then TailRun([], st, BelowThreshold)
    else if fuel == 0 then TailRun([], st, OutOfFuel)
    else
      var counter := NextCounter(st.counter, energy, st.prevEnergy);
      if counter >= cap then TailRun([], st.(counter := counter), Stagnated)
      else
        var next := Rotated(st, cap, fb, counter, energy);
        var rest := AutoTail(next, cap, fb, mix, rms, fuel - 1);
        TailRun([Clamp(Scale(next.line[0], mix))] + rest.emitted, rest.last, rest.stop)
  }

  /** One iteration of the auto-tail loop that appends a sample. */
  lemma AutoTailStep(st: TailState, next: TailState, x: real, cap: nat, fb: real, mix: real,
                     rms: (real, nat) -> real, fuel: nat)
    requires LineOk(st.line, cap) && fuel >= 1 && rms(st.squareSum, cap) > MinDelayEnergy
    requires NextCounter(st.counter, rms(st.squareSum, cap), st.prevEnergy) < cap
    requires next == Rotated(st, cap, fb, NextCounter(st.counter, rms(st.squareSum, cap), st.prevEnergy),
                             rms(st.squareSum, cap))
    requires x == Clamp(Scale(next.line[0], mix))
    ensures var rest := AutoTail(next, cap, fb, mix, rms, fuel - 1);
            AutoTail(st, cap, fb, mix, rms, fuel) == TailRun([x] + rest.emitted, rest.last, rest.stop)
  {
  }

  /**
   * The loop appends nothing more once the energy is low, the fuel is spent
   * or the counter stagnates, and it reports the first of these that holds.
   */
  lemma AutoTailStops(st: TailState, cap: nat, fb: real, mix: real, rms: (real, nat) -> real, fuel: nat)
    requires LineOk(st.line, cap)
    requires rms(st.squareSum, cap) <= MinDelayEnergy || fuel == 0
             || NextCounter(st.counter, rms(st.squareSum, cap), st.prevEnergy) >= cap
    ensures AutoTail(st, cap, fb, mix, rms, fuel).emitted == []
    ensures AutoTail(st, cap, fb, mix, rms, fuel).stop
            == if rms(st.squareSum, cap) <= MinDelayEnergy then BelowThreshold
               else if fuel == 0 then OutOfFuel
               else Stagnated
  {
  }

  /** Appending one sample and then the rest is appending the rest with the sample in front. */
  lemma AppendOne(before: seq<real>, x: real, rest: seq<real>)
    ensures before + ([x] + rest) == (before + [x]) + rest
  {
  }

  /** The auto-tail loop's invariant survives an iteration that appends `x`. */
  lemma AutoTailInvariantStep(goal: seq<real>, before: seq<real>, after: seq<real>, st: TailState, next: TailState,
                              x: real, rest: seq<real>, cap: nat, fb: real, mix: real, rms: (real, nat) -> real, fuel: nat)
    requires LineOk(st.line, cap) && fuel >= 1 && rms(st.squareSum, cap) > MinDelayEnergy
    requires goal == before + AutoTail(st, cap, fb, mix, rms, fuel).emitted
    requires NextCounter(st.counter, rms(st.squareSum, cap), st.prevEnergy) < cap
    requires next == Rotated(st, cap, fb, NextCounter(st.counter, rms(st.squareSum, cap), st.prevEnergy),
                             rms(st.squareSum, cap))
    requires x == Clamp(Scale(next.line[0], mix))
    requires after == before + [x] && rest == AutoTail(next, cap, fb, mix, rms, fuel - 1).emitted
    ensures goal == after + rest
    ensures AutoTail(st, cap, fb, mix, rms, fuel).stop == AutoTail(next, cap, fb, mix, rms, fuel - 1).stop
  {
    AutoTailStep(st, next, x, cap, fb, mix, rms, fuel);
    AppendOne(before, x, rest);
  }

  /**
   * Why the auto-tail loop ends: the energy is at or below the threshold,
   * or the counter reached the line's size (it never passes it), or the
   * fuel ran out after exactly `fuel` samples.
   */
  lemma {:induction false} AutoTailExit(st: TailState, cap: nat, fb: real, mix: real, rms: (real, nat) -> real, fuel: nat)
    requires LineOk(st.line, cap) && st.counter < cap
    ensures var run := AutoTail(st, cap, fb, mix, rms, fuel);
      && (run.stop == BelowThreshold ==> rms(run.last.squareSum, cap) <= MinDelayEnergy)
      && (run.stop == Stagnated ==> run.last.counter == cap && rms(run.last.squareSum, cap) > MinDelayEnergy)
      && (run.stop == OutOfFuel ==> |run.emitted| == fuel)
      && run.last.counter <= cap
      && |run.emitted| <= fuel
    decreases fuel
  {
    var energy := rms(st.squareSum, cap);
    if energy > MinDelayEnergy && fuel > 0 {
      var counter := NextCounter(st.counter, energy, st.prevEnergy);
      if counter < cap {
        var next := Rotated(st, cap, fb, counter, energy);
        AutoTailStep(st, next, Clamp(Scale(next.line[0], mix)), cap, fb, mix, rms, fuel);
        AutoTailExit(next, cap, fb, mix, rms, fuel - 1);
      }
    }
  }

  /**
   * The line invariant of the auto tail: the running sum is the sum of
   * squares of the line, and a line that is not full still has the initial
   * `0.0` at its front.
   */
  predicate Bookkept(line: seq<real>, squareSum: real, cap: nat) {
    LineOk(line, cap)
    && squareSum == SumSquares(line)
    && (|line| < cap ==> line[0] == 0.0)
  }

  /**
   * A rotation (enqueue the front times `fb`, subtract front², add back²)
   * keeps the running sum equal to the sum of squares of the line.
   */
  lemma BookkeptStep(line: seq<real>, squareSum: real, cap: nat, fb: real)
    requires Bookkept(line, squareSum, cap)
    ensures var next := Enqueued(line, Scale(line[0], fb), cap);
            Bookkept(next, squareSum - Square(line[0]) + Square(next[|next| - 1]), cap)
  {
    var next := Enqueued(line, Scale(line[0], fb), cap);
    SquareSumAfterEnqueue(line, Scale(line[0], fb), cap);
    if |next| < cap {
      assert next[0] == line[0];
    }
  }

  /**
   * The line the comb loop leaves behind, with its freshly computed sum of
   * squares, meets the tail loops' bookkeeping invariant.
   */
  lemma InitialBookkept(e: seq<real>, cap: nat)
    requires 1 <= cap
    ensures var line := LastN([0.0] + e, cap);
            Bookkept(line, SumSquares(line), cap)
  {
    NotFullFrontIsZero(e, cap);
  }

  /**
   * The incremental `square_sum` of the auto tail is, when the loop ends,
   * still the sum of squares of the line.
   */
  lemma {:induction false} AutoTailKeepsSum(st: TailState, cap: nat, fb: real, mix: real, rms: (real, nat) -> real, fuel: nat)
    requires Bookkept(st.line, st.squareSum, cap)
    ensures var run := AutoTail(st, cap, fb, mix, rms, fuel);
            run.last.squareSum == SumSquares(run.last.line)
    decreases fuel
  {
    var energy := rms(st.squareSum, cap);
    if energy > MinDelayEnergy && fuel > 0 {
      var counter := NextCounter(st.counter, energy, st.prevEnergy);
      if counter < cap {
        var next := Rotated(st, cap, fb, counter, energy);
        assert Bookkept(next.line, next.squareSum, cap) by {
          BookkeptStep(st.line, st.squareSum, cap, fb);
        }
        AutoTailStep(st, next, Clamp(Scale(next.line[0], mix)), cap, fb, mix, rms, fuel);
        AutoTailKeepsSum(next, cap, fb, mix, rms, fuel - 1);
      }
    }
  }

  /** Every sample the auto tail appends lies in [-1, 1]. */
  lemma {:induction false} AutoTailBounded(st: TailState, cap: nat, fb: real, mix: real, rms: (real, nat) -> real, fuel: nat)
    requires LineOk(st.line, cap)
    ensures forall i :: 0 <= i < |AutoTail(st, cap, fb, mix, rms, fuel).emitted| ==>
              -1.0 <= AutoTail(st, cap, fb, mix, rms, fuel).emitted[i] <= 1.0
    decreases fuel
  {
    var energy := rms(st.squareSum, cap);
    if energy > MinDelayEnergy && fuel > 0 {
      var counter := NextCounter(st.counter, energy, st.prevEnergy);
      if counter < cap {
        var next := Rotated(st, cap, fb, counter, energy);
        var x := Clamp(Scale(next.line[0], mix));
        AutoTailStep(st, next, x, cap, fb, mix, rms, fuel);
        AutoTailBounded(next, cap, fb, mix, rms, fuel - 1);
        var rest := AutoTail(next, cap, fb, mix, rms, fuel - 1).emitted;
        assert forall i :: 1 <= i < |rest| + 1 ==> ([x] + rest)[i] == rest[i - 1];
      }
    }
  }

  /** `out` is what the fixed tail emits from the `j + 1`-th rotation of `first` on. */
  ghost predicate FollowsRotations(out: seq<real>, first: seq<real>, j: nat, cap: nat, fb: real, mix: real)
    requires LineOk(first, cap)
  {
    forall i :: 0 <= i < |out| ==> out[i] == Clamp(Scale(Rotations(first, j + i + 1, cap, fb)[0], mix))
  }

  lemma FollowsRotationsCons(x: real, rest: seq<real>, first: seq<real>, j: nat, cap: nat, fb: real, mix: real)
    requires LineOk(first, cap)
    requires x == Clamp(Scale(Rotations(first, j + 1, cap, fb)[0], mix))
    requires FollowsRotations(rest, first, j + 1, cap, fb, mix)
    ensures FollowsRotations([x] + rest, first, j, cap, fb, mix)
  {
    var out := [x] + rest;
    forall i | 1 <= i < |out|
      ensures out[i] == Clamp(Scale(Rotations(first, j + i + 1, cap, fb)[0], mix))
    {
      assert out[i] == rest[i - 1];
      assert (j + 1) + (i - 1) + 1 == j + i + 1;
    }
  }

  /**
   * The auto tail started on a line that has already turned `j` times
   * emits what the fixed tail would emit from the `j + 1`-th rotation on.
   */
  lemma {:induction false} AutoTailFollowsRotations(first: seq<real>, j: nat, st: TailState, cap: nat, fb: real, mix: real,
                                                    rms: (real, nat) -> real, fuel: nat)
    requires LineOk(first, cap) && st.line == Rotations(first, j, cap, fb)
    ensures FollowsRotations(AutoTail(st, cap, fb, mix, rms, fuel).emitted, first, j, cap, fb, mix)
    decreases fuel
  {
    var energy := rms(st.squareSum, cap);
    if energy > MinDelayEnergy && fuel > 0 {
      var counter := NextCounter(st.counter, energy, st.prevEnergy);
      if counter < cap {
        var next := Rotated(st, cap, fb, counter, energy);
        AutoTailStep(st, next, Clamp(Scale(next.line[0], mix)), cap, fb, mix, rms, fuel);
        AutoTailFollowsRotations(first, j + 1, next, cap, fb, mix, rms, fuel - 1);
        FollowsRotationsCons(Clamp(Scale(next.line[0], mix)), AutoTail(next, cap, fb, mix, rms, fuel - 1).emitted,
                             first, j, cap, fb, mix);
      }
    }
  }

  /**
   * Both tail modes append the same stream and differ only in where it
   * stops: the auto tail is a prefix of the fixed tail.
   */
  lemma AutoTailIsFixedTail(line: seq<real>, squareSum: real, cap: nat, fb: real, mix: real,
                            rms: (real, nat) -> real, fuel: nat)
    requires LineOk(line, cap)
    ensures var out := AutoTail(TailState(line, squareSum, 0, None), cap, fb, mix, rms, fuel).emitted;
            out == FixedTail(line, |out|, cap, fb, mix)
  {
    AutoTailFollowsRotations(line, 0, TailState(line, squareSum, 0, None), cap, fb, mix, rms, fuel);
  }

  // ---------------------------------------------------------------------
  // The whole effect
  // ---------------------------------------------------------------------

  /** The samples `apply_effect` leaves behind, for a line of size `cap`. */
  function DelayOutput(s: seq<real>, cap: nat, mix: real, fb: real, spec: WavSpec, tail: Option<real>,
                       rms: (real, nat) -> real, fuel: nat): (out: seq<real>)
    requires 1 <= cap
    ensures |out| % 2 == 0 && |s| <= |out|
  {
    var line := LastN([0.0] + Feed(s, cap, fb), cap);
    var appended := match tail
      case Some(t) => FixedTail(line, FixedTailLength(t, spec), cap, fb, mix)
      case None => AutoTail(TailState(line, SumSquares(line), 0, None), cap, fb, mix, rms, fuel).emitted;
    PaddedToEven(CombOutput(s, cap, mix, fb) + appended)
  }

  /**
   * Whether the auto tail that follows the comb loop over `s` is cut off by
   * the `fuel` bound instead of ending by its own exit tests.
   */
  predicate Exhausted(s: seq<real>, cap: nat, mix: real, fb: real, tail: Option<real>,
                      rms: (real, nat) -> real, fuel: nat)
    requires 1 <= cap
  {
    var line := LastN([0.0] + Feed(s, cap, fb), cap);
    tail.None? && AutoTail(TailState(line, SumSquares(line), 0, None), cap, fb, mix, rms, fuel).stop == OutOfFuel
  }

  /**
   * What the effect does to the sample count and values: the input keeps
   * its length and becomes the comb output, every appended sample lies in
   * [-1, 1], fixed-tail mode appends exactly the requested count before
   * padding, the auto tail appends at most `fuel` samples and ends with its
   * running sum still the sum of squares of the line, and the result has an
   * even length.
   */
  lemma DelayOutputShape(s: seq<real>, cap: nat, mix: real, fb: real, spec: WavSpec, tail: Option<real>,
                         rms: (real, nat) -> real, fuel: nat)
    requires 1 <= cap
    ensures var out := DelayOutput(s, cap, mix, fb, spec, tail, rms, fuel);
      && |out| % 2 == 0
      && |s| <= |out|
      && out[..|s|] == CombOutput(s, cap, mix, fb)
      && (forall i :: |s| <= i < |out| ==> -1.0 <= out[i] <= 1.0)
      && (tail.Some? ==> |out| - |s| - FixedTailLength(tail.value, spec) in {0, 1})
      && (tail.None? ==> |out| - |s| <= fuel + 1)
    ensures tail.None? ==>
      var line := LastN([0.0] + Feed(s, cap, fb), cap);
      var run := AutoTail(TailState(line, SumSquares(line), 0, None), cap, fb, mix, rms, fuel);
      run.last.squareSum == SumSquares(run.last.line)
  {
    var line := LastN([0.0] + Feed(s, cap, fb), cap);
    var y := CombOutput(s, cap, mix, fb);
    match tail {
      case Some(t) =>
        PaddedAppend(y, FixedTail(line, FixedTailLength(t, spec), cap, fb, mix));
      case None =>
        var st := TailState(line, SumSquares(line), 0, None);
        AutoTailBounded(st, cap, fb, mix, rms, fuel);
        PaddedAppend(y, AutoTail(st, cap, fb, mix, rms, fuel).emitted);
        InitialBookkept(Feed(s, cap, fb), cap);
        AutoTailKeepsSum(st, cap, fb, mix, rms, fuel);
    }
  }

  /** Padding a signal followed by samples in [-1, 1] keeps the signal and the bound. */
  lemma PaddedAppend(y: seq<real>, a: seq<real>)
    requires forall i :: 0 <= i < |a| ==> -1.0 <= a[i] <= 1.0
    ensures var out := PaddedToEven(y + a);
      && |y| <= |out| && out[..|y|] == y
      && (forall i :: |y| <= i < |out| ==> -1.0 <= out[i] <= 1.0)
      && |out| - |y| - |a| in {0, 1}
  {
    var out := PaddedToEven(y + a);
    assert out[..|y|] == (y + a)[..|y|] == y;
    forall i | |y| <= i < |out| ensures -1.0 <= out[i] <= 1.0 {
      if i < |y + a| {
        assert out[i] == a[i - |y|];
      }
    }
  }

  /** Enqueueing the next fed value moves the line one step along the stream `[0.0] + e`. */
  lemma CombLineStep(e: seq<real>, i: nat, cap: nat, before: seq<real>, after: seq<real>)
    requires 1 <= cap && i < |e|
    requires before == LastN([0.0] + e[..i], cap)
    requires after == Enqueued(before, e[i], cap)
    ensures after == LastN([0.0] + e[..i + 1], cap)
  {
    EnqueuedLastN([0.0] + e[..i], e[i], cap);
    assert [0.0] + e[..i] + [e[i]] == [0.0] + e[..i + 1];
  }

  /**
   * One step of the comb loop on the delay line: read the delayed value,
   * then enqueue `sample + delayed * fb`.
   */
  method CombLineUpdate(line: RingBuffer, sample: real, fb: real, ghost s: seq<real>, ghost i: nat)
      returns (delayed: real)
    requires line.Valid() && i < |s| && sample == s[i]
    requires line.items == LastN([0.0] + Feed(s, line.capacity, fb)[..i], line.capacity)
    modifies line
    ensures line.Valid()
    ensures delayed == FrontAfter(Feed(s, line.capacity, fb), i, line.capacity)
    ensures line.items == LastN([0.0] + Feed(s, line.capacity, fb)[..i + 1], line.capacity)
  {
    ghost var e := Feed(s, line.capacity, fb);
    LineFront(e, i, line.capacity);
    delayed := line.Front();
    FeedAt(s, line.capacity, fb, i);
    ghost var before := line.items;
    line.Enqueue(sample + Scale(delayed, fb));
    CombLineStep(e, i, line.capacity, before, line.items);
  }

  /** The comb loop (`for sample in samples.iter_mut()`), in place. */
  method CombPass(buf: AudioBuffer, line: RingBuffer, mix: real, fb: real)
    requires line.Valid() && line.items == [0.0]
    modifies buf, line
    ensures line.Valid()
    ensures buf.samples == CombOutput(old(buf.samples), line.capacity, mix, fb)
    ensures line.items == LastN([0.0] + Feed(old(buf.samples), line.capacity, fb), line.capacity)
  {
    ghost var s := buf.samples;
    var cap := line.capacity;
    ghost var e := Feed(s, cap, fb);
    ghost var y := CombOutput(s, cap, mix, fb);
    var n := |buf.samples|;
    assert e[..0] == [];
    for i := 0 to n
      invariant line.Valid() && line.capacity == cap
      invariant line.items == LastN([0.0] + e[..i], cap)
      invariant |buf.samples| == n
      invariant forall j :: 0 <= j < i ==> buf.samples[j] == y[j]
      invariant forall j :: i <= j < n ==> buf.samples[j] == s[j]
    {
      var delayed := CombLineUpdate(line, buf.samples[i], fb, s, i);
      buf.samples := buf.samples[i := buf.samples[i] + Scale(delayed, mix)];
    }
    assert e[..n] == e;
  }

  /** The fixed-tail loop (`for _ in 0 .. tail_samples`). */
  method FixedTailPass(buf: AudioBuffer, line: RingBuffer, n: nat, mix: real, fb: real)
    requires line.Valid() && line.items != []
    modifies buf, line
    ensures line.Valid()
    ensures buf.samples == old(buf.samples) + FixedTail(old(line.items), n, line.capacity, fb, mix)
  {
    var cap := line.capacity;
    ghost var start, first := buf.samples, line.items;
    for k := 0 to n
      invariant line.Valid() && line.capacity == cap
      invariant line.items == Rotations(first, k, cap, fb)
      invariant buf.samples == start + FixedTail(first, k, cap, fb, mix)
    {
      line.Enqueue(Scale(line.Front(), fb));
      var x := Clamp(Scale(line.Front(), mix));
      FixedTailGrows(start, first, k, cap, fb, mix);
      buf.samples := buf.samples + [x];
    }
  }

  /**
   * The body of the auto-tail loop after the stagnation check: rotate the
   * line, keep the running sum of squares, and return the sample to append.
   * The state it leaves is `Rotated` of the state it found.
   */
  method RotateLine(line: RingBuffer, squareSum: real, mix: real, fb: real,
                    ghost st: TailState, counter: nat, energy: real) returns (newSum: real, x: real)
    requires line.Valid() && line.items != [] && st.line == line.items && st.squareSum == squareSum
    modifies line
    ensures line.Valid() && line.items != []
    ensures TailState(line.items, newSum, counter, Some(energy)) == Rotated(st, line.capacity, fb, counter, energy)
    ensures x == Clamp(Scale(line.items[0], mix))
  {
    var frontVal := line.Front();
    newSum := squareSum - Square(frontVal);
    line.Enqueue(Scale(frontVal, fb));
    var backVal := line.Back();
    newSum := newSum + Square(backVal);
    x := Clamp(Scale(line.Front(), mix));
  }

  /** The counter update at the top of the auto-tail loop body. */
  method UpdateCounter(counter: nat, energy: real, prevEnergy: Option<real>) returns (c: nat)
    ensures c == NextCounter(counter, energy, prevEnergy)
  {
    c := counter;
    if (prevEnergy.None? || energy < prevEnergy.value) && counter > 0 {
      c := counter - 1;
    } else if prevEnergy.Some? && energy >= prevEnergy.value {
      c := counter + 1;
    }
  }

  /** The auto-tail loop (`while energy > MIN_DELAY_ENERGY`), bounded by `fuel` iterations. */
  method AutoTailPass(buf: AudioBuffer, line: RingBuffer, mix: real, fb: real, rms: (real, nat) -> real, fuel: nat)
      returns (stop: Stop)
    requires line.Valid() && line.items != []
    modifies buf, line
    ensures line.Valid()
    ensures buf.samples == old(buf.samples)
      + AutoTail(TailState(old(line.items), SumSquares(old(line.items)), 0, None), line.capacity, fb, mix, rms, fuel).emitted
    ensures stop == AutoTail(TailState(old(line.items), SumSquares(old(line.items)), 0, None), line.capacity, fb, mix, rms, fuel).stop
  {
    var cap := line.capacity;
    var squareSum := line.SquareSum();
    var counter: nat := 0;
    var prevEnergy: Option<real> := None;
    var steps: nat := 0;
    var stagnated := false;
    ghost var st := TailState(line.items, squareSum, counter, prevEnergy);
    ghost var left := fuel;
    ghost var run := AutoTail(st, cap, fb, mix, rms, left);
    ghost var rest := run.emitted;
    ghost var goal := buf.samples + rest;
    ghost var goalStop := run.stop;
    while steps < fuel && rms(squareSum, cap) > MinDelayEnergy
      invariant line.Valid() && line.capacity == cap && line.items != []
      invariant st == TailState(line.items, squareSum, counter, prevEnergy)
      invariant steps <= fuel && left == fuel - steps
      invariant run == AutoTail(st, cap, fb, mix, rms, left)
      invariant rest == run.emitted && goal == buf.samples + rest
      invariant run.stop == goalStop
      decreases fuel - steps
    {
      var energy := rms(squareSum, cap);
      counter := UpdateCounter(counter, energy, prevEnergy);
      if counter >= cap {
        assert goal == buf.samples && goalStop == Stagnated by {
          AutoTailStops(st, cap, fb, mix, rms, left);
        }
        stagnated := true;
        break;
      }
      prevEnergy := Some(energy);
      var x;
      squareSum, x := RotateLine(line, squareSum, mix, fb, st, counter, energy);
      ghost var next := TailState(line.items, squareSum, counter, prevEnergy);
      ghost var before := buf.samples;
      buf.samples := buf.samples + [x];
      steps := steps + 1;
      ghost var prev, prevLeft := st, left;
      st, left := next, left - 1;
      run := AutoTail(st, cap, fb, mix, rms, left);
      rest := run.emitted;
      AutoTailInvariantStep(goal, before, buf.samples, prev, st, x, rest, cap, fb, mix, rms, prevLeft);
    }
    if !stagnated {
      assert goal == buf.samples
        && goalStop == (if rms(squareSum, cap) <= MinDelayEnergy then BelowThreshold else OutOfFuel) by {
        AutoTailStops(st, cap, fb, mix, rms, left);
      }
    }
    if stagnated {
      stop := Stagnated;
    } else if rms(squareSum, cap) <= MinDelayEnergy {
      stop := BelowThreshold;
    } else {
      stop := OutOfFuel;
    }
  }

  /**
   * `Delay::apply_effect`. A missing argument (`unwrap`) or a zero-size
   * line (the ring-buffer crate refuses it) panics before any sample is
   * touched; otherwise the samples become `DelayOutput`, and the call is
   * `Applied` unless the auto tail was cut off by the `fuel` bound.
   */
  method ApplyEffect(buf: AudioBuffer, args: map<string, real>, tail: Option<real>,
                     rms: (real, nat) -> real, fuel: nat) returns (r: Applied)
    modifies buf
    ensures MixName !in args ==> r == Panicked(MissingArgument(MixName))
    ensures MixName in args && FeedbackName !in args ==> r == Panicked(MissingArgument(FeedbackName))
    ensures MixName in args && FeedbackName in args && TimeName !in args ==> r == Panicked(MissingArgument(TimeName))
    ensures HasArguments(args) && RingSize(args[TimeName], buf.spec) == 0 ==> r == Panicked(ZeroCapacityLine)
    ensures r.Panicked? ==> buf.samples == old(buf.samples)
    ensures r == Applied <==>
      HasArguments(args) && RingSize(args[TimeName], buf.spec) >= 1
      && !Exhausted(old(buf.samples), RingSize(args[TimeName], buf.spec), args[MixName], args[FeedbackName], tail, rms, fuel)
    ensures r == Unfinished <==>
      HasArguments(args) && RingSize(args[TimeName], buf.spec) >= 1
      && Exhausted(old(buf.samples), RingSize(args[TimeName], buf.spec), args[MixName], args[FeedbackName], tail, rms, fuel)
    ensures !r.Panicked? ==>
      buf.samples == DelayOutput(old(buf.samples), RingSize(args[TimeName], buf.spec),
                                 args[MixName], args[FeedbackName], buf.spec, tail, rms, fuel)
  {
    if MixName !in args { return Panicked(MissingArgument(MixName)); }
    if FeedbackName !in args { return Panicked(MissingArgument(FeedbackName)); }
    if TimeName !in args { return Panicked(MissingArgument(TimeName)); }
    var mix, feedback, time := args[MixName], args[FeedbackName], args[TimeName];
    var size := RingSize(time, buf.spec);
    if size == 0 { return Panicked(ZeroCapacityLine); }
    var line := new RingBuffer(size);
    line.Enqueue(0.0);
    ghost var s := buf.samples;
    CombPass(buf, line, mix, feedback);
    var stop := BelowThreshold;
    match tail {
      case Some(t) =>
        FixedTailPass(buf, line, FixedTailLength(t, buf.spec), mix, feedback);
      case None =>
        stop := AutoTailPass(buf, line, mix, feedback, rms, fuel);
    }
    if |buf.samples| % 2 != 0 {
      buf.samples := buf.samples + [0.0];
    }
    r := if tail.None? && stop == OutOfFuel then Unfinished else Applied;
  }
}
