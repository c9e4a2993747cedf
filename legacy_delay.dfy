/**
 * The legacy feedback delay (`delay(audio_buffer, arguments, tail_length)`):
 * string arguments that panic when missing or malformed, a comb filter that
 * reads the delayed value after enqueueing, an unclamped tail, and an energy
 * loop without a stagnation guard.
 *
 * The parses `str::parse::<f32>` and `str::parse::<i32>` are the parameters
 * `parseFloat` and `parseInt`; the energy `normalizing_factor * sqrt(square_sum)`
 * is the parameter `rms(squareSum, ringbuffer_size)`.
 */
module LegacyDelay {
  import opened Wrappers
  import opened Ring
  import opened Audio
  import Delay

  const MixKey := "mix"
  const FeedbackKey := "feedback"
  const TimeKey := "time"
  /** -80 dB, the loop's magic number. */
  const Silence: real := 0.0001

  /**
   * `arguments.get(key).unwrap().as_ref().unwrap().parse().expect(..)`: the
   * key must be present, carry a value, and that value must parse.
   */
  function Argument<T>(args: map<string, Option<string>>, key: string, parse: string -> Option<T>): (r: Result<T, Panic>)
    ensures key !in args ==> r == Err(MissingArgument(key))
    ensures key in args && args[key].None? ==> r == Err(EmptyArgument(key))
    ensures key in args && args[key].Some? && parse(args[key].value).None? ==> r == Err(UnparsableArgument(key))
    ensures r.Ok? <==> key in args && args[key].Some? && parse(args[key].value).Some?
    ensures r.Ok? ==> r.value == parse(args[key].value).value
  {
    if key !in args then Err(MissingArgument(key))
    else match args[key]
      case None => Err(EmptyArgument(key))
      case Some(text) =>
        match parse(text)
        case None => Err(UnparsableArgument(key))
        case Some(v) => Ok(v)
  }

  /** The parsed arguments and the line size derived from them. */
  datatype Settings = Settings(mix: real, feedback: real, time: int, size: nat)

  /** Mix, feedback and time are all present, valued and parsable. */
  predicate ArgumentsParse(args: map<string, Option<string>>,
                           parseFloat: string -> Option<real>, parseInt: string -> Option<int>) {
    && Argument(args, MixKey, parseFloat).Ok?
    && Argument(args, FeedbackKey, parseFloat).Ok?
    && Argument(args, TimeKey, parseInt).Ok?
  }

  /**
   * Everything `delay` checks before it touches a sample, in the order it
   * checks it: mix, feedback and time (each: present, valued, parsable),
   * then unbounded feedback, then the line size (the ring-buffer crate
   * refuses a zero capacity).
   */
  function Checked(args: map<string, Option<string>>, tail: Option<real>, spec: WavSpec,
                   parseFloat: string -> Option<real>, parseInt: string -> Option<int>): (r: Result<Settings, Panic>)
    ensures Argument(args, MixKey, parseFloat).Err? ==> r == Err(Argument(args, MixKey, parseFloat).error)
    ensures Argument(args, MixKey, parseFloat).Ok? && Argument(args, FeedbackKey, parseFloat).Err? ==>
              r == Err(Argument(args, FeedbackKey, parseFloat).error)
    ensures (Argument(args, MixKey, parseFloat).Ok? && Argument(args, FeedbackKey, parseFloat).Ok?
             && Argument(args, TimeKey, parseInt).Err?) ==> r == Err(Argument(args, TimeKey, parseInt).error)
    ensures r.Ok? ==>
              && r.value.mix == parseFloat(args[MixKey].value).value
              && r.value.feedback == parseFloat(args[FeedbackKey].value).value
              && r.value.time == parseInt(args[TimeKey].value).value
              && r.value.size == Delay.RingSize(r.value.time as real, spec) >= 1
              && (r.value.feedback < 1.0 || tail.Some?)
    ensures r == Err(UnboundedFeedback) <==>
              ArgumentsParse(args, parseFloat, parseInt)
              && parseFloat(args[FeedbackKey].value).value >= 1.0 && tail.None?
    ensures r == Err(ZeroCapacityLine) <==>
              ArgumentsParse(args, parseFloat, parseInt)
              && (parseFloat(args[FeedbackKey].value).value < 1.0 || tail.Some?)
              && Delay.RingSize(parseInt(args[TimeKey].value).value as real, spec) == 0
    ensures r.Ok? <==>
              ArgumentsParse(args, parseFloat, parseInt)
              && (parseFloat(args[FeedbackKey].value).value < 1.0 || tail.Some?)
              && Delay.RingSize(parseInt(args[TimeKey].value).value as real, spec) >= 1
  {
    var mix := Argument(args, MixKey, parseFloat);
    if mix.Err? then Err(mix.error)
    else
      var feedback := Argument(args, FeedbackKey, parseFloat);
      if feedback.Err? then Err(feedback.error)
      else
        var time := Argument(args, TimeKey, parseInt);
        if time.Err? then Err(time.error)
        else if feedback.value >= 1.0 && tail.None? then Err(UnboundedFeedback)
        else
          var size := Delay.RingSize(time.value as real, spec);
          if size == 0 then Err(ZeroCapacityLine)
          else Ok(Settings(mix.value, feedback.value, time.value, size))
  }

  /** Feedback at or above one without a tail length always panics, whatever else holds. */
  lemma UnboundedFeedbackPanics(args: map<string, Option<string>>, spec: WavSpec,
                                parseFloat: string -> Option<real>, parseInt: string -> Option<int>)
    requires Checked(args, None, spec, parseFloat, parseInt).Ok?
    ensures Checked(args, None, spec, parseFloat, parseInt).value.feedback < 1.0
  {
  }

  /**
   * `tail_samples`: `channels * (tail_length * sample_rate) as i32`. Here
   * the product is truncated, not the tail length; a negative count runs
   * the loop zero times.
   */
  function TailCount(tail: real, spec: WavSpec): (n: nat)
    ensures tail >= 0.0 ==> n == spec.channels * (tail * spec.sampleRate as real).Floor
    ensures tail < 0.0 ==> n == 0
  {
    var count := spec.channels * TruncToInt(tail * spec.sampleRate as real);
    if count > 0 then count else 0
  }

  /**
   * The two versions count a fractional tail differently: a tail under one
   * second that still covers a sample frame gives the legacy delay a tail
   * and the current one none.
   */
  lemma FractionalTailCounts(tail: real, spec: WavSpec)
    requires 0.0 <= tail < 1.0 && tail * spec.sampleRate as real >= 1.0 && spec.channels >= 1
    ensures TailCount(tail, spec) >= spec.channels
    ensures Delay.FixedTailLength(tail, spec) == 0
  {
    var frames := (tail * spec.sampleRate as real).Floor;
    assert frames >= 1;
    assert spec.channels * frames >= spec.channels * 1;
  }

  // ---------------------------------------------------------------------
  // The comb filter over the input samples
  // ---------------------------------------------------------------------

  /**
   * The values the input loop enqueues, `(sample + delayed) * feedback`,
   * where `delayed` is the line's front before the enqueue: the value
   * enqueued `cap` steps earlier, or the initial `0.0`.
   */
  function Feed(s: seq<real>, cap: nat, fb: real): (e: seq<real>)
    requires 1 <= cap
    ensures |e| == |s|
  {
    if s == [] then []
    else
      var e := Feed(s[..|s| - 1], cap, fb);
      e + [Scale(s[|s| - 1] + FrontAfter(e, |e|, cap), fb)]
  }

  /** Each enqueued value is the sample plus the line's front, times feedback. */
  lemma {:induction false} FeedAt(s: seq<real>, cap: nat, fb: real, i: nat)
    requires 1 <= cap && i < |s|
    ensures Feed(s, cap, fb)[i] == Scale(s[i] + FrontAfter(Feed(s, cap, fb), i, cap), fb)
    decreases |s|
  {
    var init := s[..|s| - 1];
    var e := Feed(init, cap, fb);
    assert Feed(s, cap, fb) == e + [Scale(s[|s| - 1] + FrontAfter(e, |e|, cap), fb)];
    if i < |s| - 1 {
      FeedAt(init, cap, fb, i);
      assert FrontAfter(Feed(s, cap, fb), i, cap) == FrontAfter(e, i, cap);
    }
  }

  /**
   * The input samples after the comb loop: each becomes `sample + front * mix`
   * with the front read after its own value was enqueued, i.e. `0.0` until
   * `cap - 1` samples have passed, then the value enqueued `cap - 1` steps
   * earlier (the sample's own fed value when `cap` is 1).
   */
  function CombOutput(s: seq<real>, cap: nat, mix: real, fb: real): (y: seq<real>)
    requires 1 <= cap
    ensures |y| == |s|
  {
    var e := Feed(s, cap, fb);
    seq(|s|, i requires 0 <= i < |s| => s[i] + Scale(FrontAfter(e, i + 1, cap), mix))
  }

  /** With zero feedback every enqueued value is `0.0`. */
  lemma {:induction false} FeedWithoutFeedback(s: seq<real>, cap: nat, i: nat)
    requires 1 <= cap && i < |s|
    ensures Feed(s, cap, 0.0)[i] == 0.0
    decreases |s|
  {
    if i < |s| - 1 {
      FeedWithoutFeedback(s[..|s| - 1], cap, i);
    }
  }

  /**
   * Because the fed value is multiplied by the feedback, a feedback of zero
   * leaves the input unchanged: this delay has no dry echo at all.
   */
  lemma CombWithoutFeedback(s: seq<real>, cap: nat, mix: real)
    requires 1 <= cap
    ensures CombOutput(s, cap, mix, 0.0) == s
  {
    var e := Feed(s, cap, 0.0);
    forall i | 0 <= i < |s| ensures CombOutput(s, cap, mix, 0.0)[i] == s[i] {
      if i + 1 >= cap {
        FeedWithoutFeedback(s, cap, i + 1 - cap);
      }
    }
  }

  /** The first `cap - 1` samples pass unchanged; from then on each hears the line. */
  lemma CombDelay(s: seq<real>, cap: nat, mix: real, fb: real, i: nat)
    requires 1 <= cap && i < |s|
    ensures i + 1 < cap ==> CombOutput(s, cap, mix, fb)[i] == s[i]
    ensures i + 1 >= cap ==> CombOutput(s, cap, mix, fb)[i] == s[i] + Scale(Feed(s, cap, fb)[i + 1 - cap], mix)
  {
  }

  /**
   * One step of the comb loop on the delay line: enqueue
   * `(sample + front) * feedback`, then read the front again.
   */
  method CombLineUpdate(line: RingBuffer, sample: real, fb: real, ghost s: seq<real>, ghost i: nat)
      returns (echo: real)
    requires line.Valid() && i < |s| && sample == s[i]
    requires line.items == LastN([0.0] + Feed(s, line.capacity, fb)[..i], line.capacity)
    modifies line
    ensures line.Valid()
    ensures echo == FrontAfter(Feed(s, line.capacity, fb), i + 1, line.capacity)
    ensures line.items == LastN([0.0] + Feed(s, line.capacity, fb)[..i + 1], line.capacity)
  {
    ghost var cap := line.capacity;
    ghost var e := Feed(s, cap, fb);
    assert line.items != [] && line.Front() == FrontAfter(e, i, cap) by {
      LineFront(e, i, cap);
    }
    var fed := Scale(sample + line.Front(), fb);
    assert fed == e[i] by {
      FeedAt(s, cap, fb, i);
    }
    ghost var before := line.items;
    line.Enqueue(fed);
    assert line.items == LastN([0.0] + e[..i + 1], cap) by {
      Delay.CombLineStep(e, i, cap, before, line.items);
    }
    echo := line.Front();
    assert echo == FrontAfter(e, i + 1, cap) by {
      LineFront(e, i + 1, cap);
    }
  }

  /** The comb loop (`for sample in normalized_samples.iter_mut()`), in place. */
  method CombPass(buf: AudioBuffer, line: RingBuffer, mix: real, fb: real)
    requires line.Valid() && line.items == [0.0]
    modifies buf, line
    ensures line.Valid()
    ensures buf.samples == CombOutput(old(buf.samples), line.capacity, mix, fb)
    ensures line.items == LastN([0.0] + Feed(old(buf.samples), line.capacity, fb), line.capacity)
  {
    ghost var s := buf.samples;
    var cap := line.capacity;
    ghost var e := Feed(s, cap, fb);
    ghost var y := CombOutput(s, cap, mix, fb);
    var n := |buf.samples|;
    assert e[..0] == [];
    for i := 0 to n
      invariant line.Valid() && line.capacity == cap
      invariant line.items == LastN([0.0] + e[..i], cap)
      invariant |buf.samples| == n
      invariant forall j :: 0 <= j < i ==> buf.samples[j] == y[j]
      invariant forall j :: i <= j < n ==> buf.samples[j] == s[j]
    {
      var echo := CombLineUpdate(line, buf.samples[i], fb, s, i);
      buf.samples := buf.samples[i := buf.samples[i] + Scale(echo, mix)];
    }
    assert e[..n] == e;
  }

  // ---------------------------------------------------------------------
  // The tails
  // ---------------------------------------------------------------------

  /**
   * Fixed-tail mode: `n` times, rotate the line (enqueue its front times
   * feedback) and append its new front times mix. Nothing is clamped.
   */
  function Echoes(line: seq<real>, n: nat, cap: nat, fb: real, mix: real): (out: seq<real>)
    requires Delay.LineOk(line, cap)
    ensures |out| == n
  {
    seq(n, i requires 0 <= i < n => Scale(Delay.Rotations(line, i + 1, cap, fb)[0], mix))
  }

  /** One more rotation appends one more sample. */
  lemma EchoesGrow(start: seq<real>, line: seq<real>, k: nat, cap: nat, fb: real, mix: real)
    requires Delay.LineOk(line, cap)
    ensures start + Echoes(line, k + 1, cap, fb, mix)
         == start + Echoes(line, k, cap, fb, mix) + [Scale(Delay.Rotations(line, k + 1, cap, fb)[0], mix)]
  {
  }

  /** The current delay's fixed tail is this tail with every sample clamped to [-1, 1]. */
  lemma FixedTailIsClampedEchoes(line: seq<real>, n: nat, cap: nat, fb: real, mix: real)
    requires Delay.LineOk(line, cap)
    ensures forall i :: 0 <= i < n ==>
              Delay.FixedTail(line, n, cap, fb, mix)[i] == Clamp(Echoes(line, n, cap, fb, mix)[i])
  {
  }

  /** The state of the energy loop: the line and the running sum of squares. */
  datatype LineState = LineState(line: seq<real>, squareSum: real)

  /** Why the energy loop ended: the energy fell to the threshold, or the fuel ran out. */
  datatype End = Quiet | OutOfFuel

  datatype Drained = Drained(emitted: seq<real>, last: LineState, end: End)

  /**
   * One rotation of the energy loop: enqueue the front times feedback and
   * keep the running sum by subtracting front² and adding back².
   */
  function Rotated(st: LineState, cap: nat, fb: real): (next: LineState)
    requires Delay.LineOk(st.line, cap)
    ensures Delay.LineOk(next.line, cap)
    ensures next.line == Enqueued(st.line, Scale(st.line[0], fb), cap)
  {
    var line := Enqueued(st.line, Scale(st.line[0], fb), cap);
    LineState(line, st.squareSum - Square(st.line[0]) + Square(line[|line| - 1]))
  }

  /**
   * Auto-tail mode: while the energy is above `Silence`, rotate the line
   * and append its new front times mix. There is no stagnation guard; at
   * most `fuel` samples.
   */
  function Drain(st: LineState, cap: nat, fb: real, mix: real, rms: (real, nat) -> real, fuel: nat): (run: Drained)
    requires Delay.LineOk(st.line, cap)
    ensures |run.emitted| <= fuel
    decreases fuel
  {
    if rms(st.squareSum, cap) <= Silence then Drained([], st, Quiet)
    else if fuel == 0 then Drained([], st, OutOfFuel)
    else
      var next := Rotated(st, cap, fb);
      var rest := Drain(next, cap, fb, mix, rms, fuel - 1);
      Drained([Scale(next.line[0], mix)] + rest.emitted, rest.last, rest.end)
  }

  /** One iteration of the energy loop that appends a sample. */
  lemma DrainStep(st: LineState, cap: nat, fb: real, mix: real, rms: (real, nat) -> real, fuel: nat)
    requires Delay.LineOk(st.line, cap) && fuel >= 1 && rms(st.squareSum, cap) > Silence
    ensures var next := Rotated(st, cap, fb);
            var rest := Drain(next, cap, fb, mix, rms, fuel - 1);
            Drain(st, cap, fb, mix, rms, fuel) == Drained([Scale(next.line[0], mix)] + rest.emitted, rest.last, rest.end)
  {
  }

  /**
   * Why the energy loop ends: the energy is at or below the threshold, or
   * the fuel ran out after exactly `fuel` samples.
   */
  lemma {:induction false} DrainExit(st: LineState, cap: nat, fb: real, mix: real, rms: (real, nat) -> real, fuel: nat)
    requires Delay.LineOk(st.line, cap)
    ensures var run := Drain(st, cap, fb, mix, rms, fuel);
      && (run.end == Quiet ==> rms(run.last.squareSum, cap) <= Silence)
      && (run.end == OutOfFuel ==> |run.emitted| == fuel)
      && |run.emitted| <= fuel
    decreases fuel
  {
    if rms(st.squareSum, cap) > Silence && fuel > 0 {
      DrainStep(st, cap, fb, mix, rms, fuel);
      DrainExit(Rotated(st, cap, fb), cap, fb, mix, rms, fuel - 1);
    }
  }

  /**
   * The incremental `square_sum` of the energy loop is, when the loop ends,
   * still the sum of squares of the line.
   */
  lemma {:induction false} DrainKeepsSum(st: LineState, cap: nat, fb: real, mix: real, rms: (real, nat) -> real, fuel: nat)
    requires Delay.Bookkept(st.line, st.squareSum, cap)
    ensures var run := Drain(st, cap, fb, mix, rms, fuel);
            run.last.squareSum == SumSquares(run.last.line)
    decreases fuel
  {
    if rms(st.squareSum, cap) > Silence && fuel > 0 {
      var next := Rotated(st, cap, fb);
      assert Delay.Bookkept(next.line, next.squareSum, cap) by {
        Delay.BookkeptStep(st.line, st.squareSum, cap, fb);
      }
      DrainStep(st, cap, fb, mix, rms, fuel);
      DrainKeepsSum(next, cap, fb, mix, rms, fuel - 1);
    }
  }

  /** `out` is what the fixed tail emits from the `j + 1`-th rotation of `first` on. */
  ghost predicate FollowsRotations(out: seq<real>, first: seq<real>, j: nat, cap: nat, fb: real, mix: real)
    requires Delay.LineOk(first, cap)
  {
    forall i :: 0 <= i < |out| ==> out[i] == Scale(Delay.Rotations(first, j + i + 1, cap, fb)[0], mix)
  }

  lemma FollowsRotationsCons(x: real, rest: seq<real>, first: seq<real>, j: nat, cap: nat, fb: real, mix: real)
    requires Delay.LineOk(first, cap)
    requires x == Scale(Delay.Rotations(first, j + 1, cap, fb)[0], mix)
    requires FollowsRotations(rest, first, j + 1, cap, fb, mix)
    ensures FollowsRotations([x] + rest, first, j, cap, fb, mix)
  {
    var out := [x] + rest;
    forall i | 1 <= i < |out|
      ensures out[i] == Scale(Delay.Rotations(first, j + i + 1, cap, fb)[0], mix)
    {
      assert out[i] == rest[i - 1];
      assert (j + 1) + (i - 1) + 1 == j + i + 1;
    }
  }

  /**
   * The energy loop started on a line that has already turned `j` times
   * emits what the fixed tail would emit from the `j + 1`-th rotation on.
   */
  lemma {:induction false} DrainFollowsRotations(first: seq<real>, j: nat, st: LineState, cap: nat, fb: real, mix: real,
                                                 rms: (real, nat) -> real, fuel: nat)
    requires Delay.LineOk(first, cap) && st.line == Delay.Rotations(first, j, cap, fb)
    ensures FollowsRotations(Drain(st, cap, fb, mix, rms, fuel).emitted, first, j, cap, fb, mix)
    decreases fuel
  {
    if rms(st.squareSum, cap) > Silence && fuel > 0 {
      var next := Rotated(st, cap, fb);
      DrainStep(st, cap, fb, mix, rms, fuel);
      DrainFollowsRotations(first, j + 1, next, cap, fb, mix, rms, fuel - 1);
      FollowsRotationsCons(Scale(next.line[0], mix), Drain(next, cap, fb, mix, rms, fuel - 1).emitted,
                           first, j, cap, fb, mix);
    }
  }

  /** The energy loop emits a prefix of the fixed tail: it differs only in where it stops. */
  lemma DrainIsEchoes(line: seq<real>, squareSum: real, cap: nat, fb: real, mix: real, rms: (real, nat) -> real, fuel: nat)
    requires Delay.LineOk(line, cap)
    ensures var out := Drain(LineState(line, squareSum), cap, fb, mix, rms, fuel).emitted;
            out == Echoes(line, |out|, cap, fb, mix)
  {
    DrainFollowsRotations(line, 0, LineState(line, squareSum), cap, fb, mix, rms, fuel);
  }

  // ---------------------------------------------------------------------
  // The whole effect
  // ---------------------------------------------------------------------

  /** The samples `delay` leaves behind, for a line of size `cap`. */
  function DelayOutput(s: seq<real>, cap: nat, mix: real, fb: real, spec: WavSpec, tail: Option<real>,
                       rms: (real, nat) -> real, fuel: nat): (out: seq<real>)
    requires 1 <= cap
    ensures |out| % 2 == 0 && |s| <= |out|
  {
    var line := LastN([0.0] + Feed(s, cap, fb), cap);
    var appended := match tail
      case Some(t) => Echoes(line, TailCount(t, spec), cap, fb, mix)
      case None => Drain(LineState(line, SumSquares(line)), cap, fb, mix, rms, fuel).emitted;
    PaddedToEven(CombOutput(s, cap, mix, fb) + appended)
  }

  /**
   * Whether the energy loop that follows the comb loop over `s` is cut off
   * by the `fuel` bound instead of falling silent.
   */
  predicate Exhausted(s: seq<real>, cap: nat, fb: real, mix: real, tail: Option<real>,
                      rms: (real, nat) -> real, fuel: nat)
    requires 1 <= cap
  {
    var line := LastN([0.0] + Feed(s, cap, fb), cap);
    tail.None? && Drain(LineState(line, SumSquares(line)), cap, fb, mix, rms, fuel).end == OutOfFuel
  }

  /** How many samples the tail appends: the requested count, or as many as the energy loop emits. */
  function TailLength(line: seq<real>, cap: nat, fb: real, mix: real, spec: WavSpec, tail: Option<real>,
                      rms: (real, nat) -> real, fuel: nat): nat
    requires Delay.LineOk(line, cap)
  {
    match tail
    case Some(t) => TailCount(t, spec)
    case None => |Drain(LineState(line, SumSquares(line)), cap, fb, mix, rms, fuel).emitted|
  }

  /**
   * Both tail modes append the same stream of echoes and differ only in its
   * length: the effect's output is the comb output, then `n` echoes of the
   * line, then the padding, with `n` the requested count in fixed-tail mode
   * and at most `fuel` in energy mode, where the loop's running sum is
   * still the sum of squares of the line when it stops.
   */
  lemma DelayOutputShape(s: seq<real>, cap: nat, mix: real, fb: real, spec: WavSpec, tail: Option<real>,
                         rms: (real, nat) -> real, fuel: nat)
    requires 1 <= cap
    ensures var line := LastN([0.0] + Feed(s, cap, fb), cap);
            var n := TailLength(line, cap, fb, mix, spec, tail, rms, fuel);
      && DelayOutput(s, cap, mix, fb, spec, tail, rms, fuel) == PaddedToEven(CombOutput(s, cap, mix, fb) + Echoes(line, n, cap, fb, mix))
      && (tail.None? ==> n <= fuel)
    ensures tail.None? ==>
      var line := LastN([0.0] + Feed(s, cap, fb), cap);
      var run := Drain(LineState(line, SumSquares(line)), cap, fb, mix, rms, fuel);
      run.last.squareSum == SumSquares(run.last.line)
  {
    var line := LastN([0.0] + Feed(s, cap, fb), cap);
    if tail.None? {
      DrainIsEchoes(line, SumSquares(line), cap, fb, mix, rms, fuel);
      DrainExit(LineState(line, SumSquares(line)), cap, fb, mix, rms, fuel);
      Delay.InitialBookkept(Feed(s, cap, fb), cap);
      DrainKeepsSum(LineState(line, SumSquares(line)), cap, fb, mix, rms, fuel);
    }
  }

  /** The fixed-tail loop (`for _ in 0 .. tail_samples`). */
  method EchoPass(buf: AudioBuffer, line: RingBuffer, n: nat, mix: real, fb: real)
    requires line.Valid() && line.items != []
    modifies buf, line
    ensures line.Valid()
    ensures buf.samples == old(buf.samples) + Echoes(old(line.items), n, line.capacity, fb, mix)
  {
    var cap := line.capacity;
    ghost var start, first := buf.samples, line.items;
    for k := 0 to n
      invariant line.Valid() && line.capacity == cap
      invariant line.items == Delay.Rotations(first, k, cap, fb)
      invariant buf.samples == start + Echoes(first, k, cap, fb, mix)
    {
      line.Enqueue(Scale(line.Front(), fb));
      var x := Scale(line.Front(), mix);
      EchoesGrow(start, first, k, cap, fb, mix);
      buf.samples := buf.samples + [x];
    }
  }

  /**
   * The body of the energy loop: rotate the line, keep the running sum of
   * squares, and return the sample to append. The state it leaves is
   * `Rotated` of the state it found.
   */
  method RotateLine(line: RingBuffer, squareSum: real, mix: real, fb: real, ghost st: LineState)
      returns (newSum: real, x: real)
    requires line.Valid() && line.items != [] && st == LineState(line.items, squareSum)
    modifies line
    ensures line.Valid() && line.items != []
    ensures LineState(line.items, newSum) == Rotated(st, line.capacity, fb)
    ensures x == Scale(line.items[0], mix)
  {
    var frontVal := line.Front();
    newSum := squareSum - Square(frontVal);
    line.Enqueue(Scale(frontVal, fb));
    newSum := newSum + Square(line.Back());
    x := Scale(line.Front(), mix);
  }

  /** The energy loop's invariant survives an iteration that appends `x`. */
  lemma DrainInvariantStep(goal: seq<real>, before: seq<real>, after: seq<real>, st: LineState, next: LineState,
                           x: real, rest: seq<real>, cap: nat, fb: real, mix: real, rms: (real, nat) -> real, fuel: nat)
    requires Delay.LineOk(st.line, cap) && fuel >= 1 && rms(st.squareSum, cap) > Silence
    requires goal == before + Drain(st, cap, fb, mix, rms, fuel).emitted
    requires next == Rotated(st, cap, fb) && x == Scale(next.line[0], mix)
    requires after == before + [x] && rest == Drain(next, cap, fb, mix, rms, fuel - 1).emitted
    ensures goal == after + rest
    ensures Drain(st, cap, fb, mix, rms, fuel).end == Drain(next, cap, fb, mix, rms, fuel - 1).end
  {
    DrainStep(st, cap, fb, mix, rms, fuel);
    Delay.AppendOne(before, x, rest);
  }

  /** The energy loop (`while normalizing_factor * square_sum.sqrt() > 0.0001`), bounded by `fuel` iterations. */
  method DrainPass(buf: AudioBuffer, line: RingBuffer, mix: real, fb: real, rms: (real, nat) -> real, fuel: nat)
      returns (end: End)
    requires line.Valid() && line.items != []
    modifies buf, line
    ensures line.Valid()
    ensures buf.samples == old(buf.samples)
      + Drain(LineState(old(line.items), SumSquares(old(line.items))), line.capacity, fb, mix, rms, fuel).emitted
    ensures end == Drain(LineState(old(line.items), SumSquares(old(line.items))), line.capacity, fb, mix, rms, fuel).end
  {
    var cap := line.capacity;
    var squareSum := line.SquareSum();
    var steps: nat := 0;
    ghost var st := LineState(line.items, squareSum);
    ghost var left := fuel;
    ghost var rest := Drain(st, cap, fb, mix, rms, left).emitted;
    ghost var goal := buf.samples + rest;
    ghost var goalEnd := Drain(st, cap, fb, mix, rms, left).end;
    while steps < fuel && rms(squareSum, cap) > Silence
      invariant line.Valid() && line.capacity == cap && line.items != []
      invariant st == LineState(line.items, squareSum)
      invariant steps <= fuel && left == fuel - steps
      invariant rest == Drain(st, cap, fb, mix, rms, left).emitted
      invariant goal == buf.samples + rest
      invariant Drain(st, cap, fb, mix, rms, left).end == goalEnd
      decreases fuel - steps
    {
      var x;
      squareSum, x := RotateLine(line, squareSum, mix, fb, st);
      ghost var next := LineState(line.items, squareSum);
      ghost var before := buf.samples;
      buf.samples := buf.samples + [x];
      steps := steps + 1;
      ghost var prev, prevLeft := st, left;
      st, left := next, left - 1;
      rest := Drain(st, cap, fb, mix, rms, left).emitted;
      DrainInvariantStep(goal, before, buf.samples, prev, st, x, rest, cap, fb, mix, rms, prevLeft);
    }
    assert goal == buf.samples;
    end := if rms(squareSum, cap) <= Silence then Quiet else OutOfFuel;
  }

  /**
   * `delay`. Every panic (`unwrap`, `expect`, `panic!`, a zero-capacity
   * line) happens before any sample is touched; otherwise the samples
   * become `DelayOutput`, and the call is `Applied` unless the energy loop
   * was cut off by the `fuel` bound.
   */
  method Apply(buf: AudioBuffer, args: map<string, Option<string>>, tail: Option<real>,
               parseFloat: string -> Option<real>, parseInt: string -> Option<int>,
               rms: (real, nat) -> real, fuel: nat) returns (r: Applied)
    modifies buf
    ensures var checked := Checked(args, tail, buf.spec, parseFloat, parseInt);
      && (checked.Err? ==> r == Panicked(checked.error) && buf.samples == old(buf.samples))
      && (checked.Ok? ==>
            !r.Panicked?
            && buf.samples == DelayOutput(old(buf.samples), checked.value.size, checked.value.mix,
                                          checked.value.feedback, buf.spec, tail, rms, fuel)
            && (r == Unfinished <==> Exhausted(old(buf.samples), checked.value.size, checked.value.feedback,
                                               checked.value.mix, tail, rms, fuel)))
  {
    var mix := Argument(args, MixKey, parseFloat);
    if mix.Err? { return Panicked(mix.error); }
    var feedback := Argument(args, FeedbackKey, parseFloat);
    if feedback.Err? { return Panicked(feedback.error); }
    var time := Argument(args, TimeKey, parseInt);
    if time.Err? { return Panicked(time.error); }
    if feedback.value >= 1.0 && tail.None? { return Panicked(UnboundedFeedback); }
    var size := Delay.RingSize(time.value as real, buf.spec);
    if size == 0 { return Panicked(ZeroCapacityLine); }
    var line := new RingBuffer(size);
    line.Enqueue(0.0);
    CombPass(buf, line, mix.value, feedback.value);
    var end := Quiet;
    match tail {
      case Some(t) =>
        EchoPass(buf, line, TailCount(t, buf.spec), mix.value, feedback.value);
      case None =>
        end := DrainPass(buf, line, mix.value, feedback.value, rms, fuel);
    }
    if |buf.samples| % 2 != 0 {
      buf.samples := buf.samples + [0.0];
    }
    r := if tail.None? && end == OutOfFuel then Unfinished else Applied;
  }
}
