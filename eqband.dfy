/**
 * The peaking-EQ effect (`eqband:freq=..:db=..:q=..`): a biquad difference
 * equation run in place over the interleaved samples.
 *
 * The coefficient design (`powf`, `sin`, `cos`, `PI`) is the parameter
 * `design(sampleRate, freq, db, q)`, which yields the five coefficients
 * already divided by `a0`.
 */
module EqBand {
  import opened Wrappers
  import opened Audio

  const CommandName := "eqband"
  const DbName := "db"
  const FreqName := "freq"
  const QName := "q"

  /** `EqBand::validate_arguments`: every argument map is accepted. */
  function ValidateArguments(args: map<string, real>, tail: Option<real>): (r: Result<(), string>)
    ensures r.Ok?
  {
    Ok(())
  }

  /** The normalized coefficients `b0/a0, b1/a0, b2/a0, a1/a0, a2/a0`. */
  datatype Biquad = Biquad(b0: real, b1: real, b2: real, a1: real, a2: real)

  /** `s[k]`, or `0.0` before the start of the stream (the zeroed history). */
  function At(s: seq<real>, k: int): real {
    if 0 <= k < |s| then s[k] else 0.0
  }

  /** One output of the difference equation from the input and the two-step history. */
  function Output(c: Biquad, x0: real, x1: real, x2: real, y1: real, y2: real): (y0: real)
    ensures x1 == 0.0 && x2 == 0.0 && y1 == 0.0 && y2 == 0.0 ==> y0 == c.b0 * x0
    ensures x0 == 0.0 && x1 == 0.0 && x2 == 0.0 && y1 == 0.0 && y2 == 0.0 ==> y0 == 0.0
  {
    c.b0 * x0 + c.b1 * x1 + c.b2 * x2 - c.a1 * y1 - c.a2 * y2
  }

  /**
   * The filtered stream: output `n` is the difference equation applied to
   * input `n`, the two inputs before it and the two outputs before it, all
   * `0.0` before index 0. One history runs over the whole interleaved
   * stream.
   */
  function Filter(x: seq<real>, c: Biquad): (y: seq<real>)
    ensures |y| == |x|
  {
    if x == [] then []
    else
      var n := |x| - 1;
      var y := Filter(x[..n], c);
      y + [Output(c, x[n], At(x, n - 1), At(x, n - 2), At(y, n - 1), At(y, n - 2))]
  }

  /** The filter is causal: the outputs for a prefix are the prefix of the outputs. */
  lemma {:induction false} FilterPrefix(x: seq<real>, c: Biquad, k: nat)
    requires k <= |x|
    ensures Filter(x[..k], c) == Filter(x, c)[..k]
    decreases |x|
  {
    if k < |x| {
      var init := x[..|x| - 1];
      FilterPrefix(init, c, k);
      assert init[..k] == x[..k];
    } else {
      assert x[..k] == x;
    }
  }

  /** Output `n` is the recurrence over the whole input and output streams. */
  lemma FilterAt(x: seq<real>, c: Biquad, n: nat)
    requires n < |x|
    ensures var y := Filter(x, c);
            y[n] == Output(c, x[n], At(x, n - 1), At(x, n - 2), At(y, n - 1), At(y, n - 2))
  {
    var y := Filter(x, c);
    var p := x[..n + 1];
    FilterPrefix(x, c, n + 1);
    FilterPrefix(x, c, n);
    assert p[..n] == x[..n];
    var yp := Filter(x[..n], c);
    assert At(p, n - 1) == At(x, n - 1) && At(p, n - 2) == At(x, n - 2);
    assert At(yp, n - 1) == At(y, n - 1) && At(yp, n - 2) == At(y, n - 2);
  }

  /** With a zeroed history the first output is `b0/a0` times the first input. */
  lemma FilterFirst(x: seq<real>, c: Biquad)
    requires x != []
    ensures Filter(x, c)[0] == c.b0 * x[0]
  {
    FilterAt(x, c, 0);
    var y := Filter(x, c);
    assert At(x, -1) == 0.0 && At(x, -2) == 0.0 && At(y, -1) == 0.0 && At(y, -2) == 0.0;
  }

  /**
   * The history is shared across channels: in a stereo frame `[l, r]` the
   * right sample's output depends on the left sample.
   */
  lemma ChannelsShareHistory(l: real, r: real, c: Biquad)
    ensures Filter([l, r], c)[1] == c.b0 * r + c.b1 * l - c.a1 * (c.b0 * l)
  {
    FilterAt([l, r], c, 1);
    FilterFirst([l, r], c);
  }

  /** Silence in, silence out. */
  lemma {:induction false} FilterSilence(x: seq<real>, c: Biquad)
    requires forall i :: 0 <= i < |x| ==> x[i] == 0.0
    ensures forall i :: 0 <= i < |x| ==> Filter(x, c)[i] == 0.0
    decreases |x|
  {
    if x != [] {
      var n := |x| - 1;
      FilterSilence(x[..n], c);
      var y := Filter(x[..n], c);
      assert At(y, n - 1) == 0.0 && At(y, n - 2) == 0.0;
      assert Filter(x, c) == y + [Output(c, x[n], At(x, n - 1), At(x, n - 2), 0.0, 0.0)];
    }
  }

  /** The sample loop of `EqBand::apply_effect`, in place, with the history in four variables. */
  method FilterPass(buf: AudioBuffer, c: Biquad)
    modifies buf
    ensures buf.samples == Filter(old(buf.samples), c)
  {
    ghost var s := buf.samples;
    ghost var y := Filter(s, c);
    var n := |buf.samples|;
    var x1, x2, y1, y2 := 0.0, 0.0, 0.0, 0.0;
    for i := 0 to n
      invariant |buf.samples| == n
      invariant forall j :: 0 <= j < i ==> buf.samples[j] == y[j]
      invariant forall j :: i <= j < n ==> buf.samples[j] == s[j]
      invariant x1 == At(s, i - 1) && x2 == At(s, i - 2)
      invariant y1 == At(y, i - 1) && y2 == At(y, i - 2)
    {
      var x0 := buf.samples[i];
      var y0 := c.b0 * x0 + c.b1 * x1 + c.b2 * x2 - c.a1 * y1 - c.a2 * y2;
      FilterAt(s, c, i);
      buf.samples := buf.samples[i := y0];
      x2 := x1;
      x1 := x0;
      y2 := y1;
      y1 := y0;
    }
  }

  /**
   * `EqBand::apply_effect`: `freq`, `db` and `q` are unwrapped in that
   * order (a missing one panics before any sample is touched), then every
   * sample is replaced by the filter's output.
   */
  method ApplyEffect(buf: AudioBuffer, args: map<string, real>, tail: Option<real>,
                     design: (real, real, real, real) -> Biquad) returns (r: Applied)
    modifies buf
    ensures FreqName !in args ==> r == Panicked(MissingArgument(FreqName))
    ensures FreqName in args && DbName !in args ==> r == Panicked(MissingArgument(DbName))
    ensures FreqName in args && DbName in args && QName !in args ==> r == Panicked(MissingArgument(QName))
    ensures r.Panicked? ==> buf.samples == old(buf.samples)
    ensures r == Applied <==> FreqName in args && DbName in args && QName in args
    ensures r == Applied ==>
      buf.samples == Filter(old(buf.samples), design(buf.spec.sampleRate as real, args[FreqName], args[DbName], args[QName]))
  {
    if FreqName !in args { return Panicked(MissingArgument(FreqName)); }
    if DbName !in args { return Panicked(MissingArgument(DbName)); }
    if QName !in args { return Panicked(MissingArgument(QName)); }
    var c := design(buf.spec.sampleRate as real, args[FreqName], args[DbName], args[QName]);
    FilterPass(buf, c);
    r := Applied;
  }
}
