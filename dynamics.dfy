/**
 * The `gain` and `distortion` effects: both read a decibel value from the
 * `db` argument and rewrite every sample in place, by a common factor or
 * through a saturating curve.
 *
 * The float parse `str::parse::<f32>` is the parameter `parse`,
 * `10.0_f32.powf(x)` the parameter `pow10`, and `f32::tanh` the parameter
 * `tanh`.
 */
module Dynamics {
  import opened Wrappers
  import opened Audio

  const DbKey := "db"
  const DbNotProvided := "required gain parameter 'db' not provided"
  const DbEmpty := "required gain parameter 'db' is empty"
  const ParseFailurePrefix := "failed to parse value "

  /**
   * The `db` extraction both effects share: the key must be present, carry
   * a value, and that value must parse; each failure has its own message.
   */
  function ExtractDb(args: map<string, Option<string>>, parse: string -> Option<real>): (r: Result<real, string>)
    ensures DbKey !in args ==> r == Err(DbNotProvided)
    ensures DbKey in args && args[DbKey].None? ==> r == Err(DbEmpty)
    ensures DbKey in args && args[DbKey].Some? && parse(args[DbKey].value).None? ==>
              r == Err(ParseFailurePrefix + args[DbKey].value)
    ensures r.Ok? <==> DbKey in args && args[DbKey].Some? && parse(args[DbKey].value).Some?
    ensures r.Ok? ==> r.value == parse(args[DbKey].value).value
  {
    if DbKey !in args then Err(DbNotProvided)
    else match args[DbKey]
      case None => Err(DbEmpty)
      case Some(text) =>
        match parse(text)
        case None => Err(ParseFailurePrefix + text)
        case Some(db) => Ok(db)
  }

  /** `10^(db / 20)`: the amplitude factor of a decibel value. */
  function Factor(db: real, pow10: real -> real): (f: real)
    ensures db == 0.0 && pow10(0.0) == 1.0 ==> f == 1.0
  {
    pow10(db / 20.0)
  }

  /** Every sample times `factor`. */
  function Amplified(s: seq<real>, factor: real): (r: seq<real>)
    ensures |r| == |s|
  {
    seq(|s|, i requires 0 <= i < |s| => Scale(s[i], factor))
  }

  /** Every sample times `factor`, then through `tanh`. */
  function Saturated(s: seq<real>, factor: real, tanh: real -> real): (r: seq<real>)
    ensures |r| == |s|
  {
    seq(|s|, i requires 0 <= i < |s| => tanh(Scale(s[i], factor)))
  }

  /** A gain of 0 dB (a factor of one) leaves every sample as it was. */
  lemma ZeroDbIsIdentity(s: seq<real>, pow10: real -> real)
    requires pow10(0.0) == 1.0
    ensures Amplified(s, Factor(0.0, pow10)) == s
  {
    assert 0.0 / 20.0 == 0.0;
  }

  /**
   * Two gains in a row are one gain of the summed decibels, given the
   * exponential law for the two values involved.
   */
  lemma GainsCompose(s: seq<real>, db1: real, db2: real, pow10: real -> real)
    requires pow10((db1 + db2) / 20.0) == pow10(db1 / 20.0) * pow10(db2 / 20.0)
    ensures Amplified(Amplified(s, Factor(db1, pow10)), Factor(db2, pow10)) == Amplified(s, Factor(db1 + db2, pow10))
  {
    var f1, f2 := Factor(db1, pow10), Factor(db2, pow10);
    forall i | 0 <= i < |s|
      ensures Amplified(Amplified(s, f1), f2)[i] == Amplified(s, Factor(db1 + db2, pow10))[i]
    {
      assert Scale(Scale(s[i], f1), f2) == s[i] * (f1 * f2);
    }
  }

  /** With a `tanh` bounded by one, every distorted sample lies strictly inside (-1, 1). */
  lemma SaturatedBounded(s: seq<real>, factor: real, tanh: real -> real)
    requires forall v :: -1.0 < tanh(v) < 1.0
    ensures forall i :: 0 <= i < |s| ==> -1.0 < Saturated(s, factor, tanh)[i] < 1.0
  {
  }

  /** With `tanh(0) = 0`, silence stays silent under distortion. */
  lemma SaturatedSilence(s: seq<real>, factor: real, tanh: real -> real)
    requires tanh(0.0) == 0.0
    requires forall i :: 0 <= i < |s| ==> s[i] == 0.0
    ensures Saturated(s, factor, tanh) == s
  {
    forall i | 0 <= i < |s| ensures Saturated(s, factor, tanh)[i] == s[i] {
      assert Scale(s[i], factor) == 0.0;
    }
  }

  /** The scaling loop of `gain`, in place. */
  method AmplifyPass(buf: AudioBuffer, factor: real)
    modifies buf
    ensures buf.samples == Amplified(old(buf.samples), factor)
  {
    ghost var s := buf.samples;
    var n := |buf.samples|;
    for i := 0 to n
      invariant |buf.samples| == n
      invariant forall j :: 0 <= j < i ==> buf.samples[j] == Scale(s[j], factor)
      invariant forall j :: i <= j < n ==> buf.samples[j] == s[j]
    {
      buf.samples := buf.samples[i := Scale(buf.samples[i], factor)];
    }
  }

  /** The saturation loop of `distortion`, in place. */
  method SaturatePass(buf: AudioBuffer, factor: real, tanh: real -> real)
    modifies buf
    ensures buf.samples == Saturated(old(buf.samples), factor, tanh)
  {
    ghost var s := buf.samples;
    var n := |buf.samples|;
    for i := 0 to n
      invariant |buf.samples| == n
      invariant forall j :: 0 <= j < i ==> buf.samples[j] == tanh(Scale(s[j], factor))
      invariant forall j :: i <= j < n ==> buf.samples[j] == s[j]
    {
      buf.samples := buf.samples[i := tanh(Scale(buf.samples[i], factor))];
    }
  }

  /**
   * `gain`: on an argument error the message is returned and no sample is
   * touched; otherwise every sample is multiplied by `10^(db / 20)`.
   */
  method Gain(buf: AudioBuffer, args: map<string, Option<string>>, parse: string -> Option<real>,
              pow10: real -> real) returns (r: Result<(), string>)
    modifies buf
    ensures var db := ExtractDb(args, parse);
      && (db.Err? ==> r == Err(db.error) && buf.samples == old(buf.samples))
      && (db.Ok? ==> r == Ok(()) && buf.samples == Amplified(old(buf.samples), Factor(db.value, pow10)))
  {
    var db := ExtractDb(args, parse);
    if db.Err? {
      return Err(db.error);
    }
    var factor := pow10(db.value / 20.0);
    AmplifyPass(buf, factor);
    r := Ok(());
  }

  /**
   * `distortion`: the same argument errors as `gain`; otherwise every
   * sample becomes `tanh(sample * 10^(db / 20))`.
   */
  method Distortion(buf: AudioBuffer, args: map<string, Option<string>>, parse: string -> Option<real>,
                    pow10: real -> real, tanh: real -> real) returns (r: Result<(), string>)
    modifies buf
    ensures var db := ExtractDb(args, parse);
      && (db.Err? ==> r == Err(db.error) && buf.samples == old(buf.samples))
      && (db.Ok? ==> r == Ok(()) && buf.samples == Saturated(old(buf.samples), Factor(db.value, pow10), tanh))
  {
    var db := ExtractDb(args, parse);
    if db.Err? {
      return Err(db.error);
    }
    var factor := pow10(db.value / 20.0);
    SaturatePass(buf, factor, tanh);
    r := Ok(());
  }
}
