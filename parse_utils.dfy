/**
 * The effect-chain grammar of the current command line: a token
 * `name:key=value:key=value...` becomes an effect name and a map from keys
 * to numbers. Names, keys and values are trimmed and lower-cased; every
 * argument must be exactly one `key=value` pair.
 *
 * The float parse `str::parse::<f32>` is the parameter `parse`, which gives
 * either a number or the parse error's message.
 */
module ParseUtils {
  import opened Wrappers
  import opened Text

  /** A parsed effect: its name and its numeric arguments. */
  datatype EffectSpec = EffectSpec(name: string, arguments: map<string, real>)

  const EmptyName := "empty effect name"

  function MalformedArguments(name: string): string {
    "malformed arguments for effect '" + name + "'"
  }

  function MalformedArgument(arg: string, name: string): string {
    "Malformed argument '" + arg + "' for effect '" + name + "'"
  }

  /** An argument segment the loop accepts: non-empty, one `=`, and a value that parses. */
  predicate WellFormed(arg: string, parse: string -> Result<real, string>) {
    arg != [] && |Split(arg, '=')| == 2 && parse(Normalize(Split(arg, '=')[1])).Ok?
  }

  /**
   * One iteration of the argument loop: reject an empty segment, then a
   * segment that is not one `key=value` pair, then a value that does not
   * parse; otherwise insert (overwriting) the normalized key.
   */
  function Insert(name: string, arg: string, args: map<string, real>, parse: string -> Result<real, string>)
    : (r: Result<map<string, real>, string>)
    ensures arg == [] ==> r == Err(MalformedArguments(name))
    ensures arg != [] && |Split(arg, '=')| != 2 ==> r == Err(MalformedArgument(arg, name))
    ensures r.Ok? <==> WellFormed(arg, parse)
    ensures r.Ok? ==> r.value == args[Normalize(Split(arg, '=')[0]) := parse(Normalize(Split(arg, '=')[1])).value]
  {
    if arg == [] then Err(MalformedArguments(name))
    else
      var pair := Split(arg, '=');
      if |pair| != 2 then Err(MalformedArgument(arg, name))
      else match parse(Normalize(pair[1]))
        case Err(e) => Err(e)
        case Ok(v) => Ok(args[Normalize(pair[0]) := v])
  }

  /** The argument loop over `segs` in order, starting from `args`; the first failing segment decides. */
  function InsertAll(name: string, segs: seq<string>, args: map<string, real>, parse: string -> Result<real, string>)
    : (r: Result<map<string, real>, string>)
    ensures segs == [] ==> r == Ok(args)
    ensures r.Ok? ==> args.Keys <= r.value.Keys
    decreases |segs|
  {
    if segs == [] then Ok(args)
    else match Insert(name, segs[0], args, parse)
      case Err(e) => Err(e)
      case Ok(next) => InsertAll(name, segs[1..], next, parse)
  }

  /** `parse_effect_spec` as a function of the token. */
  function EffectSpecOf(input: string, parse: string -> Result<real, string>): (r: Result<EffectSpec, string>)
    ensures Normalize(Split(input, ':')[0]) == [] ==> r == Err(EmptyName)
    ensures r.Ok? ==> r.value.name == Normalize(Split(input, ':')[0]) && r.value.name != []
  {
    var segs := Split(input, ':');
    var name := Normalize(segs[0]);
    if name == [] then Err(EmptyName)
    else match InsertAll(name, segs[1..], map[], parse)
      case Err(e) => Err(e)
      case Ok(args) => Ok(EffectSpec(name, args))
  }

  /** The argument loop succeeds exactly when every segment is well formed. */
  lemma {:induction false} InsertAllOk(name: string, segs: seq<string>, args: map<string, real>,
                                       parse: string -> Result<real, string>)
    ensures InsertAll(name, segs, args, parse).Ok? <==> forall j :: 0 <= j < |segs| ==> WellFormed(segs[j], parse)
    decreases |segs|
  {
    if segs != [] {
      var r := Insert(name, segs[0], args, parse);
      if r.Ok? {
        InsertAllOk(name, segs[1..], r.value, parse);
        assert forall j :: 1 <= j < |segs| ==> segs[j] == segs[1..][j - 1];
      }
    }
  }

  /** The loop over `segs + [arg]` is the loop over `segs` followed by one more insertion. */
  lemma {:induction false} InsertAllSnoc(name: string, segs: seq<string>, arg: string, args: map<string, real>,
                                         parse: string -> Result<real, string>)
    ensures InsertAll(name, segs + [arg], args, parse)
         == match InsertAll(name, segs, args, parse)
            case Err(e) => Err(e)
            case Ok(m) => Insert(name, arg, m, parse)
    decreases |segs|
  {
    if segs == [] {
      assert [] + [arg] == [arg];
    } else {
      assert (segs + [arg])[0] == segs[0] && (segs + [arg])[1..] == segs[1..] + [arg];
      var r := Insert(name, segs[0], args, parse);
      if r.Ok? {
        InsertAllSnoc(name, segs[1..], arg, r.value, parse);
      }
    }
  }

  /** A repeated key keeps the value of its last occurrence (`HashMap::insert` overwrites). */
  lemma LastWins(name: string, segs: seq<string>, arg: string, args: map<string, real>,
                 parse: string -> Result<real, string>)
    requires InsertAll(name, segs, args, parse).Ok? && WellFormed(arg, parse)
    ensures var r := InsertAll(name, segs + [arg], args, parse);
      && r.Ok?
      && Normalize(Split(arg, '=')[0]) in r.value
      && r.value[Normalize(Split(arg, '=')[0])] == parse(Normalize(Split(arg, '=')[1])).value
  {
    InsertAllSnoc(name, segs, arg, args, parse);
  }

  /** A well-formed token: the name part, then the arguments split on `:`. */
  lemma EffectSpecOk(input: string, parse: string -> Result<real, string>)
    ensures EffectSpecOf(input, parse).Ok? <==>
              Normalize(Split(input, ':')[0]) != []
              && forall j :: 1 <= j < |Split(input, ':')| ==> WellFormed(Split(input, ':')[j], parse)
  {
    var segs := Split(input, ':');
    InsertAllOk(Normalize(segs[0]), segs[1..], map[], parse);
    assert forall j :: 1 <= j < |segs| ==> segs[j] == segs[1..][j - 1];
  }

  /**
   * Any argument segment that is empty (a trailing `:` or `::`) or that does
   * not hold exactly one `=` (a bare flag, `a=b=c`) makes the token an error.
   */
  lemma MalformedSegmentRejected(input: string, parse: string -> Result<real, string>, j: nat)
    requires 1 <= j < |Split(input, ':')|
    requires Split(input, ':')[j] == [] || Count(Split(input, ':')[j], '=') != 1
    ensures EffectSpecOf(input, parse).Err?
  {
    SplitPieces(Split(input, ':')[j], '=');
    EffectSpecOk(input, parse);
  }

  /** A token without `:` names an effect with no arguments. */
  lemma NoArguments(input: string, parse: string -> Result<real, string>)
    requires ':' !in input && Normalize(input) != []
    ensures EffectSpecOf(input, parse) == Ok(EffectSpec(Normalize(input), map[]))
  {
    SplitWithoutSeparator(input, ':');
    assert Split(input, ':')[1..] == [];
  }

  /** A `key=value` segment inserts the normalized key with the parsed, normalized value. */
  lemma KeyValue(name: string, arg: string, p: nat, args: map<string, real>, parse: string -> Result<real, string>)
    requires p < |arg| && arg[p] == '=' && '=' !in arg[..p] && '=' !in arg[p + 1..]
    requires parse(Normalize(arg[p + 1..])).Ok?
    ensures Insert(name, arg, args, parse) == Ok(args[Normalize(arg[..p]) := parse(Normalize(arg[p + 1..])).value])
  {
    SplitOnce(arg, '=', p);
  }

  /** `parse_effect_spec`: split on `:`, check the name, then insert each argument in order. */
  method ParseEffectSpec(input: string, parse: string -> Result<real, string>) returns (r: Result<EffectSpec, string>)
    ensures r == EffectSpecOf(input, parse)
  {
    var segs := Split(input, ':');
    var name := Normalize(segs[0]);
    if name == [] {
      return Err(EmptyName);
    }
    var args: map<string, real> := map[];
    for i := 1 to |segs|
      invariant InsertAll(name, segs[i..], args, parse) == InsertAll(name, segs[1..], map[], parse)
    {
      assert segs[i..][0] == segs[i] && segs[i..][1..] == segs[i + 1..];
      var arg := segs[i];
      if arg == [] {
        return Err(MalformedArguments(name));
      }
      var pair := Split(arg, '=');
      if |pair| != 2 {
        return Err(MalformedArgument(arg, name));
      }
      var value := parse(Normalize(pair[1]));
      if value.Err? {
        return Err(value.error);
      }
      args := args[Normalize(pair[0]) := value.value];
    }
    assert segs[|segs|..] == [];
    r := Ok(EffectSpec(name, args));
  }

  /**
   * `parse_effects`: one spec per token, in order, or the error of the
   * first token that fails.
   */
  method ParseEffects(inputs: seq<string>, parse: string -> Result<real, string>) returns (r: Result<seq<EffectSpec>, string>)
    ensures r.Ok? <==> forall i :: 0 <= i < |inputs| ==> EffectSpecOf(inputs[i], parse).Ok?
    ensures r.Ok? ==> |r.value| == |inputs| && forall i :: 0 <= i < |inputs| ==> EffectSpecOf(inputs[i], parse) == Ok(r.value[i])
    ensures r.Err? ==> exists j :: 0 <= j < |inputs| && EffectSpecOf(inputs[j], parse) == Err(r.error)
                                   && forall i :: 0 <= i < j ==> EffectSpecOf(inputs[i], parse).Ok?
  {
    var result: seq<EffectSpec> := [];
    for k := 0 to |inputs|
      invariant |result| == k
      invariant forall i :: 0 <= i < k ==> EffectSpecOf(inputs[i], parse) == Ok(result[i])
    {
      var spec := ParseEffectSpec(inputs[k], parse);
      if spec.Err? {
        assert forall i :: 0 <= i < k ==> EffectSpecOf(inputs[i], parse).Ok?;
        assert EffectSpecOf(inputs[k], parse) == Err(spec.error);
        return Err(spec.error);
      }
      result := result + [spec.value];
    }
    r := Ok(result);
  }
}
