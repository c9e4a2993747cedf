/**
 * The legacy effect-chain grammar: a token `name:key=value:flag...` becomes
 * an effect name and a map from keys to optional text values. A bare key is
 * a flag (no value); names, keys and values are trimmed and lower-cased;
 * values stay strings.
 */
module EffectParser {
  import opened Wrappers
  import opened Text
  import ParseUtils

  /** A parsed effect: its name and its arguments, `None` for a bare flag. */
  datatype EffectSpec = EffectSpec(effectName: string, arguments: map<string, Option<string>>)

  const EmptyName := "empty effect name"

  function MalformedArguments(name: string): string {
    "malformed arguments for effect '" + name + "'"
  }

  function MalformedArgument(arg: string, name: string): string {
    "malformed argument '" + arg + "' for effect '" + name + "'"
  }

  /** An argument segment the loop accepts: non-empty, with at most one `=`. */
  predicate WellFormed(arg: string) {
    arg != [] && |Split(arg, '=')| <= 2
  }

  /**
   * One iteration of the argument loop: reject an empty segment; a segment
   * without `=` inserts its key as a flag, one with a single `=` inserts its
   * key with the value; more than one `=` is an error.
   */
  function Insert(name: string, arg: string, args: map<string, Option<string>>)
    : (r: Result<map<string, Option<string>>, string>)
    ensures arg == [] ==> r == Err(MalformedArguments(name))
    ensures arg != [] && |Split(arg, '=')| > 2 ==> r == Err(MalformedArgument(arg, name))
    ensures r.Ok? <==> WellFormed(arg)
    ensures r.Ok? && |Split(arg, '=')| == 1 ==> r.value == args[Normalize(arg) := None]
    ensures r.Ok? && |Split(arg, '=')| == 2 ==>
              r.value == args[Normalize(Split(arg, '=')[0]) := Some(Normalize(Split(arg, '=')[1]))]
  {
    if arg == [] then Err(MalformedArguments(name))
    else
      var pair := Split(arg, '=');
      if |pair| == 1 then
        assert pair[0] == arg by { SplitJoin(arg, '='); }
        Ok(args[Normalize(pair[0]) := None])
      else if |pair| == 2 then Ok(args[Normalize(pair[0]) := Some(Normalize(pair[1]))])
      else Err(MalformedArgument(arg, name))
  }

  /** The argument loop over `segs` in order, starting from `args`; the first failing segment decides. */
  function InsertAll(name: string, segs: seq<string>, args: map<string, Option<string>>)
    : (r: Result<map<string, Option<string>>, string>)
    ensures segs == [] ==> r == Ok(args)
    ensures r.Ok? ==> args.Keys <= r.value.Keys
    decreases |segs|
  {
    if segs == [] then Ok(args)
    else match Insert(name, segs[0], args)
      case Err(e) => Err(e)
      case Ok(next) => InsertAll(name, segs[1..], next)
  }

  /** `parse_effect_spec` as a function of the token. */
  function EffectSpecOf(input: string): (r: Result<EffectSpec, string>)
    ensures Normalize(Split(input, ':')[0]) == [] ==> r == Err(EmptyName)
    ensures r.Ok? ==> r.value.effectName == Normalize(Split(input, ':')[0]) && r.value.effectName != []
  {
    var segs := Split(input, ':');
    var name := Normalize(segs[0]);
    if name == [] then Err(EmptyName)
    else match InsertAll(name, segs[1..], map[])
      case Err(e) => Err(e)
      case Ok(args) => Ok(EffectSpec(name, args))
  }

  /** The argument loop succeeds exactly when every segment is well formed. */
  lemma {:induction false} InsertAllOk(name: string, segs: seq<string>, args: map<string, Option<string>>)
    ensures InsertAll(name, segs, args).Ok? <==> forall j :: 0 <= j < |segs| ==> WellFormed(segs[j])
    decreases |segs|
  {
    if segs != [] {
      var r := Insert(name, segs[0], args);
      if r.Ok? {
        InsertAllOk(name, segs[1..], r.value);
        assert forall j :: 1 <= j < |segs| ==> segs[j] == segs[1..][j - 1];
      }
    }
  }

  /** The loop over `segs + [arg]` is the loop over `segs` followed by one more insertion. */
  lemma {:induction false} InsertAllSnoc(name: string, segs: seq<string>, arg: string, args: map<string, Option<string>>)
    ensures InsertAll(name, segs + [arg], args)
         == match InsertAll(name, segs, args)
            case Err(e) => Err(e)
            case Ok(m) => Insert(name, arg, m)
    decreases |segs|
  {
    if segs == [] {
      assert [] + [arg] == [arg];
    } else {
      assert (segs + [arg])[0] == segs[0] && (segs + [arg])[1..] == segs[1..] + [arg];
      var r := Insert(name, segs[0], args);
      if r.Ok? {
        InsertAllSnoc(name, segs[1..], arg, r.value);
      }
    }
  }

  /** A repeated key keeps its last occurrence, flag or value (`HashMap::insert` overwrites). */
  lemma LastWins(name: string, segs: seq<string>, arg: string, args: map<string, Option<string>>)
    requires InsertAll(name, segs, args).Ok? && WellFormed(arg)
    ensures var r := InsertAll(name, segs + [arg], args);
      && r.Ok?
      && Normalize(Split(arg, '=')[0]) in r.value
      && r.value[Normalize(Split(arg, '=')[0])]
         == (if |Split(arg, '=')| == 1 then None else Some(Normalize(Split(arg, '=')[1])))
  {
    InsertAllSnoc(name, segs, arg, args);
    SplitJoin(arg, '=');
  }

  /** A well-formed token: a non-blank name part, then well-formed arguments. */
  lemma EffectSpecOk(input: string)
    ensures EffectSpecOf(input).Ok? <==>
              Normalize(Split(input, ':')[0]) != []
              && forall j :: 1 <= j < |Split(input, ':')| ==> WellFormed(Split(input, ':')[j])
  {
    var segs := Split(input, ':');
    InsertAllOk(Normalize(segs[0]), segs[1..], map[]);
    assert forall j :: 1 <= j < |segs| ==> segs[j] == segs[1..][j - 1];
  }

  /** An empty argument segment, or one with two or more `=`, makes the token an error. */
  lemma MalformedSegmentRejected(input: string, j: nat)
    requires 1 <= j < |Split(input, ':')|
    requires Split(input, ':')[j] == [] || Count(Split(input, ':')[j], '=') >= 2
    ensures EffectSpecOf(input).Err?
  {
    SplitPieces(Split(input, ':')[j], '=');
    EffectSpecOk(input);
  }

  /** A token without `:` names an effect with no arguments. */
  lemma NoArguments(input: string)
    requires ':' !in input && Normalize(input) != []
    ensures EffectSpecOf(input) == Ok(EffectSpec(Normalize(input), map[]))
  {
    SplitWithoutSeparator(input, ':');
    assert Split(input, ':')[1..] == [];
  }

  /** A non-empty segment without `=` is a flag: its normalized key maps to `None`. */
  lemma BareFlag(name: string, arg: string, args: map<string, Option<string>>)
    requires arg != [] && '=' !in arg
    ensures Insert(name, arg, args) == Ok(args[Normalize(arg) := None])
  {
    SplitWithoutSeparator(arg, '=');
  }

  /** A segment with one `=` maps the normalized key to the normalized value text. */
  lemma KeyValue(name: string, arg: string, p: nat, args: map<string, Option<string>>)
    requires p < |arg| && arg[p] == '=' && '=' !in arg[..p] && '=' !in arg[p + 1..]
    ensures Insert(name, arg, args) == Ok(args[Normalize(arg[..p]) := Some(Normalize(arg[p + 1..]))])
  {
    SplitOnce(arg, '=', p);
  }

  /**
   * The current grammar is the stricter one: a token it accepts is accepted
   * here too, with the same name and the same keys.
   */
  lemma {:induction false} StrictArgumentsAccepted(name: string, segs: seq<string>, strict: map<string, real>,
                                                   args: map<string, Option<string>>,
                                                   parse: string -> Result<real, string>)
    requires strict.Keys == args.Keys
    requires ParseUtils.InsertAll(name, segs, strict, parse).Ok?
    ensures InsertAll(name, segs, args).Ok?
    ensures InsertAll(name, segs, args).value.Keys == ParseUtils.InsertAll(name, segs, strict, parse).value.Keys
    decreases |segs|
  {
    if segs != [] {
      var s := ParseUtils.Insert(name, segs[0], strict, parse);
      var r := Insert(name, segs[0], args);
      assert r.Ok? && r.value.Keys == s.value.Keys;
      StrictArgumentsAccepted(name, segs[1..], s.value, r.value, parse);
    }
  }

  lemma StrictTokenAccepted(input: string, parse: string -> Result<real, string>)
    requires ParseUtils.EffectSpecOf(input, parse).Ok?
    ensures EffectSpecOf(input).Ok?
    ensures EffectSpecOf(input).value.effectName == ParseUtils.EffectSpecOf(input, parse).value.name
    ensures EffectSpecOf(input).value.arguments.Keys == ParseUtils.EffectSpecOf(input, parse).value.arguments.Keys
  {
    var segs := Split(input, ':');
    StrictArgumentsAccepted(Normalize(segs[0]), segs[1..], map[], map[], parse);
  }

  /** `parse_effect_spec`: split on `:`, check the name, then insert each argument in order. */
  method ParseEffectSpec(input: string) returns (r: Result<EffectSpec, string>)
    ensures r == EffectSpecOf(input)
  {
    var segs := Split(input, ':');
    var name := Normalize(segs[0]);
    if name == [] {
      return Err(EmptyName);
    }
    var args: map<string, Option<string>> := map[];
    for i := 1 to |segs|
      invariant InsertAll(name, segs[i..], args) == InsertAll(name, segs[1..], map[])
    {
      assert segs[i..][0] == segs[i] && segs[i..][1..] == segs[i + 1..];
      var arg := segs[i];
      if arg == [] {
        return Err(MalformedArguments(name));
      }
      var pair := Split(arg, '=');
      if |pair| == 1 {
        args := args[Normalize(pair[0]) := None];
      } else if |pair| == 2 {
        args := args[Normalize(pair[0]) := Some(Normalize(pair[1]))];
      } else {
        return Err(MalformedArgument(arg, name));
      }
    }
    assert segs[|segs|..] == [];
    r := Ok(EffectSpec(name, args));
  }

  /**
   * `parse_effects`: one spec per token, in order, or the error of the
   * first token that fails.
   */
  method ParseEffects(inputs: seq<string>) returns (r: Result<seq<EffectSpec>, string>)
    ensures r.Ok? <==> forall i :: 0 <= i < |inputs| ==> EffectSpecOf(inputs[i]).Ok?
    ensures r.Ok? ==> |r.value| == |inputs| && forall i :: 0 <= i < |inputs| ==> EffectSpecOf(inputs[i]) == Ok(r.value[i])
    ensures r.Err? ==> exists j :: 0 <= j < |inputs| && EffectSpecOf(inputs[j]) == Err(r.error)
                                   && forall i :: 0 <= i < j ==> EffectSpecOf(inputs[i]).Ok?
  {
    var result: seq<EffectSpec> := [];
    for k := 0 to |inputs|
      invariant |result| == k
      invariant forall i :: 0 <= i < k ==> EffectSpecOf(inputs[i]) == Ok(result[i])
    {
      var spec := ParseEffectSpec(inputs[k]);
      if spec.Err? {
        assert forall i :: 0 <= i < k ==> EffectSpecOf(inputs[i]).Ok?;
        assert EffectSpecOf(inputs[k]) == Err(spec.error);
        return Err(spec.error);
      }
      result := result + [spec.value];
    }
    r := Ok(result);
  }
}
