/** `juju_spell/commands/base.py`: the result record of every command, the
    way `run` turns what `execute` does into a result, the default
    pre-check and dry run, and the choice of the models a command visits. */
module Base {
  import opened Common
  import Juju

  /** `Result`: `output` is None (`Null`) unless given. */
  datatype Result = Result(success: bool, output: Value, error: Option<Error>)

  /** What `execute` returns: a plain value, or a `Result` of its own. */
  datatype Output = Returned(value: Value) | Passed(result: Result)

  /** `run`: a plain value is wrapped as a success, a `Result` is handed on
      as it is, and an exception becomes a failed result carrying it. */
  function Run(executed: Try<Output>): (r: Result)
    ensures executed.Raise? ==> r == Result(false, Null, Some(executed.error))
    ensures executed.Ok? && executed.value.Returned? ==> r == Result(true, executed.value.value, None)
    ensures executed.Ok? && executed.value.Passed? ==> r == executed.value.result
  {
    match executed
    case Raise(e) => Result(false, Null, Some(e))
    case Ok(Returned(v)) => Result(true, v, None)
    case Ok(Passed(res)) => res
  }

  /** A result fails exactly when `execute` raised or handed on a failed
      result; running a run result again changes nothing. */
  lemma RunFailure(executed: Try<Output>)
    ensures !Run(executed).success <==>
      executed.Raise? || (executed.value.Passed? && !executed.value.result.success)
    ensures Run(Ok(Passed(Run(executed)))) == Run(executed)
    ensures Run(executed).error.Some? && !executed.Raise? ==> executed.value.Passed?
  {
  }

  /** `run` of a sub-command whose `execute` makes one remote call and
      returns True (`RevokeCommand`, `RevokeModelCommand`): `answer` is
      what the controller answers to that call. */
  function RunCall(answer: Try<()>): (r: Result)
    ensures r.success <==> answer.Ok?
    ensures r.success ==> r.output == Bool(true) && r.error.None?
    ensures !r.success ==> r.error == Some(answer.error)
  {
    Run(if answer.Ok? then Ok(Returned(Bool(true))) else Raise(answer.error))
  }

  /** `pre_check`: nothing to report for a connected controller, a failed
      result naming the controller otherwise. */
  function PreCheck(controller: Juju.Controller): (r: Option<Result>)
    reads controller
    ensures r.None? <==> controller.IsConnected()
    ensures r.Some? ==>
      !r.value.success && r.value.output == Null &&
      r.value.error == Some(JujuSpellError("controller " + controller.uuid + " is not connected"))
  {
    if !controller.IsConnected() then
      Some(Result(false, Null, Some(JujuSpellError("controller " + controller.uuid + " is not connected"))))
    else None
  }

  /** `dry_run`: a success describing the target and the command; `doc` is
      the docstring of the command's `execute`. */
  function DryRun(controller: Juju.Controller, doc: Option<string>): (r: Result)
    reads controller
    ensures r.success && r.error.None? && r.output.Dict?
    ensures r.output.entries.Keys == {"target", "command_doc"}
    ensures r.output.entries["target"] == Str(controller.uuid)
    ensures doc.Some? ==> r.output.entries["command_doc"] == Str(doc.value)
    ensures doc.None? ==> r.output.entries["command_doc"] == Null
  {
    Result(true, Dict(map["target" := Str(controller.uuid),
                          "command_doc" := if doc.Some? then Str(doc.value) else Null]), None)
  }

  // ---------------------------------------------------------------------
  // _apply_model_mappings
  // ---------------------------------------------------------------------

  /** A model mapping as configured: a missing list is None. */
  type Mappings = map<string, Option<seq<string>>>

  /** What one model stands for: its mapped list when that is non-empty,
      else itself; a mapping to None fails on `len`. */
  function Expansion(model: string, mappings: Mappings): (r: Try<seq<string>>)
    ensures r.Raise? <==> model in mappings && mappings[model].None?
    ensures r.Ok? ==> |r.value| > 0
  {
    if model !in mappings then Ok([model])
    else match mappings[model]
      case None => Raise(TypeError("object of type 'NoneType' has no len()"))
      case Some(xs) => if |xs| > 0 then Ok(xs) else Ok([model])
  }

  /** The expansions of the models, in order, concatenated; the first
      model that cannot be expanded decides the error. */
  function Mapped(models: seq<string>, mappings: Mappings): Try<seq<string>>
    decreases |models|
  {
    if |models| == 0 then Ok([])
    else match Expansion(models[0], mappings)
      case Raise(e) => Raise(e)
      case Ok(xs) =>
        match Mapped(models[1..], mappings)
        case Raise(e) => Raise(e)
        case Ok(ys) => Ok(xs + ys)
  }

  /** `_apply_model_mappings(models, model_mappings)`. */
  function ModelsFor(models: seq<string>, mappings: Option<Mappings>): Try<seq<string>>
  {
    if mappings.None? || |mappings.value| == 0 then Ok(models) else Mapped(models, mappings.value)
  }

  /** `_apply_model_mappings`, the loop that extends the result model by
      model. */
  method ApplyModelMappings(models: seq<string>, mappings: Option<Mappings>) returns (r: Try<seq<string>>)
    ensures r == ModelsFor(models, mappings)
    ensures mappings.None? || |mappings.value| == 0 ==> r == Ok(models)
  {
    if mappings.None? || |mappings.value| == 0 {
      return Ok(models);
    }
    var m := mappings.value;
    var results: seq<string> := [];
    var i := 0;
    while i < |models|
      invariant 0 <= i <= |models|
      invariant Mapped(models[..i], m) == Ok(results)
    {
      var expansion := Expansion(models[i], m);
      MappedSnoc(models[..i], models[i], m);
      assert models[..i] + [models[i]] == models[..i + 1];
      if expansion.Raise? {
        MappedPrefixFails(models, m, i + 1);
        return Raise(expansion.error);
      }
      results := results + expansion.value;
      i := i + 1;
    }
    assert models[..i] == models;
    r := Ok(results);
  }

  /** Mapping one more model appends its expansion. */
  lemma {:induction false} MappedSnoc(models: seq<string>, model: string, m: Mappings)
    ensures Mapped(models + [model], m) ==
      match Mapped(models, m)
      case Raise(e) => Raise(e)
      case Ok(xs) =>
        match Expansion(model, m)
        case Raise(e) => Raise(e)
        case Ok(ys) => Ok(xs + ys)
    decreases |models|
  {
    if |models| == 0 {
      assert models + [model] == [model];
      assert [model][1..] == [];
      if Expansion(model, m).Ok? {
        assert Expansion(model, m).value + [] == [] + Expansion(model, m).value;
      }
    } else {
      assert (models + [model])[1..] == models[1..] + [model];
      MappedSnoc(models[1..], model, m);
      match Mapped(models[1..], m)
      case Raise(_) =>
      case Ok(rest) =>
        match Expansion(model, m)
        case Raise(_) =>
        case Ok(ys) =>
          match Expansion(models[0], m)
          case Raise(_) =>
          case Ok(xs) => assert xs + (rest + ys) == (xs + rest) + ys;
    }
  }

  /** Once a prefix fails, the whole list fails the same way. */
  lemma {:induction false} MappedPrefixFails(models: seq<string>, m: Mappings, n: nat)
    requires n <= |models| && Mapped(models[..n], m).Raise?
    ensures Mapped(models, m) == Mapped(models[..n], m)
    decreases n
  {
    assert n > 0;
    assert models[..n][1..] == models[1..][..n - 1];
    if Expansion(models[0], m).Ok? {
      MappedPrefixFails(models[1..], m, n - 1);
    }
  }

  /** Models that have no mapping are kept as they are, in order. */
  lemma {:induction false} MappedUnmapped(models: seq<string>, m: Mappings)
    requires forall i :: 0 <= i < |models| ==> models[i] !in m
    ensures Mapped(models, m) == Ok(models)
    decreases |models|
  {
    if |models| > 0 {
      MappedUnmapped(models[1..], m);
      assert [models[0]] + models[1..] == models;
    }
  }

  /** The expansion of a concatenation is the concatenation of the
      expansions. */
  lemma {:induction false} MappedConcat(a: seq<string>, b: seq<string>, m: Mappings)
    requires Mapped(a, m).Ok? && Mapped(b, m).Ok?
    ensures Mapped(a + b, m) == Ok(Mapped(a, m).value + Mapped(b, m).value)
    decreases |a|
  {
    if |a| == 0 {
      assert a + b == b;
      assert [] + Mapped(b, m).value == Mapped(b, m).value;
    } else {
      assert (a + b)[1..] == a[1..] + b;
      MappedConcat(a[1..], b, m);
      var xs := Expansion(a[0], m).value;
      assert xs + (Mapped(a[1..], m).value + Mapped(b, m).value)
          == (xs + Mapped(a[1..], m).value) + Mapped(b, m).value;
    }
  }

  // ---------------------------------------------------------------------
  // get_filtered_models
  // ---------------------------------------------------------------------

  /** The model names `get_filtered_models` visits, in order: every model
      of the controller (`listed`, its answer to `list_models`) when no
      models are asked for, else the asked-for models after mapping. */
  function FilteredModelNames(models: Option<seq<string>>, mappings: Option<Mappings>, listed: Try<seq<string>>)
    : (r: Try<seq<string>>)
    ensures models.None? || |models.value| == 0 ==> r == listed
    ensures models.Some? && |models.value| > 0 ==> r == ModelsFor(models.value, mappings)
  {
    if models.None? || |models.value| == 0 then listed else ModelsFor(models.value, mappings)
  }

  /** The remote calls choosing the names makes: `list_models` only when
      no models are asked for. */
  function ListingCalls(models: Option<seq<string>>): seq<Juju.Call>
  {
    if models.None? || |models.value| == 0 then [Juju.ListModels] else []
  }

  /** `controller.get_model(name)`: `site` holds the controller's models by
      name; any other name is refused. */
  function GetModel(site: map<string, Juju.Model>, name: string): (r: Try<Juju.Model>)
    ensures r.Ok? <==> name in site
    ensures r.Ok? ==> r.value == site[name]
    ensures r.Raise? ==> r.error == ModelNotFound(name)
  {
    if name in site then Ok(site[name]) else Raise(ModelNotFound(name))
  }

  /** What the controller raises for a model it does not have. */
  function ModelNotFound(name: string): Error
  {
    RemoteError("model not found: " + name)
  }

  /** The calls of a full pass over the models by a consumer that makes
      the calls `body` gives for each model: every model is fetched, worked
      on, and disconnected once, in order. */
  function VisitCalls(names: seq<string>, site: map<string, Juju.Model>, body: Juju.Model -> seq<Juju.Call>)
    : seq<Juju.Call>
    requires forall i :: 0 <= i < |names| ==> names[i] in site
  {
    if |names| == 0 then []
    else
      [Juju.GetModel(names[0])] + body(site[names[0]]) + [Juju.DisconnectModel(names[0])]
        + VisitCalls(names[1..], site, body)
  }

  /** The models the calls disconnect, in order. */
  function Disconnected(calls: seq<Juju.Call>): seq<string>
  {
    if |calls| == 0 then []
    else (if calls[0].DisconnectModel? then [calls[0].model] else []) + Disconnected(calls[1..])
  }

  /** The models the calls fetch, in order. */
  function Fetched(calls: seq<Juju.Call>): seq<string>
  {
    if |calls| == 0 then []
    else (if calls[0].GetModel? then [calls[0].model] else []) + Fetched(calls[1..])
  }

  lemma {:induction false} DisconnectedFetchedConcat(a: seq<Juju.Call>, b: seq<Juju.Call>)
    ensures Disconnected(a + b) == Disconnected(a) + Disconnected(b)
    ensures Fetched(a + b) == Fetched(a) + Fetched(b)
  {
    DisconnectedConcat(a, b);
    FetchedConcat(a, b);
  }

  lemma {:induction false} DisconnectedConcat(a: seq<Juju.Call>, b: seq<Juju.Call>)
    ensures Disconnected(a + b) == Disconnected(a) + Disconnected(b)
    decreases |a|
  {
    if |a| == 0 {
      assert a + b == b;
    } else {
      assert (a + b)[0] == a[0] && (a + b)[1..] == a[1..] + b;
      DisconnectedConcat(a[1..], b);
      var head := if a[0].DisconnectModel? then [a[0].model] else [];
      assert Disconnected(a + b) == head + Disconnected(a[1..] + b);
      assert head + (Disconnected(a[1..]) + Disconnected(b)) == head + Disconnected(a[1..]) + Disconnected(b);
    }
  }

  lemma {:induction false} FetchedConcat(a: seq<Juju.Call>, b: seq<Juju.Call>)
    ensures Fetched(a + b) == Fetched(a) + Fetched(b)
    decreases |a|
  {
    if |a| == 0 {
      assert a + b == b;
    } else {
      assert (a + b)[0] == a[0] && (a + b)[1..] == a[1..] + b;
      FetchedConcat(a[1..], b);
      var head := if a[0].GetModel? then [a[0].model] else [];
      assert Fetched(a + b) == head + Fetched(a[1..] + b);
      assert head + (Fetched(a[1..]) + Fetched(b)) == head + Fetched(a[1..]) + Fetched(b);
    }
  }

  /** When the work on a model neither fetches nor disconnects models, a
      full pass fetches the visited models and disconnects each of them
      once, in the order visited. */
  lemma {:induction false} VisitCallsDisconnects(names: seq<string>, site: map<string, Juju.Model>,
                                                 body: Juju.Model -> seq<Juju.Call>)
    requires forall i :: 0 <= i < |names| ==> names[i] in site
    requires forall m | m in site.Values :: Disconnected(body(m)) == [] && Fetched(body(m)) == []
    ensures Disconnected(VisitCalls(names, site, body)) == names
    ensures Fetched(VisitCalls(names, site, body)) == names
    decreases |names|
  {
    if |names| > 0 {
      VisitCallsDisconnects(names[1..], site, body);
      var n := names[0];
      assert site[n] in site.Values;
      var b := body(site[n]);
      var head := [Juju.GetModel(n)] + b + [Juju.DisconnectModel(n)];
      DisconnectedFetchedConcat([Juju.GetModel(n)] + b, [Juju.DisconnectModel(n)]);
      DisconnectedFetchedConcat([Juju.GetModel(n)], b);
      DisconnectedFetchedConcat(head, VisitCalls(names[1..], site, body));
      assert Disconnected([Juju.DisconnectModel(n)]) == [n];
      assert Fetched([Juju.GetModel(n)]) == [n];
      assert [n] + names[1..] == names;
    }
  }
}
