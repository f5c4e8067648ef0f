/** `juju_spell/commands/config.py`: reads or sets the configuration of
    one application, or applies a file of per-application settings, on
    each model the command visits. */
module ConfigCommand {
  import opened Common
  import Juju
  import Base

  /** `ApplicationConfig`: the settings a configuration file gives one
      application. */
  datatype ApplicationConfig = ApplicationConfig(application: string, config: map<string, Value>)

  /** Python truthiness of the optional arguments. */
  predicate Given(s: Option<string>)
  {
    s.Some? && |s.value| > 0
  }

  /** `apply_config`: the properties, when any are given, are set first;
      then the whole configuration is answered, or only the one property
      asked for, which must exist. */
  method ApplyConfig(app: Juju.Application, properties: Option<map<string, Value>>, single: Option<string>)
    returns (r: Try<map<string, Value>>)
    modifies app
    ensures properties.Some? && |properties.value| > 0 ==> app.config == old(app.config) + properties.value
    ensures properties.None? || |properties.value| == 0 ==> app.config == old(app.config)
    ensures !Given(single) ==> r == Ok(app.config)
    ensures Given(single) && single.value in app.config ==>
      r == Ok(map[single.value := app.config[single.value]])
    ensures Given(single) && single.value !in app.config ==> r == Raise(KeyError(single.value))
  {
    if properties.Some? && |properties.value| > 0 {
      app.SetConfig(properties.value);
    }
    var config := app.GetConfig();
    if Given(single) {
      if single.value !in config {
        return Raise(KeyError(single.value));
      }
      return Ok(map[single.value := config[single.value]]);
    }
    r := Ok(config);
  }

  /** The settings the updates give `app`, later entries overriding
      earlier ones. */
  function Pending(updates: seq<ApplicationConfig>, app: string): map<string, Value>
    decreases |updates|
  {
    if |updates| == 0 then map[]
    else
      var last := updates[|updates| - 1];
      Pending(updates[..|updates| - 1], app) + (if last.application == app then last.config else map[])
  }

  /** An application no update names gets no settings. */
  lemma {:induction false} PendingUnnamed(updates: seq<ApplicationConfig>, app: string)
    requires forall i | 0 <= i < |updates| :: updates[i].application != app
    ensures Pending(updates, app) == map[]
    decreases |updates|
  {
    if |updates| > 0 {
      PendingUnnamed(updates[..|updates| - 1], app);
    }
  }

  /** A later update of a setting overrides an earlier one: the value
      a setting ends with is the one the last update naming it gives. */
  lemma {:induction false} PendingLast(updates: seq<ApplicationConfig>, app: string, k: nat, key: string)
    requires k < |updates| && updates[k].application == app && key in updates[k].config
    requires forall j | k < j < |updates| :: updates[j].application != app || key !in updates[j].config
    ensures key in Pending(updates, app) && Pending(updates, app)[key] == updates[k].config[key]
    decreases |updates|
  {
    if k < |updates| - 1 {
      PendingLast(updates[..|updates| - 1], app, k, key);
    }
  }

  /** The names of the applications among the updates that the model has. */
  function Updated(model: Juju.Model, updates: seq<ApplicationConfig>): set<string>
  {
    set i | 0 <= i < |updates| && updates[i].application in model.applications :: updates[i].application
  }

  /** The configuration of each application of the model, by name. */
  function Configs(model: Juju.Model): (r: map<string, map<string, Value>>)
    reads model.applications.Values
    ensures r.Keys == model.applications.Keys
  {
    map a | a in model.applications :: model.applications[a].config
  }

  /** Every configuration of `initial` with the settings the updates give
      its application. */
  function Merged(initial: map<string, map<string, Value>>, updates: seq<ApplicationConfig>)
    : (r: map<string, map<string, Value>>)
    ensures r.Keys == initial.Keys
  {
    map a | a in initial :: initial[a] + Pending(updates, a)
  }

  /** `apply_file_config`: each update names an application; those the
      model has get the settings, in order, and answer their whole new
      configuration; the others are skipped. */
  method ApplyFileConfig(model: Juju.Model, updates: seq<ApplicationConfig>) returns (config: map<string, Value>)
    requires model.Distinct()
    modifies model.applications.Values
    ensures Configs(model) == Merged(old(Configs(model)), updates)
    ensures config == Answers(Configs(model), Updated(model, updates))
  {
    config := map[];
    assert updates[..0] == [];
    MergedNone(Configs(model));
    var i := 0;
    while i < |updates|
      invariant 0 <= i <= |updates|
      invariant Configs(model) == Merged(old(Configs(model)), updates[..i])
      invariant config == Answers(Configs(model), Updated(model, updates[..i]))
    {
      var update := updates[i];
      UpdatedStep(model, updates, i);
      MergedStep(old(Configs(model)), updates, i);
      if update.application in model.applications {
        ghost var before := Configs(model);
        var current := ApplyUpdate(model, update);
        AnswersStep(before, Configs(model), Updated(model, updates[..i]), update.application);
        config := config[update.application := Dict(current)];
      } else {
        assert Updated(model, updates[..i + 1]) == Updated(model, updates[..i]);
        assert update.application !in old(Configs(model));
      }
      i := i + 1;
    }
    assert updates[..i] == updates;
  }

  /** The answer `apply_file_config` gives for the applications `names`:
      the configuration of each. */
  function Answers(configs: map<string, map<string, Value>>, names: set<string>): (r: map<string, Value>)
    ensures r.Keys == names * configs.Keys
  {
    map a | a in names && a in configs :: Dict(configs[a])
  }

  /** Changing one application's configuration and answering it changes
      that application's answer only. */
  lemma AnswersStep(before: map<string, map<string, Value>>, after: map<string, map<string, Value>>,
                    names: set<string>, name: string)
    requires name in before && name in after && after == before[name := after[name]]
    ensures Answers(after, names + {name}) == Answers(before, names)[name := Dict(after[name])]
  {
  }

  /** One step of `apply_file_config`: the named application, which the
      model has, takes the update's settings and answers its whole new
      configuration; no other application changes. */
  method ApplyUpdate(model: Juju.Model, update: ApplicationConfig) returns (current: map<string, Value>)
    requires model.Distinct() && update.application in model.applications
    modifies model.applications.Values
    ensures Configs(model)
      == old(Configs(model))[update.application := old(Configs(model))[update.application] + update.config]
    ensures current == Configs(model)[update.application]
  {
    var app := model.applications[update.application];
    app.SetConfig(update.config);
    current := app.GetConfig();
  }

  /** No updates leave every configuration as it is. */
  lemma MergedNone(initial: map<string, map<string, Value>>)
    ensures Merged(initial, []) == initial
  {
    forall a | a in initial
      ensures Merged(initial, [])[a] == initial[a]
    {
      assert initial[a] + map[] == initial[a];
    }
  }

  /** One more update adds its settings to its application, if that is
      one of `initial`'s, and changes nothing else. */
  lemma MergedStep(initial: map<string, map<string, Value>>, updates: seq<ApplicationConfig>, i: nat)
    requires i < |updates|
    ensures var name := updates[i].application;
      var before := Merged(initial, updates[..i]);
      Merged(initial, updates[..i + 1])
        == if name in initial then before[name := before[name] + updates[i].config] else before
  {
    assert updates[..i + 1][..i] == updates[..i];
    var name := updates[i].application;
    var before := Merged(initial, updates[..i]);
    forall a | a in initial
      ensures Merged(initial, updates[..i + 1])[a]
        == (if a == name then before[a] + updates[i].config else before[a])
    {
      var added := if name == a then updates[i].config else map[];
      assert Pending(updates[..i + 1], a) == Pending(updates[..i], a) + added;
      MergeAssoc(initial[a], Pending(updates[..i], a), added);
      assert before[a] + map[] == before[a];
    }
  }

  lemma UpdatedStep(model: Juju.Model, updates: seq<ApplicationConfig>, i: nat)
    requires i < |updates|
    ensures Updated(model, updates[..i + 1]) == Updated(model, updates[..i])
      + (if updates[i].application in model.applications then {updates[i].application} else {})
  {
    var prefix := updates[..i + 1];
    assert forall j | 0 <= j < i :: prefix[j] == updates[..i][j];
    assert prefix[i] == updates[i];
  }

  lemma MergeAssoc(a: map<string, Value>, b: map<string, Value>, c: map<string, Value>)
    ensures (a + b) + c == a + (b + c)
  {
  }

  /** The configuration `apply_config` leaves on the named application:
      the properties, when any are given, override its settings. */
  function WithProperties(config: map<string, Value>, properties: Option<map<string, Value>>)
    : map<string, Value>
  {
    if properties.Some? && |properties.value| > 0 then config + properties.value else config
  }

  /** What `apply_config` answers from the configuration it has set: all
      of it, or the one property asked for, which must exist. */
  function Selection(config: map<string, Value>, single: Option<string>): Try<map<string, Value>>
  {
    if !Given(single) then Ok(config)
    else if single.value in config then Ok(map[single.value := config[single.value]])
    else Raise(KeyError(single.value))
  }

  /** The applications the updates name. */
  function Named(updates: seq<ApplicationConfig>): set<string>
  {
    set i | 0 <= i < |updates| :: updates[i].application
  }

  /** The configurations of a model's applications, by name, after the
      command has visited it. */
  function AfterVisit(configs: map<string, map<string, Value>>, application: Option<string>,
                      updates: Option<seq<ApplicationConfig>>, properties: Option<map<string, Value>>)
    : (r: map<string, map<string, Value>>)
    ensures r.Keys == configs.Keys
  {
    if Given(application) then
      if application.value in configs
      then configs[application.value := WithProperties(configs[application.value], properties)]
      else configs
    else if updates.Some? && |updates.value| > 0 then Merged(configs, updates.value)
    else configs
  }

  /** What the command answers for a model whose applications have the
      configurations `configs` before the visit. */
  function VisitAnswer(configs: map<string, map<string, Value>>, application: Option<string>,
                       updates: Option<seq<ApplicationConfig>>, single: Option<string>,
                       properties: Option<map<string, Value>>)
    : Try<map<string, Value>>
  {
    if Given(application) then
      if application.value !in configs then Ok(map[])
      else
        var answer := Selection(WithProperties(configs[application.value], properties), single);
        if answer.Raise? then Raise(answer.error) else Ok(map[application.value := Dict(answer.value)])
    else if updates.Some? && |updates.value| > 0 then
      Ok(Answers(Merged(configs, updates.value), Named(updates.value)))
    else Ok(map[])
  }

  /** A file of updates answers, for each application of the model that an
      update names, its configuration merged with everything the updates
      give it, and leaves it with that configuration; the applications no
      update names keep theirs and are not answered. */
  lemma FileVisit(configs: map<string, map<string, Value>>, updates: seq<ApplicationConfig>,
                  single: Option<string>, properties: Option<map<string, Value>>, name: string)
    requires |updates| > 0 && name in configs
    ensures var answer := VisitAnswer(configs, None, Some(updates), single, properties);
      var after := AfterVisit(configs, None, Some(updates), properties);
      answer.Ok? &&
      (name in answer.value <==> exists i | 0 <= i < |updates| :: updates[i].application == name) &&
      (name in answer.value ==> answer.value[name] == Dict(configs[name] + Pending(updates, name))) &&
      after[name] == configs[name] + Pending(updates, name)
  {
  }

  /** Naming one application answers it alone, with the property asked
      for or all of its configuration after the properties are set; the
      other applications keep their configurations. */
  lemma NamedVisit(configs: map<string, map<string, Value>>, application: string,
                   updates: Option<seq<ApplicationConfig>>, single: Option<string>,
                   properties: Option<map<string, Value>>, other: string)
    requires application != "" && application in configs && other in configs && other != application
    ensures var answer := VisitAnswer(configs, Some(application), updates, single, properties);
      var after := AfterVisit(configs, Some(application), updates, properties);
      var applied := WithProperties(configs[application], properties);
      after[other] == configs[other] &&
      (answer.Raise? <==> Given(single) && single.value !in applied) &&
      (answer.Ok? ==> answer.value.Keys == {application}) &&
      (answer.Ok? && !Given(single) ==> answer.value[application] == Dict(applied)) &&
      (answer.Ok? && Given(single) ==> answer.value[application] == Dict(map[single.value := applied[single.value]]))
  {
  }

  /** The shape of a model's answer: nothing when the named application is
      missing or nothing is asked, the named application alone, or the
      applications of the model that the updates name; only a property
      asked for that is missing raises. */
  lemma VisitAnswerShape(configs: map<string, map<string, Value>>, application: Option<string>,
                         updates: Option<seq<ApplicationConfig>>, single: Option<string>,
                         properties: Option<map<string, Value>>)
    ensures var r := VisitAnswer(configs, application, updates, single, properties);
      (Given(application) && application.value !in configs ==> r == Ok(map[])) &&
      (Given(application) && application.value in configs && r.Ok? ==> r.value.Keys == {application.value}) &&
      (!Given(application) && (updates.None? || |updates.value| == 0) ==> r == Ok(map[])) &&
      (!Given(application) && updates.Some? && |updates.value| > 0 ==>
        r.Ok? && r.value.Keys == Named(updates.value) * configs.Keys) &&
      (r.Raise? ==> Given(application) && Given(single) && r.error == KeyError(single.value))
  {
  }

  /** What the command answers for one model (`execute`, the body of its
      loop): the named application's configuration when an application is
      named and the model has it, nothing when it does not, else the file
      updates' answers. */
  method ConfigureModel(model: Juju.Model, application: Option<string>, updates: Option<seq<ApplicationConfig>>,
                        single: Option<string>, properties: Option<map<string, Value>>)
    returns (r: Try<map<string, Value>>)
    requires model.Distinct()
    modifies model.applications.Values
    ensures r == VisitAnswer(old(Configs(model)), application, updates, single, properties)
    ensures Configs(model) == AfterVisit(old(Configs(model)), application, updates, properties)
    ensures Given(application) && application.value !in model.applications ==> r == Ok(map[])
    ensures Given(application) && application.value in model.applications && r.Ok? ==>
      r.value.Keys == {application.value}
    ensures !Given(application) && (updates.None? || |updates.value| == 0) ==> r == Ok(map[])
    ensures !Given(application) && updates.Some? && |updates.value| > 0 ==>
      r.Ok? && r.value.Keys == Updated(model, updates.value)
    ensures r.Raise? ==> Given(application) && Given(single) && r.error == KeyError(single.value)
  {
    ghost var before := Configs(model);
    VisitAnswerShape(before, application, updates, single, properties);
    if Given(application) && application.value in model.applications {
      r := ConfigureApplication(model, application.value, single, properties);
    } else if !Given(application) && updates.Some? && |updates.value| > 0 {
      var config := ApplyFileConfig(model, updates.value);
      assert Updated(model, updates.value) == Named(updates.value) * before.Keys;
      assert Answers(Configs(model), Updated(model, updates.value))
        == Answers(Configs(model), Named(updates.value));
      r := Ok(config);
    } else {
      r := Ok(map[]);
    }
  }

  /** `apply_config` on the application `name` of the model, answered
      under that name. */
  method ConfigureApplication(model: Juju.Model, name: string, single: Option<string>,
                              properties: Option<map<string, Value>>)
    returns (r: Try<map<string, Value>>)
    requires model.Distinct() && name in model.applications && name != ""
    modifies model.applications.Values
    ensures r == VisitAnswer(old(Configs(model)), Some(name), None, single, properties)
    ensures Configs(model) == AfterVisit(old(Configs(model)), Some(name), None, properties)
  {
    ghost var before := Configs(model);
    var app := model.applications[name];
    var applied := ApplyConfig(app, properties, single);
    assert app.config == WithProperties(before[name], properties);
    assert applied == Selection(app.config, single);
    forall b | b in model.applications
      ensures Configs(model)[b] == before[name := app.config][b]
    {
      if b != name {
        assert model.applications[b] != app;
      }
    }
    assert Configs(model) == before[name := app.config];
    if applied.Raise? {
      return Raise(applied.error);
    }
    r := Ok(map[name := Dict(applied.value)]);
  }

  /** All applications of the models of `site`. */
  function Applications(site: map<string, Juju.Model>): set<Juju.Application>
  {
    set m, a | m in site.Values && a in m.applications.Values :: a
  }

  /** The applications of one model of `site` are among them. */
  lemma ApplicationsOf(site: map<string, Juju.Model>, model: Juju.Model)
    requires model in site.Values
    ensures model.applications.Values <= Applications(site)
  {
  }

  /** Every model answered is answered with nothing. */
  predicate AllEmpty(out: map<string, map<string, Value>>)
  {
    forall n | n in out :: out[n] == map[]
  }

  /** An empty answer keeps every answer empty. */
  lemma AllEmptyStore(out: map<string, map<string, Value>>, name: string)
    requires AllEmpty(out)
    ensures AllEmpty(out[name := map[]])
  {
  }

  /** The command makes no calls on a model beyond fetching and
      disconnecting it. */
  function NoCalls(m: Juju.Model): seq<Juju.Call>
  {
    []
  }

  /** The names the configuration loop visits, up to and including the
      first failure: a model the controller cannot hand out or a property
      asked for that an application does not have. */
  predicate Visited(names: seq<string>, out: map<string, map<string, Value>>)
  {
    (forall n | n in out :: n in names) && (forall n | n in names :: n in out)
  }

  /** The configurations of every model of `site`, by model name. */
  function SiteConfigs(site: map<string, Juju.Model>): (r: map<string, map<string, map<string, Value>>>)
    reads Applications(site)
    ensures r.Keys == site.Keys
  {
    map n | n in site :: Configs(site[n])
  }

  /** Models handed out under different names share no application
      handle: `get_model` builds each model with handles of its own. */
  predicate Separate(site: map<string, Juju.Model>)
  {
    forall n, m | n in site && m in site && n != m :: site[n].applications.Values !! site[m].applications.Values
  }

  /** The answers and the configurations after the command visits `names`
      in order, starting from the configurations `state`: a model the
      controller does not have, or a property asked for that is missing,
      ends the pass with its error. */
  function Visits(state: map<string, map<string, map<string, Value>>>, names: seq<string>,
                  application: Option<string>, updates: Option<seq<ApplicationConfig>>,
                  single: Option<string>, properties: Option<map<string, Value>>)
    : (r: (Try<map<string, map<string, Value>>>, map<string, map<string, map<string, Value>>>))
    ensures r.1.Keys == state.Keys
    decreases |names|
  {
    if |names| == 0 then (Ok(map[]), state)
    else
      var prev := Visits(state, names[..|names| - 1], application, updates, single, properties);
      var name := names[|names| - 1];
      if prev.0.Raise? then prev
      else if name !in prev.1 then (Raise(Base.ModelNotFound(name)), prev.1)
      else
        var after := prev.1[name := AfterVisit(prev.1[name], application, updates, properties)];
        var answer := VisitAnswer(prev.1[name], application, updates, single, properties);
        if answer.Raise? then (Raise(answer.error), after)
        else (Ok(prev.0.value[name := answer.value]), after)
  }

  /** Over distinct model names the controller has, each answering
      without error, the pass answers every model with what visiting it
      alone answers and leaves each with the configurations that visit
      leaves; the models not visited keep theirs. */
  lemma {:induction false} VisitsDistinct(state: map<string, map<string, map<string, Value>>>, names: seq<string>,
                                          application: Option<string>, updates: Option<seq<ApplicationConfig>>,
                                          single: Option<string>, properties: Option<map<string, Value>>)
    requires forall i, j | 0 <= i < j < |names| :: names[i] != names[j]
    requires forall i | 0 <= i < |names| :: names[i] in state
    requires forall i | 0 <= i < |names| :: VisitAnswer(state[names[i]], application, updates, single, properties).Ok?
    ensures var r := Visits(state, names, application, updates, single, properties);
      r.0.Ok? && (forall n :: n in r.0.value <==> n in names) &&
      (forall i | 0 <= i < |names| ::
        r.0.value[names[i]] == VisitAnswer(state[names[i]], application, updates, single, properties).value &&
        r.1[names[i]] == AfterVisit(state[names[i]], application, updates, properties)) &&
      (forall n | n in state && n !in names :: r.1[n] == state[n])
    decreases |names|
  {
    if |names| > 0 {
      var init := names[..|names| - 1];
      var name := names[|names| - 1];
      assert forall i | 0 <= i < |init| :: init[i] == names[i];
      VisitsDistinct(state, init, application, updates, single, properties);
      assert name !in init;
      var r := Visits(state, names, application, updates, single, properties);
      var prev := Visits(state, init, application, updates, single, properties);
      assert prev.1[name] == state[name];
      forall n
        ensures n in r.0.value <==> n in names
      {
        assert n in names <==> n in init || n == name;
      }
      forall i | 0 <= i < |names|
        ensures r.0.value[names[i]] == VisitAnswer(state[names[i]], application, updates, single, properties).value
        ensures r.1[names[i]] == AfterVisit(state[names[i]], application, updates, properties)
      {
        if i < |init| {
          assert names[i] == init[i] && names[i] != name;
        }
      }
      forall n | n in state && n !in names
        ensures r.1[n] == state[n]
      {
        assert n !in init;
      }
    }
  }

  /** A model the controller does not have ends the pass with its error
      when every name before it is visited without one. */
  lemma {:induction false} VisitsMissing(state: map<string, map<string, map<string, Value>>>, names: seq<string>,
                                         application: Option<string>, updates: Option<seq<ApplicationConfig>>,
                                         single: Option<string>, properties: Option<map<string, Value>>, k: nat)
    requires k < |names| && names[k] !in state
    requires Visits(state, names[..k], application, updates, single, properties).0.Ok?
    ensures Visits(state, names, application, updates, single, properties).0 == Raise(Base.ModelNotFound(names[k]))
    decreases |names|
  {
    if k < |names| - 1 {
      assert names[..|names| - 1][..k] == names[..k];
      VisitsMissing(state, names[..|names| - 1], application, updates, single, properties, k);
    } else {
      assert names[..|names| - 1] == names[..k];
    }
  }

  /** `ConfigCommand.execute`: one answer per visited model, keyed by
      model name; every visited model is fetched and disconnected in
      turn. */
  method Execute(models: Option<seq<string>>, mappings: Option<Base.Mappings>, listed: Try<seq<string>>,
                 site: map<string, Juju.Model>, application: Option<string>,
                 updates: Option<seq<ApplicationConfig>>, single: Option<string>,
                 properties: Option<map<string, Value>>)
    returns (r: Try<map<string, map<string, Value>>>, calls: seq<Juju.Call>)
    requires forall m | m in site.Values :: m.Distinct()
    requires Separate(site)
    modifies Applications(site)
    ensures Base.FilteredModelNames(models, mappings, listed).Raise? ==>
      r == Raise(Base.FilteredModelNames(models, mappings, listed).error) && calls == Base.ListingCalls(models) &&
      SiteConfigs(site) == old(SiteConfigs(site))
    ensures Base.FilteredModelNames(models, mappings, listed).Ok? ==>
      (r, SiteConfigs(site)) == Visits(old(SiteConfigs(site)), Base.FilteredModelNames(models, mappings, listed).value,
                                       application, updates, single, properties)
    ensures Base.FilteredModelNames(models, mappings, listed).Ok? && r.Ok? ==>
      var names := Base.FilteredModelNames(models, mappings, listed).value;
      Visited(names, r.value) &&
      (forall i | 0 <= i < |names| :: names[i] in site) &&
      calls == Base.ListingCalls(models) + Base.VisitCalls(names, site, NoCalls)
    ensures r.Ok? && !Given(application) && (updates.None? || |updates.value| == 0) ==> AllEmpty(r.value)
  {
    calls := Base.ListingCalls(models);
    var filtered := Base.FilteredModelNames(models, mappings, listed);
    if filtered.Raise? {
      return Raise(filtered.error), calls;
    }
    var visits;
    r, visits := ConfigureModels(filtered.value, site, application, updates, single, properties);
    calls := calls + visits;
  }

  /** The loop of `ConfigCommand.execute` over the model names: fetch,
      configure and disconnect each model in turn. */
  method ConfigureModels(names: seq<string>, site: map<string, Juju.Model>, application: Option<string>,
                         updates: Option<seq<ApplicationConfig>>, single: Option<string>,
                         properties: Option<map<string, Value>>)
    returns (r: Try<map<string, map<string, Value>>>, calls: seq<Juju.Call>)
    requires forall m | m in site.Values :: m.Distinct()
    requires Separate(site)
    modifies Applications(site)
    ensures (r, SiteConfigs(site)) == Visits(old(SiteConfigs(site)), names, application, updates, single, properties)
    ensures r.Ok? ==>
      Visited(names, r.value) &&
      (forall i | 0 <= i < |names| :: names[i] in site) &&
      calls == Base.VisitCalls(names, site, NoCalls)
    ensures r.Ok? && !Given(application) && (updates.None? || |updates.value| == 0) ==> AllEmpty(r.value)
  {
    var output: map<string, map<string, Value>> := map[];
    ghost var state := SiteConfigs(site);
    ghost var current := state;
    calls := [];
    var i := 0;
    assert names[..0] == [];
    while i < |names|
      invariant 0 <= i <= |names|
      invariant forall j | 0 <= j < i :: names[j] in site
      invariant calls == Base.VisitCalls(names[..i], site, NoCalls)
      invariant Visits(state, names[..i], application, updates, single, properties) == (Ok(output), current)
      invariant current == SiteConfigs(site)
    {
      var name := names[i];
      assert names[..i + 1][..i] == names[..i];
      var model := Base.GetModel(site, name);
      if model.Raise? {
        VisitsStop(state, names, application, updates, single, properties, i + 1);
        return Raise(model.error), calls + [Juju.GetModel(name)];
      }
      var config := VisitNext(site, names, i, output, state, application, updates, single, properties);
      if config.Raise? {
        VisitsStop(state, names, application, updates, single, properties, i + 1);
        return Raise(config.error), calls + [Juju.GetModel(name)];
      }
      output := output[name := config.value];
      VisitCallsStep(names, i, site);
      calls := calls + [Juju.GetModel(name), Juju.DisconnectModel(name)];
      current := SiteConfigs(site);
      i := i + 1;
    }
    assert names[..i] == names;
    VisitsOk(state, names, application, updates, single, properties);
    r := Ok(output);
  }

  /** A pass that answers every model visits only models the controller
      has and answers exactly the names visited, each with nothing when
      neither an application nor a file of updates is given. */
  lemma {:induction false} VisitsOk(state: map<string, map<string, map<string, Value>>>, names: seq<string>,
                                    application: Option<string>, updates: Option<seq<ApplicationConfig>>,
                                    single: Option<string>, properties: Option<map<string, Value>>)
    requires Visits(state, names, application, updates, single, properties).0.Ok?
    ensures forall i | 0 <= i < |names| :: names[i] in state
    ensures Visited(names, Visits(state, names, application, updates, single, properties).0.value)
    ensures !Given(application) && (updates.None? || |updates.value| == 0) ==>
      AllEmpty(Visits(state, names, application, updates, single, properties).0.value)
    decreases |names|
  {
    if |names| > 0 {
      var k := |names| - 1;
      var prev := Visits(state, names[..k], application, updates, single, properties);
      VisitsOk(state, names[..k], application, updates, single, properties);
      assert forall i | 0 <= i < k :: names[..k][i] == names[i];
      var answer := VisitAnswer(prev.1[names[k]], application, updates, single, properties);
      VisitedSnoc(names, k, prev.0.value, answer.value);
      assert names[..k + 1] == names;
      if !Given(application) && (updates.None? || |updates.value| == 0) {
        AllEmptyStore(prev.0.value, names[k]);
      }
    }
  }

  /** Visiting name `i` of the pass: what the pass over the first `i + 1`
      names answers and leaves. */
  method VisitNext(site: map<string, Juju.Model>, names: seq<string>, i: nat, output: map<string, map<string, Value>>,
                   ghost state: map<string, map<string, map<string, Value>>>, application: Option<string>,
                   updates: Option<seq<ApplicationConfig>>, single: Option<string>,
                   properties: Option<map<string, Value>>)
    returns (r: Try<map<string, Value>>)
    requires forall m | m in site.Values :: m.Distinct()
    requires Separate(site) && i < |names| && names[i] in site
    requires Visits(state, names[..i], application, updates, single, properties) == (Ok(output), SiteConfigs(site))
    modifies Applications(site)
    ensures r.Raise? ==>
      Visits(state, names[..i + 1], application, updates, single, properties) == (Raise(r.error), SiteConfigs(site))
    ensures r.Ok? ==>
      Visits(state, names[..i + 1], application, updates, single, properties)
        == (Ok(output[names[i] := r.value]), SiteConfigs(site))
  {
    assert names[..i + 1][..i] == names[..i];
    r := VisitModel(site, names[i], application, updates, single, properties);
  }

  /** The body of the loop of `ConfigCommand.execute` on the model `name`
      of `site`: what visiting that model answers, and the configurations
      it leaves, that model's alone changed. */
  method VisitModel(site: map<string, Juju.Model>, name: string, application: Option<string>,
                    updates: Option<seq<ApplicationConfig>>, single: Option<string>,
                    properties: Option<map<string, Value>>)
    returns (r: Try<map<string, Value>>)
    requires forall m | m in site.Values :: m.Distinct()
    requires Separate(site) && name in site
    modifies Applications(site)
    ensures r == VisitAnswer(old(SiteConfigs(site))[name], application, updates, single, properties)
    ensures SiteConfigs(site)
      == old(SiteConfigs(site))[name := AfterVisit(old(SiteConfigs(site))[name], application, updates, properties)]
  {
    var model := site[name];
    ApplicationsOf(site, model);
    ghost var before := SiteConfigs(site);
    r := ConfigureModel(model, application, updates, single, properties);
    ghost var after := SiteConfigs(site);
    forall n | n in site
      ensures after[n] == before[name := Configs(model)][n]
    {
      if n != name {
        forall a | a in site[n].applications
          ensures site[n].applications[a].config == old(site[n].applications[a].config)
        {
          assert site[n].applications[a] in site[n].applications.Values;
        }
        assert Configs(site[n]) == old(Configs(site[n]));
      }
    }
  }

  /** Once a pass over a prefix of the names raises, the whole pass raises
      with the same error and configurations. */
  lemma {:induction false} VisitsStop(state: map<string, map<string, map<string, Value>>>, names: seq<string>,
                                      application: Option<string>, updates: Option<seq<ApplicationConfig>>,
                                      single: Option<string>, properties: Option<map<string, Value>>, k: nat)
    requires k <= |names| && Visits(state, names[..k], application, updates, single, properties).0.Raise?
    ensures Visits(state, names, application, updates, single, properties)
      == Visits(state, names[..k], application, updates, single, properties)
    decreases |names| - k
  {
    if k < |names| {
      assert names[..|names| - 1][..k] == names[..k];
      VisitsStop(state, names[..|names| - 1], application, updates, single, properties, k);
    } else {
      assert names[..k] == names;
    }
  }

  /** Visiting one more name adds its answer. */
  lemma VisitedSnoc(names: seq<string>, i: nat, out: map<string, map<string, Value>>, answer: map<string, Value>)
    requires i < |names| && Visited(names[..i], out)
    ensures Visited(names[..i + 1], out[names[i] := answer])
  {
    assert names[..i + 1] == names[..i] + [names[i]];
  }

  /** The calls of the pass over the first `i + 1` names end with fetching
      and disconnecting name `i`. */
  lemma VisitCallsStep(names: seq<string>, i: nat, site: map<string, Juju.Model>)
    requires i < |names| && forall j | 0 <= j <= i :: names[j] in site
    ensures Base.VisitCalls(names[..i + 1], site, NoCalls)
      == Base.VisitCalls(names[..i], site, NoCalls) + [Juju.GetModel(names[i]), Juju.DisconnectModel(names[i])]
  {
    assert names[..i + 1] == names[..i] + [names[i]];
    VisitCallsSnoc(names[..i], names[i], site);
  }

  /** A pass that makes no calls of its own on the models, over one more
      model, fetches and disconnects that model last. */
  lemma {:induction false} VisitCallsSnoc(names: seq<string>, name: string, site: map<string, Juju.Model>)
    requires forall i | 0 <= i < |names| :: names[i] in site
    requires name in site
    ensures Base.VisitCalls(names + [name], site, NoCalls)
      == Base.VisitCalls(names, site, NoCalls) + [Juju.GetModel(name), Juju.DisconnectModel(name)]
    decreases |names|
  {
    if |names| == 0 {
      assert names + [name] == [name];
      assert [name][1..] == [];
    } else {
      assert (names + [name])[1..] == names[1..] + [name];
      VisitCallsSnoc(names[1..], name, site);
    }
  }
}
