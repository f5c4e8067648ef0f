/** `juju_spell/commands/grant.py`: grants a user an access level on the
    controller and then on each model the command visits, stopping at the
    first grant the controller refuses. */
module Grant {
  import opened Common
  import Juju
  import Base

  const CONTROLLER_ACL_CHOICES: seq<string> := ["login", "add-model", "superuser"]
  const MODEL_ACL_CHOICES: seq<string> := ["read", "write", "admin"]
  /** The access levels the command line offers. */
  const ACL_CHOICES: seq<string> := CONTROLLER_ACL_CHOICES + MODEL_ACL_CHOICES

  /** The controller access granted for `acl`. */
  function ControllerAcl(acl: string): string
  {
    if acl in CONTROLLER_ACL_CHOICES then acl else "login"
  }

  /** The model access granted for `acl`. */
  function ModelAcl(acl: string): string
  {
    if acl in MODEL_ACL_CHOICES then acl
    else if acl == "superuser" then "admin"
    else "read"
  }

  /** Both levels are always valid choices; each is `acl` itself exactly
      when `acl` is a level of its kind; a superuser administers every
      model. */
  lemma AclChoices(acl: string)
    ensures ControllerAcl(acl) in CONTROLLER_ACL_CHOICES && ModelAcl(acl) in MODEL_ACL_CHOICES
    ensures ControllerAcl(acl) == acl <==> acl in CONTROLLER_ACL_CHOICES
    ensures ModelAcl(acl) == acl <==> acl in MODEL_ACL_CHOICES
    ensures acl == "superuser" ==> ModelAcl(acl) == "admin"
    ensures ControllerAcl(acl) in ACL_CHOICES && ModelAcl(acl) in ACL_CHOICES
  {
  }

  /** The model grants over the visited models `names`: the outcome and
      the calls made. `answer` is the controller's reply to a model grant,
      by model uuid. A refused grant ends the pass at once, so that model
      is not disconnected. */
  function GrantModels(user: string, acl: string, names: seq<string>, site: map<string, Juju.Model>,
                       answer: string -> Try<bool>): (Try<bool>, seq<Juju.Call>)
    decreases |names|
  {
    if |names| == 0 then (Ok(true), [])
    else
      var n := names[0];
      match Base.GetModel(site, n)
      case Raise(e) => (Raise(e), [Juju.GetModel(n)])
      case Ok(model) =>
        var calls := [Juju.GetModel(n), Juju.GrantModel(user, model.uuid, acl)];
        match answer(model.uuid)
        case Raise(e) => (Raise(e), calls)
        case Ok(granted) =>
          if !granted then (Ok(false), calls)
          else
            var rest := GrantModels(user, acl, names[1..], site, answer);
            (rest.0, calls + [Juju.DisconnectModel(n)] + rest.1)
  }

  /** The whole command: the controller grant, and the model grants if it
      is given. `listed` is the answer to `list_models`. */
  function GrantSpec(user: string, acl: string, models: Option<seq<string>>, mappings: Option<Base.Mappings>,
                     listed: Try<seq<string>>, site: map<string, Juju.Model>,
                     controllerAnswer: Try<bool>, modelAnswer: string -> Try<bool>): (Try<bool>, seq<Juju.Call>)
  {
    var first := [Juju.Grant(user, ControllerAcl(acl))];
    match controllerAnswer
    case Raise(e) => (Raise(e), first)
    case Ok(granted) =>
      if !granted then (Ok(false), first)
      else
        match Base.FilteredModelNames(models, mappings, listed)
        case Raise(e) => (Raise(e), first + Base.ListingCalls(models))
        case Ok(names) =>
          var pass := GrantModels(user, ModelAcl(acl), names, site, modelAnswer);
          (pass.0, first + Base.ListingCalls(models) + pass.1)
  }

  /** `GrantCommand.execute`. */
  method Execute(user: string, acl: string, models: Option<seq<string>>, mappings: Option<Base.Mappings>,
                 listed: Try<seq<string>>, site: map<string, Juju.Model>,
                 controllerAnswer: Try<bool>, modelAnswer: string -> Try<bool>)
    returns (r: Try<bool>, calls: seq<Juju.Call>)
    ensures (r, calls) == GrantSpec(user, acl, models, mappings, listed, site, controllerAnswer, modelAnswer)
  {
    var controllerAcl := if acl in CONTROLLER_ACL_CHOICES then acl else "login";
    var modelAcl := if acl in MODEL_ACL_CHOICES then acl else if acl == "superuser" then "admin" else "read";
    calls := [Juju.Grant(user, controllerAcl)];
    if controllerAnswer.Raise? {
      return Raise(controllerAnswer.error), calls;
    }
    if !controllerAnswer.value {
      return Ok(false), calls;
    }
    calls := calls + Base.ListingCalls(models);
    var filtered := Base.FilteredModelNames(models, mappings, listed);
    if filtered.Raise? {
      return Raise(filtered.error), calls;
    }
    var names := filtered.value;
    var pass;
    pass, r := GrantPass(user, modelAcl, names, site, modelAnswer);
    calls := calls + pass;
  }

  /** The loop of `execute` over the visited models. */
  method GrantPass(user: string, acl: string, names: seq<string>, site: map<string, Juju.Model>,
                   answer: string -> Try<bool>)
    returns (calls: seq<Juju.Call>, r: Try<bool>)
    ensures (r, calls) == GrantModels(user, acl, names, site, answer)
  {
    calls := [];
    assert names[0..] == names;
    assert calls + GrantModels(user, acl, names, site, answer).1 == GrantModels(user, acl, names, site, answer).1;
    var i := 0;
    while i < |names|
      invariant 0 <= i <= |names|
      invariant var rest := GrantModels(user, acl, names[i..], site, answer);
        GrantModels(user, acl, names, site, answer) == (rest.0, calls + rest.1)
    {
      var n := names[i];
      assert names[i..][0] == n;
      assert names[i..][1..] == names[i + 1..];
      var model := Base.GetModel(site, n);
      if model.Raise? {
        return calls + [Juju.GetModel(n)], Raise(model.error);
      }
      var got := [Juju.GetModel(n), Juju.GrantModel(user, model.value.uuid, acl)];
      var granted := answer(model.value.uuid);
      if granted.Raise? {
        return calls + got, Raise(granted.error);
      }
      if !granted.value {
        return calls + got, Ok(false);
      }
      ghost var rest := GrantModels(user, acl, names[i + 1..], site, answer);
      assert calls + (got + [Juju.DisconnectModel(n)] + rest.1) == calls + got + [Juju.DisconnectModel(n)] + rest.1;
      calls := calls + got + [Juju.DisconnectModel(n)];
      i := i + 1;
    }
    assert names[i..] == [];
    assert calls + [] == calls;
    r := Ok(true);
  }

  /** The call a pass makes on each model it visits. */
  function ModelGrant(user: string, acl: string): Juju.Model -> seq<Juju.Call>
  {
    (m: Juju.Model) => [Juju.GrantModel(user, m.uuid, acl)]
  }

  /** When every visited model exists and every model grant is given, the
      pass succeeds after fetching, granting and disconnecting each model
      once, in order. */
  lemma {:induction false} AllGranted(user: string, acl: string, names: seq<string>, site: map<string, Juju.Model>,
                                      answer: string -> Try<bool>)
    requires forall i :: 0 <= i < |names| ==> names[i] in site && answer(site[names[i]].uuid) == Ok(true)
    ensures GrantModels(user, acl, names, site, answer) ==
      (Ok(true), Base.VisitCalls(names, site, ModelGrant(user, acl)))
    decreases |names|
  {
    if |names| > 0 {
      AllGranted(user, acl, names[1..], site, answer);
      var n := names[0];
      assert ModelGrant(user, acl)(site[n]) == [Juju.GrantModel(user, site[n].uuid, acl)];
      assert [Juju.GetModel(n), Juju.GrantModel(user, site[n].uuid, acl)]
          == [Juju.GetModel(n)] + ModelGrant(user, acl)(site[n]);
    }
  }

  /** The first refused model grant ends the command with false: the
      models before it were granted and disconnected, no model after it is
      fetched or granted. */
  lemma {:induction false} FirstRefusal(user: string, acl: string, names: seq<string>, site: map<string, Juju.Model>,
                                        answer: string -> Try<bool>, k: nat)
    requires k < |names|
    requires forall i :: 0 <= i <= k ==> names[i] in site
    requires forall i :: 0 <= i < k ==> answer(site[names[i]].uuid) == Ok(true)
    requires answer(site[names[k]].uuid) == Ok(false)
    ensures GrantModels(user, acl, names, site, answer) ==
      (Ok(false), Base.VisitCalls(names[..k], site, ModelGrant(user, acl))
                    + [Juju.GetModel(names[k]), Juju.GrantModel(user, site[names[k]].uuid, acl)])
    decreases k
  {
    if k > 0 {
      FirstRefusal(user, acl, names[1..], site, answer, k - 1);
      var n := names[0];
      assert names[..k][1..] == names[1..][..k - 1];
      assert names[..k][0] == n;
      var head := [Juju.GetModel(n)] + ModelGrant(user, acl)(site[n]) + [Juju.DisconnectModel(n)];
      assert head == [Juju.GetModel(n), Juju.GrantModel(user, site[n].uuid, acl)] + [Juju.DisconnectModel(n)];
      assert Base.VisitCalls(names[..k], site, ModelGrant(user, acl))
          == head + Base.VisitCalls(names[1..][..k - 1], site, ModelGrant(user, acl));
      assert names[1..][k - 1] == names[k];
      assert answer(site[n].uuid) == Ok(true);
      var tail := [Juju.GetModel(names[k]), Juju.GrantModel(user, site[names[k]].uuid, acl)];
      var visited := Base.VisitCalls(names[1..][..k - 1], site, ModelGrant(user, acl));
      assert GrantModels(user, acl, names, site, answer).1 == head + (visited + tail);
      assert head + (visited + tail) == head + visited + tail;
    } else {
      assert names[..k] == [];
      var tail := [Juju.GetModel(names[0]), Juju.GrantModel(user, site[names[0]].uuid, acl)];
      assert Base.VisitCalls([], site, ModelGrant(user, acl)) + tail == tail;
    }
  }

  /** A refused controller grant ends the command before any model is
      listed or fetched. */
  lemma ControllerRefused(user: string, acl: string, models: Option<seq<string>>, mappings: Option<Base.Mappings>,
                          listed: Try<seq<string>>, site: map<string, Juju.Model>, modelAnswer: string -> Try<bool>)
    ensures GrantSpec(user, acl, models, mappings, listed, site, Ok(false), modelAnswer)
      == (Ok(false), [Juju.Grant(user, ControllerAcl(acl))])
  {
  }
}
