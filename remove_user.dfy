/** `juju_spell/commands/remove_user.py`: revokes a user's read access on
    each model the command visits, then its login on the controller, then
    disables it. A failed step is only logged: the next one still runs. */
module RemoveUser {
  import opened Common
  import Juju
  import Base

  const REMOVE_SELF: string := "User can't remove self"

  /** `pre_check`: the configured user (`controller_config.user`) cannot
      remove itself. */
  function PreCheck(user: string, configured: string): (r: Option<Base.Result>)
    ensures r.Some? <==> user == configured
    ensures r.Some? ==>
      !r.value.success && r.value.output == Str(REMOVE_SELF) && r.value.error == Some(JujuSpellError(REMOVE_SELF))
  {
    if user == configured then Some(Base.Result(false, Str(REMOVE_SELF), Some(JujuSpellError(REMOVE_SELF))))
    else None
  }

  /** The call the pass makes on each model it visits. */
  function ModelRevoke(user: string): Juju.Model -> seq<Juju.Call>
  {
    (m: Juju.Model) => [Juju.RevokeModel(user, m.uuid, "read")]
  }

  /** The model revokes over the visited models `names`: the error of the
      first model the controller cannot hand out, if any, and the calls
      made. The revokes' own answers play no part. */
  function RevokeModels(user: string, names: seq<string>, site: map<string, Juju.Model>)
    : (r: (Option<Error>, seq<Juju.Call>))
    ensures forall c | c in r.1 :: c.GetModel? || c.RevokeModel? || c.DisconnectModel?
    ensures r.0.None? <==> forall i | 0 <= i < |names| :: names[i] in site
    decreases |names|
  {
    if |names| == 0 then (None, [])
    else
      var n := names[0];
      match Base.GetModel(site, n)
      case Raise(e) => (Some(e), [Juju.GetModel(n)])
      case Ok(model) =>
        var rest := RevokeModels(user, names[1..], site);
        assert forall i | 0 <= i < |names| - 1 :: names[1..][i] == names[i + 1];
        (rest.0, [Juju.GetModel(n), Juju.RevokeModel(user, model.uuid, "read"), Juju.DisconnectModel(n)] + rest.1)
  }

  /** The whole command: the listing if any, the model revokes, then the
      login revoke and the disable, each once. */
  function RemoveSpec(user: string, models: Option<seq<string>>, mappings: Option<Base.Mappings>,
                      listed: Try<seq<string>>, site: map<string, Juju.Model>): (r: (Try<bool>, seq<Juju.Call>))
    ensures r.0.Ok? ==> r.0.value && |r.1| >= 2 && r.1[|r.1| - 2..] == [Juju.Revoke(user, "login"), Juju.DisableUser(user)]
    ensures r.0.Raise? ==> forall c | c in r.1 :: !c.Revoke? && !c.DisableUser?
  {
    var listing := Base.ListingCalls(models);
    match Base.FilteredModelNames(models, mappings, listed)
    case Raise(e) => (Raise(e), listing)
    case Ok(names) =>
      var pass := RevokeModels(user, names, site);
      if pass.0.Some? then (Raise(pass.0.value), listing + pass.1)
      else (Ok(true), listing + pass.1 + [Juju.Revoke(user, "login"), Juju.DisableUser(user)])
  }

  /** `RemoveUserCommand.execute`. `revokeModelAnswer` (by model uuid),
      `revokeAnswer` and `disableAnswer` are the controller's answers to
      the three kinds of step; the outcome and the calls are the same
      whatever they are. */
  method Execute(user: string, models: Option<seq<string>>, mappings: Option<Base.Mappings>,
                 listed: Try<seq<string>>, site: map<string, Juju.Model>,
                 revokeModelAnswer: string -> Try<()>, revokeAnswer: Try<()>, disableAnswer: Try<()>)
    returns (r: Try<bool>, calls: seq<Juju.Call>)
    ensures (r, calls) == RemoveSpec(user, models, mappings, listed, site)
  {
    calls := Base.ListingCalls(models);
    var filtered := Base.FilteredModelNames(models, mappings, listed);
    if filtered.Raise? {
      return Raise(filtered.error), calls;
    }
    var pass, error := RevokePass(user, filtered.value, site, revokeModelAnswer);
    calls := calls + pass;
    if error.Some? {
      return Raise(error.value), calls;
    }
    calls := calls + [Juju.Revoke(user, "login")];
    var revoked := Base.RunCall(revokeAnswer);
    if !revoked.success {
      // only logged
    }
    calls := calls + [Juju.DisableUser(user)];
    var disabled := Base.RunCall(disableAnswer);
    if !disabled.success {
      // only logged
    }
    assert calls == Base.ListingCalls(models) + pass + [Juju.Revoke(user, "login"), Juju.DisableUser(user)];
    r := Ok(true);
  }

  /** The loop of `execute` over the visited models: a failed revoke is
      only logged, a model the controller cannot hand out ends the pass. */
  method RevokePass(user: string, names: seq<string>, site: map<string, Juju.Model>,
                    answer: string -> Try<()>)
    returns (calls: seq<Juju.Call>, error: Option<Error>)
    ensures (error, calls) == RevokeModels(user, names, site)
  {
    calls := [];
    assert names[0..] == names;
    assert calls + RevokeModels(user, names, site).1 == RevokeModels(user, names, site).1;
    var i := 0;
    while i < |names|
      invariant 0 <= i <= |names|
      invariant var rest := RevokeModels(user, names[i..], site);
        RevokeModels(user, names, site) == (rest.0, calls + rest.1)
    {
      var n := names[i];
      assert names[i..][0] == n;
      assert names[i..][1..] == names[i + 1..];
      var model := Base.GetModel(site, n);
      if model.Raise? {
        return calls + [Juju.GetModel(n)], Some(model.error);
      }
      var revoked := Base.RunCall(answer(model.value.uuid));
      if !revoked.success {
        // only logged
      }
      var visit := [Juju.GetModel(n), Juju.RevokeModel(user, model.value.uuid, "read"), Juju.DisconnectModel(n)];
      ghost var rest := RevokeModels(user, names[i + 1..], site);
      assert calls + (visit + rest.1) == calls + visit + rest.1;
      calls := calls + visit;
      i := i + 1;
    }
    assert names[i..] == [];
    assert calls + [] == calls;
    error := None;
  }

  /** When every visited model exists, each is fetched, revoked and
      disconnected once, in order. */
  lemma {:induction false} AllRevoked(user: string, names: seq<string>, site: map<string, Juju.Model>)
    requires forall i :: 0 <= i < |names| ==> names[i] in site
    ensures RevokeModels(user, names, site) == (None, Base.VisitCalls(names, site, ModelRevoke(user)))
    decreases |names|
  {
    if |names| > 0 {
      AllRevoked(user, names[1..], site);
      var n := names[0];
      assert ModelRevoke(user)(site[n]) == [Juju.RevokeModel(user, site[n].uuid, "read")];
      assert [Juju.GetModel(n), Juju.RevokeModel(user, site[n].uuid, "read"), Juju.DisconnectModel(n)]
          == [Juju.GetModel(n)] + ModelRevoke(user)(site[n]) + [Juju.DisconnectModel(n)];
    }
  }

  /** With every visited model available the command succeeds: every
      model is revoked and disconnected in turn, then the login is revoked
      and the user disabled. */
  lemma Removed(user: string, models: Option<seq<string>>, mappings: Option<Base.Mappings>,
                listed: Try<seq<string>>, site: map<string, Juju.Model>, names: seq<string>)
    requires Base.FilteredModelNames(models, mappings, listed) == Ok(names)
    requires forall i :: 0 <= i < |names| ==> names[i] in site
    ensures var visits := Base.VisitCalls(names, site, ModelRevoke(user));
      RemoveSpec(user, models, mappings, listed, site)
        == (Ok(true), Base.ListingCalls(models) + visits + [Juju.Revoke(user, "login"), Juju.DisableUser(user)])
      && Base.Disconnected(visits) == names && Base.Fetched(visits) == names
  {
    AllRevoked(user, names, site);
    forall m | m in site.Values
      ensures Base.Disconnected(ModelRevoke(user)(m)) == [] && Base.Fetched(ModelRevoke(user)(m)) == []
    {
      assert ModelRevoke(user)(m) == [Juju.RevokeModel(user, m.uuid, "read")];
    }
    Base.VisitCallsDisconnects(names, site, ModelRevoke(user));
  }
}
