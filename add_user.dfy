/** `juju_spell/commands/add_user.py`: creates a user unless it exists,
    resets its password when asked to overwrite, then enables it and
    grants it access through the enable and grant sub-commands. Without
    `overwrite` a failed sub-command ends the command with its result. */
module AddUser {
  import opened Common
  import Juju
  import Base

  const ADD_SELF: string := "User can't add self"

  /** `pre_check`: the configured user (`controller_config.user`) cannot
      add itself. */
  function PreCheck(user: string, configured: string): (r: Option<Base.Result>)
    ensures r.Some? <==> user == configured
    ensures r.Some? ==>
      !r.value.success && r.value.output == Str(ADD_SELF) && r.value.error == Some(JujuSpellError(ADD_SELF))
  {
    if user == configured then Some(Base.Result(false, Str(ADD_SELF), Some(JujuSpellError(ADD_SELF))))
    else None
  }

  /** One step of `execute`: a call on the controller, or running the
      enable or the grant sub-command. */
  datatype Step = Remote(call: Juju.Call) | RunEnable | RunGrant

  /** The password the command uses: the given one, or `generated` (what
      `random_password` returns) when the given one is empty. */
  function Used(password: string, generated: string): (r: string)
    ensures |password| > 0 ==> r == password
    ensures |password| == 0 ==> r == generated
  {
    if |password| == 0 then generated else password
  }

  /** The user record the command ends up with: the existing one, or the
      one `add_user` created (`created`) when `get_user` (`existing`)
      found none. */
  function Account(existing: Try<Option<Juju.User>>, created: Try<Juju.User>): (r: Try<Juju.User>)
    ensures existing.Raise? ==> r == Raise(existing.error)
    ensures existing == Ok(None) ==> r == created
    ensures existing.Ok? && existing.value.Some? ==> r == Ok(existing.value.value)
  {
    match existing
    case Raise(e) => Raise(e)
    case Ok(None) => created
    case Ok(Some(u)) => Ok(u)
  }

  /** The dictionary a successful run returns. */
  function Created(account: Juju.User, password: string): Value
  {
    Dict(map["user" := Str(account.username), "display_name" := Str(account.displayName),
             "password" := Str(password)])
  }

  /** `AddUserCommand.execute`. `existing`, `created` and `passwordSet`
      are the controller's answers to `get_user`, `add_user` and
      `set_password`; `enable` and `grant` are the results of the
      sub-commands' `run`; `acl` is the `acl` argument (Null when absent). */
  method Execute(user: string, password: string, displayName: string, overwrite: bool, acl: Value,
                 generated: string, existing: Try<Option<Juju.User>>, created: Try<Juju.User>,
                 passwordSet: Try<()>, enable: Base.Result, grant: Base.Result)
    returns (r: Try<Base.Output>, steps: seq<Step>)
    ensures |steps| > 0 && steps[0] == Remote(Juju.GetUser(user))
    // the user is created only when it does not exist
    ensures Remote(Juju.AddUser(user, Used(password, generated), displayName)) in steps <==> existing == Ok(None)
    // the password is reset only when overwriting
    ensures overwrite && Account(existing, created).Ok? ==>
      Remote(Juju.SetPassword(Account(existing, created).value.username, Used(password, generated))) in steps
    ensures !overwrite ==> forall s | s in steps :: !(s.Remote? && s.call.SetPassword?)
    // the steps that may raise
    ensures r.Raise? <==> Account(existing, created).Raise? || (overwrite && passwordSet.Raise?)
    ensures RunEnable in steps <==> r.Ok?
    ensures RunGrant in steps <==> r.Ok? && Truthy(acl) && (enable.success || overwrite)
    // a failed sub-command ends the command only without overwrite
    ensures r.Ok? && r.value.Passed? <==>
      r.Ok? && !overwrite && (!enable.success || (Truthy(acl) && !grant.success))
    ensures r.Ok? && r.value.Passed? ==> r.value.result == if !enable.success then enable else grant
    ensures r.Ok? && r.value.Returned? ==>
      r.value.value == Created(Account(existing, created).value, Used(password, generated))
  {
    var pw := password;
    if |pw| == 0 {
      pw := generated;
    }
    steps := [Remote(Juju.GetUser(user))];
    if existing.Raise? {
      return Raise(existing.error), steps;
    }
    var account: Juju.User;
    if existing.value.None? {
      steps := steps + [Remote(Juju.AddUser(user, pw, displayName))];
      if created.Raise? {
        return Raise(created.error), steps;
      }
      account := created.value;
    } else {
      account := existing.value.value;
    }
    if overwrite {
      steps := steps + [Remote(Juju.SetPassword(account.username, pw))];
      if passwordSet.Raise? {
        return Raise(passwordSet.error), steps;
      }
    }
    steps := steps + [RunEnable];
    if !enable.success && !overwrite {
      return Ok(Base.Passed(enable)), steps;
    }
    if Truthy(acl) {
      steps := steps + [RunGrant];
      if !grant.success && !overwrite {
        return Ok(Base.Passed(grant)), steps;
      }
    }
    r := Ok(Base.Returned(Dict(map["user" := Str(account.username), "display_name" := Str(account.displayName),
                                   "password" := Str(pw)])));
  }
}
