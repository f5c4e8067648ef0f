/** `juju_spell/assignment/runner.py`: runs a command on every configured
    controller, one after the other, optionally after pinging them all,
    and cleans the connection registry up on every way out. */
module Runner {
  import opened Common
  import Config
  import Base
  import Manager

  /** `PING_UNREACHABLE`: what the ping command outputs for a controller it
      cannot reach. */
  const PING_UNREACHABLE: string := "unreachable"

  const PARALLEL_UNSUPPORTED: Error := NotImplementedError("running in parallel is not yet supported")
  const BATCH_UNSUPPORTED: Error := NotImplementedError("running in batches is not yet supported")

  /** The record of one controller: its context (`uuid`, `name`,
      `customer`) and the fields of the command's `Result`. */
  datatype Record = Record(uuid: string, name: string, customer: string,
                           success: bool, output: Value, error: Option<Error>)
  {
    /** The `Result` the record carries. */
    function Outcome(): Base.Result
    {
      Base.Result(success, output, error)
    }
  }

  /** `get_result`: the controller's context and the result, copied
      unchanged. */
  function GetResult(c: Config.Controller, output: Base.Result): (r: Record)
    ensures r.Outcome() == output
    ensures (r.uuid, r.name, r.customer) == (c.uuid, c.name, c.customer)
  {
    Record(c.uuid, c.name, c.customer, output.success, output.output, output.error)
  }

  /** The command line arguments (`argparse.Namespace`); `vars()` of it is
      the namespace itself, so setting `controller_config` in the keyword
      arguments sets it here. */
  class Namespace {
    const runType: string
    const preCheck: bool
    var controllerConfig: Option<Config.Controller>

    constructor (runType: string, preCheck: bool)
      ensures this.runType == runType && this.preCheck == preCheck && controllerConfig.None?
    {
      this.runType := runType;
      this.preCheck := preCheck;
      controllerConfig := None;
    }
  }

  /** The two commands a run invokes: the ping of the pre-check, and the
      command asked for. */
  datatype Command = Ping | Main

  /** One `command.run(...)` call: the command and the `controller_config`
      its keyword arguments carried. */
  datatype Invocation = Invocation(command: Command, controllerConfig: Config.Controller)

  /** What a serial run over `controllers` yields and invokes. `reached` is
      the outcome of `get_controller` for a controller, given the port
      range; `outcome` the `Result` of `command.run` on it, which never
      raises. */
  function Serial(controllers: seq<Config.Controller>, command: Command, range: Option<Config.PortRange>,
                  reached: (Config.Controller, Option<Config.PortRange>) -> Try<()>,
                  outcome: (Command, Config.Controller) -> Base.Result): (Try<seq<Record>>, seq<Invocation>)
    decreases |controllers|
  {
    if |controllers| == 0 then (Ok([]), [])
    else
      var c := controllers[0];
      match reached(c, range)
      case Raise(e) => (Raise(e), [])
      case Ok(_) =>
        var rest := Serial(controllers[1..], command, range, reached, outcome);
        var records := match rest.0
          case Raise(e) => Raise(e)
          case Ok(rs) => Ok([GetResult(c, outcome(command, c))] + rs);
        (records, [Invocation(command, c)] + rest.1)
  }

  /** With every controller reachable, a serial run yields exactly one
      record per controller, in configuration order, each with its own
      controller's context and result, and invokes the command once per
      controller with that controller. */
  lemma {:induction false} SerialAllReached(controllers: seq<Config.Controller>, command: Command,
                                            range: Option<Config.PortRange>,
                                            reached: (Config.Controller, Option<Config.PortRange>) -> Try<()>,
                                            outcome: (Command, Config.Controller) -> Base.Result)
    requires forall i | 0 <= i < |controllers| :: reached(controllers[i], range).Ok?
    ensures var s := Serial(controllers, command, range, reached, outcome);
      s.0.Ok? && |s.0.value| == |controllers| && |s.1| == |controllers| &&
      forall i | 0 <= i < |controllers| ::
        s.0.value[i] == GetResult(controllers[i], outcome(command, controllers[i])) &&
        s.1[i] == Invocation(command, controllers[i])
    decreases |controllers|
  {
    if |controllers| > 0 {
      var tail := controllers[1..];
      SerialAllReached(tail, command, range, reached, outcome);
      var s := Serial(controllers, command, range, reached, outcome);
      var t := Serial(tail, command, range, reached, outcome);
      assert s.0.value == [GetResult(controllers[0], outcome(command, controllers[0]))] + t.0.value;
      assert s.1 == [Invocation(command, controllers[0])] + t.1;
      forall i | 1 <= i < |controllers|
        ensures s.0.value[i] == GetResult(controllers[i], outcome(command, controllers[i]))
        ensures s.1[i] == Invocation(command, controllers[i])
      {
        assert tail[i - 1] == controllers[i];
      }
    }
  }

  /** The first unreachable controller ends a serial run with its error:
      the command ran on every controller before it and on none after. */
  lemma {:induction false} SerialUnreached(controllers: seq<Config.Controller>, command: Command,
                                           range: Option<Config.PortRange>,
                                           reached: (Config.Controller, Option<Config.PortRange>) -> Try<()>,
                                           outcome: (Command, Config.Controller) -> Base.Result, k: nat)
    requires k < |controllers|
    requires forall i | 0 <= i < k :: reached(controllers[i], range).Ok?
    requires reached(controllers[k], range).Raise?
    ensures var s := Serial(controllers, command, range, reached, outcome);
      s.0 == Raise(reached(controllers[k], range).error) &&
      s.1 == seq(k, i requires 0 <= i < k => Invocation(command, controllers[i]))
    decreases k
  {
    if k > 0 {
      var tail := controllers[1..];
      assert tail[k - 1] == controllers[k];
      SerialUnreached(tail, command, range, reached, outcome, k - 1);
      var s := Serial(controllers, command, range, reached, outcome);
      var t := Serial(tail, command, range, reached, outcome);
      assert s.1 == [Invocation(command, controllers[0])] + t.1;
    }
  }

  /** `run_serial`, as meant: the port range is an input. */
  method RunSerial(config: Config.Config, command: Command, args: Namespace, range: Option<Config.PortRange>,
                   reached: (Config.Controller, Option<Config.PortRange>) -> Try<()>,
                   outcome: (Command, Config.Controller) -> Base.Result)
    returns (r: Try<seq<Record>>, trace: seq<Invocation>)
    modifies args
    ensures (r, trace) == Serial(config.controllers, command, range, reached, outcome)
    ensures args.controllerConfig ==
      if |trace| == 0 then old(args.controllerConfig) else Some(trace[|trace| - 1].controllerConfig)
  {
    var controllers := config.controllers;
    var results: seq<Record> := [];
    trace := [];
    var i := 0;
    while i < |controllers|
      invariant 0 <= i <= |controllers|
      invariant forall j | 0 <= j < i :: reached(controllers[j], range).Ok?
      invariant trace == seq(i, j requires 0 <= j < i => Invocation(command, controllers[j]))
      invariant results == seq(i, j requires 0 <= j < i => GetResult(controllers[j], outcome(command, controllers[j])))
      invariant args.controllerConfig ==
        if |trace| == 0 then old(args.controllerConfig) else Some(trace[|trace| - 1].controllerConfig)
    {
      var c := controllers[i];
      var controller := reached(c, range);
      if controller.Raise? {
        SerialUnreached(controllers, command, range, reached, outcome, i);
        return Raise(controller.error), trace;
      }
      args.controllerConfig := Some(c);
      var output := outcome(command, args.controllerConfig.value);
      results := results + [GetResult(c, output)];
      trace := trace + [Invocation(command, c)];
      i := i + 1;
    }
    SerialAllReached(controllers, command, range, reached, outcome);
    ghost var whole := Serial(controllers, command, range, reached, outcome);
    assert whole.0.value == results;
    assert whole.1 == trace;
    r := Ok(results);
  }

  /** The attributes a `Config` has. */
  const CONFIG_ATTRIBUTES: set<string> := {"controllers"}

  /** `run_serial` as written: it reads `config.connection` before the
      loop, and looking an attribute up on a `Config` that lacks it
      raises. */
  function RunSerialAsWritten(config: Config.Config, command: Command,
                              reached: (Config.Controller, Option<Config.PortRange>) -> Try<()>,
                              outcome: (Command, Config.Controller) -> Base.Result): Try<seq<Record>>
    reads config
  {
    if "connection" !in CONFIG_ATTRIBUTES then Raise(AttributeError("connection"))
    else Serial(config.controllers, command, None, reached, outcome).0
  }

  /** Even with every controller reachable the serial run as written
      raises before any command runs, where the run as meant yields one
      record per controller. */
  lemma RunSerialAsWrittenRaises(config: Config.Config, command: Command, range: Option<Config.PortRange>,
                                 reached: (Config.Controller, Option<Config.PortRange>) -> Try<()>,
                                 outcome: (Command, Config.Controller) -> Base.Result)
    requires |config.controllers| > 0
    requires forall i | 0 <= i < |config.controllers| :: reached(config.controllers[i], range).Ok?
    ensures RunSerialAsWritten(config, command, reached, outcome) == Raise(AttributeError("connection"))
    ensures Serial(config.controllers, command, range, reached, outcome).0.Ok?
  {
    SerialAllReached(config.controllers, command, range, reached, outcome);
  }

  /** `run_parallel` and `run_batch`: not supported. */
  method RunParallel() returns (r: Try<seq<Record>>)
    ensures r == Raise(PARALLEL_UNSUPPORTED)
  {
    r := Raise(PARALLEL_UNSUPPORTED);
  }

  method RunBatch() returns (r: Try<seq<Record>>)
    ensures r == Raise(BATCH_UNSUPPORTED)
  {
    r := Raise(BATCH_UNSUPPORTED);
  }

  /** Some ping record says the controller is unreachable. */
  predicate AnyUnreachable(records: seq<Record>)
  {
    exists i | 0 <= i < |records| :: records[i].output == Str(PING_UNREACHABLE)
  }

  /** The run of `command` by `run_type`: parallel and batch runs raise,
      anything else runs serially. */
  function Dispatched(controllers: seq<Config.Controller>, runType: string, command: Command,
                      range: Option<Config.PortRange>,
                      reached: (Config.Controller, Option<Config.PortRange>) -> Try<()>,
                      outcome: (Command, Config.Controller) -> Base.Result): (Try<seq<Record>>, seq<Invocation>)
  {
    if runType == "parallel" then (Raise(PARALLEL_UNSUPPORTED), [])
    else if runType == "batch" then (Raise(BATCH_UNSUPPORTED), [])
    else Serial(controllers, command, range, reached, outcome)
  }

  /** `pre_check`: pings every controller the way `run_type` says and is
      ok unless some ping reports an unreachable controller; the ping
      records are handed back either way. */
  method PreCheck(config: Config.Config, args: Namespace, range: Option<Config.PortRange>,
                  reached: (Config.Controller, Option<Config.PortRange>) -> Try<()>,
                  outcome: (Command, Config.Controller) -> Base.Result)
    returns (r: Try<(bool, seq<Record>)>, trace: seq<Invocation>)
    modifies args
    ensures var d := Dispatched(config.controllers, args.runType, Ping, range, reached, outcome);
      trace == d.1 &&
      (d.0.Raise? ==> r == Raise(d.0.error)) &&
      (d.0.Ok? ==> r == Ok((!AnyUnreachable(d.0.value), d.0.value)))
  {
    var result: Try<seq<Record>>;
    trace := [];
    if args.runType == "parallel" {
      result := RunParallel();
    } else if args.runType == "batch" {
      result := RunBatch();
    } else {
      result, trace := RunSerial(config, Ping, args, range, reached, outcome);
    }
    if result.Raise? {
      return Raise(result.error), trace;
    }
    var records := result.value;
    var unreachable := exists i | 0 <= i < |records| :: records[i].output == Str(PING_UNREACHABLE);
    if unreachable {
      return Ok((false, records)), trace;
    }
    r := Ok((true, records));
  }

  /** Every ping invocation is a ping, on the controllers in order. */
  lemma {:induction false} SerialInvokes(controllers: seq<Config.Controller>, command: Command,
                                         range: Option<Config.PortRange>,
                                         reached: (Config.Controller, Option<Config.PortRange>) -> Try<()>,
                                         outcome: (Command, Config.Controller) -> Base.Result)
    ensures var s := Serial(controllers, command, range, reached, outcome);
      |s.1| <= |controllers| &&
      forall i | 0 <= i < |s.1| :: s.1[i] == Invocation(command, controllers[i])
    decreases |controllers|
  {
    if |controllers| > 0 {
      var tail := controllers[1..];
      SerialInvokes(tail, command, range, reached, outcome);
      var s := Serial(controllers, command, range, reached, outcome);
      var t := Serial(tail, command, range, reached, outcome);
      if reached(controllers[0], range).Ok? {
        assert s.1 == [Invocation(command, controllers[0])] + t.1;
        forall i | 1 <= i < |s.1|
          ensures s.1[i] == Invocation(command, controllers[i])
        {
          assert s.1[i] == t.1[i - 1];
          assert tail[i - 1] == controllers[i];
        }
      }
    }
  }

  /** The whole of `run`: the pre-check when asked for, then, unless it
      failed, the command by `run_type`. */
  function RunSpec(controllers: seq<Config.Controller>, runType: string, preCheck: bool,
                   range: Option<Config.PortRange>,
                   reached: (Config.Controller, Option<Config.PortRange>) -> Try<()>,
                   outcome: (Command, Config.Controller) -> Base.Result): (Try<seq<Record>>, seq<Invocation>)
  {
    var ping := if preCheck then Dispatched(controllers, runType, Ping, range, reached, outcome) else (Ok([]), []);
    match ping.0
    case Raise(e) => (Raise(e), ping.1)
    case Ok(records) =>
      if preCheck && AnyUnreachable(records) then (Ok(records), ping.1)
      else
        var main := Dispatched(controllers, runType, Main, range, reached, outcome);
        (main.0, ping.1 + main.1)
  }

  /** A failed pre-check hands back the ping records and the command asked
      for never runs; without a pre-check nothing is pinged. */
  lemma RunPreCheck(controllers: seq<Config.Controller>, runType: string, preCheck: bool,
                    range: Option<Config.PortRange>,
                    reached: (Config.Controller, Option<Config.PortRange>) -> Try<()>,
                    outcome: (Command, Config.Controller) -> Base.Result)
    ensures var ping := Dispatched(controllers, runType, Ping, range, reached, outcome);
      var run := RunSpec(controllers, runType, preCheck, range, reached, outcome);
      (preCheck && ping.0.Ok? && AnyUnreachable(ping.0.value) ==>
        run.0 == ping.0 && forall i | 0 <= i < |run.1| :: run.1[i].command == Ping)
    ensures !preCheck ==>
      forall i | 0 <= i < |RunSpec(controllers, runType, preCheck, range, reached, outcome).1| ::
        RunSpec(controllers, runType, preCheck, range, reached, outcome).1[i].command == Main
  {
    SerialInvokes(controllers, Ping, range, reached, outcome);
    SerialInvokes(controllers, Main, range, reached, outcome);
    if !preCheck {
      var main := Dispatched(controllers, runType, Main, range, reached, outcome);
      assert RunSpec(controllers, runType, preCheck, range, reached, outcome).1 == [] + main.1;
      assert [] + main.1 == main.1;
    }
  }

  /** `run`: whatever happens, `connect_manager.clean()` runs once on the
      way out, so the registry is empty and every controller it held is
      disconnected. */
  method Run(manager: Manager.ConnectManager, config: Config.Config, args: Namespace,
             range: Option<Config.PortRange>,
             reached: (Config.Controller, Option<Config.PortRange>) -> Try<()>,
             outcome: (Command, Config.Controller) -> Base.Result)
    returns (r: Try<seq<Record>>, trace: seq<Invocation>)
    modifies args, manager.cls, manager.cls.Controllers(), manager.cls.Processes()
    ensures (r, trace) == RunSpec(config.controllers, args.runType, args.preCheck, range, reached, outcome)
    ensures manager.cls.connections == map[]
    ensures forall n | n in old(manager.cls.connections) :: Manager.Closed(old(manager.cls.connections)[n])
  {
    trace := [];
    r := Ok([]);
    var done := false;
    if args.preCheck {
      var checked;
      checked, trace := PreCheck(config, args, range, reached, outcome);
      if checked.Raise? {
        r, done := Raise(checked.error), true;
      } else if !checked.value.0 {
        r, done := Ok(checked.value.1), true;
      }
    }
    if !done {
      var main: seq<Invocation> := [];
      if args.runType == "parallel" {
        r := RunParallel();
      } else if args.runType == "batch" {
        r := RunBatch();
      } else {
        r, main := RunSerial(config, Main, args, range, reached, outcome);
      }
      trace := trace + main;
    }
    manager.Clean();
  }
}
