/** `juju_spell/connections/manager.py`: the registry of live controller
    connections, keyed by the controller's configured name, together with
    the tunnel process (if any) each connection goes through. The registry
    is a class attribute shared by every `ConnectManager()`; the juju
    dial, the free-port probe and the port shuffle are inputs. */
module Manager {
  import opened Common
  import Strings
  import Config
  import Network
  import Juju

  /** `6**24`, the frame size every controller handle is created with. */
  const MAX_FRAME_SIZE: int := 4738381338321616896

  /** What unpacking `*None` raises. */
  const NOT_ITERABLE: string := "Value after * must be an iterable, not NoneType"

  /** The registry entry: the controller handle and its tunnel process. */
  datatype Connection = Connection(controller: Juju.Controller, process: Option<Network.Process>)

  /** The tunnel process of a connection, if it has one. */
  function Tunnel(connection: Connection): set<Network.Process>
  {
    if connection.process.Some? then {connection.process.value} else {}
  }

  /** A closed connection: its controller is disconnected and its tunnel
      process, if any, terminated. */
  predicate Closed(connection: Connection)
    reads connection.controller, Tunnel(connection)
  {
    !connection.controller.IsConnected() && (connection.process.Some? ==> connection.process.value.terminated)
  }

  // ---------------------------------------------------------------------
  // Tunnel processes
  // ---------------------------------------------------------------------

  /** `ssh_port_forwarding_proc`: spawns `ssh` with the argument list the
      port-forward of `network.py` uses too. */
  method SshPortForwardingProc(local: string, remote: string, destination: string, jumps: Option<seq<string>>)
    returns (p: Network.Process)
    ensures fresh(p) && p.returncode.None? && !p.terminated
    ensures p.cmd == Network.PortForwardCommand(local, remote, destination, jumps)
  {
    var cmd := ["ssh", destination, "-N", "-L", local + ":" + remote];
    if Network.HasJumps(jumps) {
      cmd := cmd + [Network.JumpFlags(jumps.value)];
    }
    p := new Network.Process(cmd);
  }

  /** `sshuttle_proc`: unpacking a missing subnet list raises TypeError
      before anything is spawned. */
  method SshuttleProc(subnets: Option<seq<string>>, destination: string, jumps: Option<seq<string>>)
    returns (r: Try<Network.Process>)
    ensures r.Ok? <==> subnets.Some?
    ensures r.Raise? ==> r.error == TypeError(NOT_ITERABLE)
    ensures r.Ok? ==> fresh(r.value) && r.value.returncode.None? && !r.value.terminated
    ensures r.Ok? ==> r.value.cmd == Network.SshuttleCommand(subnets.value, destination, jumps)
  {
    if subnets.None? {
      return Raise(TypeError(NOT_ITERABLE));
    }
    var cmd := ["sshuttle"] + subnets.value + ["-r", destination];
    if Network.HasJumps(jumps) {
      cmd := cmd + ["-e 'ssh " + Network.JumpFlags(jumps.value) + "'"];
    }
    var p := new Network.Process(cmd);
    return Ok(p);
  }

  // ---------------------------------------------------------------------
  // What _connect dials
  // ---------------------------------------------------------------------

  /** What `_connect` sets up before dialling: the local endpoint of a
      port-forward, if any, and the command of the tunnel process, if any.
      `shuffled` is the shuffled port list and `free` the ports the probe
      finds free. */
  function Plan(c: Config.Controller, sshuttle: bool, range: Config.PortRange, shuffled: seq<int>, free: set<int>)
    : Try<(Option<string>, Option<seq<string>>)>
  {
    match c.connection
    case None => Ok((None, None))
    case Some(conn) =>
      if !sshuttle then
        match Network.FirstFree(shuffled, free)
        case None => Raise(ValueError(Network.NoFreePort(range)))
        case Some(i) =>
          var local := Network.LocalEndpoint(shuffled[i]);
          Ok((Some(local), Some(Network.PortForwardCommand(local, c.endpoint, conn.destination, conn.jumps))))
      else if conn.subnets.None? then Raise(TypeError(NOT_ITERABLE))
      else Ok((None, Some(Network.SshuttleCommand(conn.subnets.value, conn.destination, conn.jumps))))
  }

  /** A port-forward (and a local endpoint) exactly when there is a
      connection section and sshuttle is off; a tunnel process exactly when
      there is a connection section; the forwarded port is the first free
      one of the shuffled range and the remote target is the configured
      endpoint. */
  lemma PlanChoice(c: Config.Controller, sshuttle: bool, range: Config.PortRange, shuffled: seq<int>, free: set<int>)
    requires multiset(shuffled) == multiset(range.Ports())
    requires Plan(c, sshuttle, range, shuffled, free).Ok?
    ensures var p := Plan(c, sshuttle, range, shuffled, free).value;
      (p.0.Some? <==> c.connection.Some? && !sshuttle) &&
      (p.1.Some? <==> c.connection.Some?)
    ensures c.connection.Some? && !sshuttle ==>
      var p := Plan(c, sshuttle, range, shuffled, free).value;
      var port := shuffled[Network.FirstFree(shuffled, free).value];
      port in free && range.start <= port < range.stop &&
      Strings.StartsWith(p.0.value, "localhost:") &&
      p.1.value[|p.1.value| - 1 - (if Network.HasJumps(c.connection.value.jumps) then 1 else 0)]
        == p.0.value + ":" + c.endpoint
  {
    if c.connection.Some? && !sshuttle {
      var i := Network.FirstFree(shuffled, free).value;
      assert shuffled[i] in multiset(range.Ports());
      Network.PortInRange(range, shuffled[i]);
      assert Network.LocalEndpoint(shuffled[i])[..10] == "localhost:";
    }
  }

  /** `controller_config.<attr>`: the dataclass has no other attributes. */
  function Attr(c: Config.Controller, attr: string): (r: Try<Value>)
    ensures r.Ok? <==> attr in Config.ControllerFields
  {
    var fields := Config.Fields(c);
    if attr in fields then Ok(fields[attr]) else Raise(AttributeError(attr))
  }

  /** The dial of `_connect` as written: the user name is read from a
      `username` attribute. */
  function DialAsWritten(c: Config.Controller, local: Option<string>): Try<Juju.Dial>
  {
    match Attr(c, "username")
    case Raise(e) => Raise(e)
    case Ok(u) =>
      if u.Str? then Ok(Juju.Dial(if local.Some? && local.value != "" then local.value else c.endpoint,
                                  u.s, c.password, c.caCert, None, None, None))
      else Raise(TypeError("username must be a string"))
  }

  /** The configuration record has no `username`, so the dial as written
      raises for every controller, after the tunnel has been spawned. */
  lemma DialAsWrittenRaises(c: Config.Controller, local: Option<string>)
    ensures DialAsWritten(c, local) == Raise(AttributeError("username"))
  {
    assert "username" !in Config.ControllerFields;
  }

  /** The dial as intended: the forwarded local endpoint when there is one,
      else the configured endpoint, as the configured `user`. */
  function DialFor(c: Config.Controller, local: Option<string>): (d: Juju.Dial)
    ensures Attr(c, "user") == Ok(Str(d.username))
    ensures Attr(c, "endpoint") == Ok(Str(d.endpoint)) <==> local.None? || local.value == "" || local.value == c.endpoint
    ensures d.password == c.password && d.cacert == c.caCert
  {
    Juju.Dial(if local.Some? && local.value != "" then local.value else c.endpoint,
              c.user, c.password, c.caCert, None, None, None)
  }

  // ---------------------------------------------------------------------
  // The registry
  // ---------------------------------------------------------------------

  /** The `ConnectManager` class object: the singleton and the registry
      `_connections`, both class attributes. */
  class ConnectManagerClass {
    var manager: ConnectManager?
    var connections: map<string, Connection>

    constructor ()
      ensures manager == null && connections == map[]
    {
      manager := null;
      connections := map[];
    }

    predicate Valid()
      reads this, manager
    {
      manager != null ==> manager.cls == this
    }

    /** The registered controller handles. */
    function Controllers(): set<Juju.Controller>
      reads this
    {
      set n | n in connections :: connections[n].controller
    }

    /** The registered tunnel processes. */
    function Processes(): set<Network.Process>
      reads this
    {
      set n | n in connections && connections[n].process.Some? :: connections[n].process.value
    }

    /** `ConnectManager()`: creates the instance on the first call and
        returns that same instance, over the same registry, ever after. */
    method New() returns (m: ConnectManager)
      requires Valid()
      modifies this
      ensures Valid() && manager == m && m.cls == this
      ensures old(manager) != null ==> m == old(manager)
      ensures old(manager) == null ==> fresh(m)
      ensures connections == old(connections)
    {
      if manager == null {
        manager := new ConnectManager(this);
      }
      m := manager;
    }
  }

  class ConnectManager {
    const cls: ConnectManagerClass

    constructor (cls: ConnectManagerClass)
      ensures this.cls == cls
    {
      this.cls := cls;
    }

    /** `_connect`: spawns the tunnel the configuration calls for, dials
        the controller through it and registers the connection under the
        configured name, replacing any earlier entry. `answer` is the
        controller's reply to the dial. */
    method Connect(c: Config.Controller, range: Config.PortRange, sshuttle: bool,
                   shuffled: seq<int>, free: set<int>, answer: Try<()>)
      returns (r: Try<Juju.Controller>)
      requires multiset(shuffled) == multiset(range.Ports())
      modifies cls
      ensures cls.manager == old(cls.manager)
      ensures Plan(c, sshuttle, range, shuffled, free).Raise? ==>
        r == Raise(Plan(c, sshuttle, range, shuffled, free).error) && cls.connections == old(cls.connections)
      ensures Plan(c, sshuttle, range, shuffled, free).Ok? && answer.Raise? ==>
        r == Raise(answer.error) && cls.connections == old(cls.connections)
      ensures Plan(c, sshuttle, range, shuffled, free).Ok? && answer.Ok? ==>
        var plan := Plan(c, sshuttle, range, shuffled, free).value;
        r.Ok? && fresh(r.value) && r.value.connected && r.value.maxFrameSize == MAX_FRAME_SIZE &&
        r.value.dials == [DialFor(c, plan.0)] &&
        c.name in cls.connections &&
        cls.connections == old(cls.connections)[c.name := cls.connections[c.name]] &&
        cls.connections[c.name].controller == r.value &&
        (cls.connections[c.name].process.Some? <==> plan.1.Some?) &&
        (plan.1.Some? ==>
          var p := cls.connections[c.name].process.value;
          fresh(p) && p.cmd == plan.1.value && p.returncode.None? && !p.terminated)
    {
      var controller := new Juju.Controller(MAX_FRAME_SIZE);
      var tunnel := StartTunnel(c, range, sshuttle, shuffled, free);
      if tunnel.Raise? {
        return Raise(tunnel.error);
      }
      var local, process := tunnel.value.0, tunnel.value.1;
      var dialled := controller.Connect(DialFor(c, local), answer);
      if dialled.Raise? {
        return Raise(dialled.error);
      }
      cls.connections := cls.connections[c.name := Connection(controller, process)];
      return Ok(controller);
    }

    /** The tunnel part of `_connect`: a port-forward through the first free
        port of the shuffled range, or an sshuttle process, as `Plan` lays
        out; nothing is spawned when the plan raises. */
    static method StartTunnel(c: Config.Controller, range: Config.PortRange, sshuttle: bool,
                              shuffled: seq<int>, free: set<int>)
      returns (r: Try<(Option<string>, Option<Network.Process>)>)
      requires multiset(shuffled) == multiset(range.Ports())
      ensures r.Raise? <==> Plan(c, sshuttle, range, shuffled, free).Raise?
      ensures r.Raise? ==> r.error == Plan(c, sshuttle, range, shuffled, free).error
      ensures r.Ok? ==>
        var plan := Plan(c, sshuttle, range, shuffled, free).value;
        r.value.0 == plan.0 && (r.value.1.Some? <==> plan.1.Some?) &&
        (plan.1.Some? ==>
          var p := r.value.1.value;
          fresh(p) && p.cmd == plan.1.value && p.returncode.None? && !p.terminated)
    {
      r := Ok((None, None));
      if c.connection.Some? && !sshuttle {
        var conn := c.connection.value;
        var port := Network.GetFreeTcpPort(range, shuffled, free);
        if port.Raise? {
          return Raise(port.error);
        }
        var local := Network.LocalEndpoint(port.value);
        var p := SshPortForwardingProc(local, c.endpoint, conn.destination, conn.jumps);
        r := Ok((Some(local), Some(p)));
      } else if c.connection.Some? && sshuttle {
        var conn := c.connection.value;
        var p := SshuttleProc(conn.subnets, conn.destination, conn.jumps);
        if p.Raise? {
          return Raise(p.error);
        }
        r := Ok((None, Some(p.value)));
      }
    }

    /** `clean`: disconnects every registered controller, terminates every
        tunnel process and empties the registry. */
    method Clean()
      modifies cls, cls.Controllers(), cls.Processes()
      ensures cls.manager == old(cls.manager)
      ensures cls.connections == map[]
      ensures forall n | n in old(cls.connections) :: Closed(old(cls.connections)[n])
    {
      var names := cls.connections.Keys;
      ghost var before := cls.connections;
      ghost var cs := cls.Controllers();
      ghost var ps := cls.Processes();
      while names != {}
        modifies cls, cs, ps
        invariant names <= before.Keys
        invariant cls.manager == old(cls.manager)
        invariant cls.connections == map n | n in names :: before[n]
        invariant forall n | n in before && n !in names :: Closed(before[n])
        decreases |names|
      {
        var name :| name in names;
        ghost var connection := cls.connections[name];
        assert connection.controller in old(cls.Controllers());
        assert Tunnel(connection) <= old(cls.Processes());
        CloseEntry(name);
        names := names - {name};
      }
    }

    /** One entry of `clean`: its controller is disconnected, its tunnel
        process, if any, terminated, and the entry removed. */
    method CloseEntry(name: string)
      requires name in cls.connections
      modifies cls, cls.connections[name].controller, Tunnel(cls.connections[name])
      ensures cls.manager == old(cls.manager)
      ensures cls.connections == old(cls.connections) - {name}
      ensures Closed(old(cls.connections[name]))
    {
      var connection := cls.connections[name];
      connection.controller.Disconnect();
      if connection.process.Some? {
        connection.process.value.Terminate();
      }
      cls.connections := cls.connections - {name};
    }

    /** `get_controller`: a registered and connected controller is reused
        unless `reconnect` is asked for; with `reconnect`, a registered
        controller is disconnected first; otherwise a new connection is made
        and registered. */
    method GetController(c: Config.Controller, range: Config.PortRange, sshuttle: bool, reconnect: bool,
                         shuffled: seq<int>, free: set<int>, answer: Try<()>)
      returns (r: Try<Juju.Controller>)
      requires multiset(shuffled) == multiset(range.Ports())
      modifies cls, cls.Controllers()
      ensures cls.manager == old(cls.manager)
      ensures c.name in old(cls.connections) && old(cls.connections[c.name].controller.IsConnected()) && !reconnect ==>
        r == Ok(old(cls.connections)[c.name].controller) && cls.connections == old(cls.connections) &&
        old(cls.connections)[c.name].controller.disconnects == old(cls.connections[c.name].controller.disconnects)
      ensures c.name in old(cls.connections) && reconnect ==>
        var previous := old(cls.connections)[c.name].controller;
        !previous.IsConnected() && previous.disconnects == old(previous.disconnects) + 1
      ensures !(c.name in old(cls.connections) && old(cls.connections[c.name].controller.IsConnected()) && !reconnect) ==>
        (r.Ok? <==> Plan(c, sshuttle, range, shuffled, free).Ok? && answer.Ok?) &&
        (r.Raise? ==> cls.connections == old(cls.connections)) &&
        (r.Ok? ==>
          var plan := Plan(c, sshuttle, range, shuffled, free).value;
          fresh(r.value) && r.value.connected && r.value.dials == [DialFor(c, plan.0)] &&
          c.name in cls.connections &&
          cls.connections == old(cls.connections)[c.name := cls.connections[c.name]] &&
          cls.connections[c.name].controller == r.value &&
          (cls.connections[c.name].process.Some? <==> plan.1.Some?))
    {
      if c.name in cls.connections {
        var connection := cls.connections[c.name];
        if connection.controller.IsConnected() && !reconnect {
          return Ok(connection.controller);
        } else if reconnect {
          connection.controller.Disconnect();
        }
      }
      r := Connect(c, range, sshuttle, shuffled, free, answer);
    }
  }
}
