/** `juju_spell/connections/network.py`: free-port selection, the tunnel
    connection objects and the command lines they spawn, and the choice of
    endpoint and tunnel for a controller. Sockets, the random shuffle and
    process spawning are inputs: the probe answer is the set of free ports,
    the shuffle is the order in which the ports are tried, and a spawned
    process is a `Process` object recording its command line. */
module Network {
  import opened Common
  import opened Strings
  import Config

  // ---------------------------------------------------------------------
  // get_free_tcp_port
  // ---------------------------------------------------------------------

  /** The position of the first free port of `ports`, if there is one. */
  function FirstFree(ports: seq<int>, free: set<int>): (r: Option<nat>)
    ensures r.Some? ==> r.value < |ports| && ports[r.value] in free
    ensures r.Some? ==> forall j :: 0 <= j < r.value ==> ports[j] !in free
    ensures r.None? <==> forall j :: 0 <= j < |ports| ==> ports[j] !in free
    decreases |ports|
  {
    if |ports| == 0 then None
    else if ports[0] in free then Some(0)
    else
      match FirstFree(ports[1..], free)
      case None => None
      case Some(i) => Some(i + 1)
  }

  /** A port of the range lies in the range. */
  lemma PortInRange(range: Config.PortRange, p: int)
    requires p in range.Ports()
    ensures range.start <= p < range.stop
  {
    var ps := range.Ports();
    var k :| 0 <= k < |ps| && ps[k] == p;
  }

  /** `get_free_tcp_port(port_range)`: `shuffled` is the range after
      `random.shuffle`, `free` the ports the socket probe reports free. The
      ports are probed in the shuffled order and the first free one is
      returned; if none is free, ValueError is raised. */
  method GetFreeTcpPort(range: Config.PortRange, shuffled: seq<int>, free: set<int>) returns (r: Try<int>)
    requires multiset(shuffled) == multiset(range.Ports())
    ensures r.Ok? <==> FirstFree(shuffled, free).Some?
    ensures r.Ok? ==> r.value == shuffled[FirstFree(shuffled, free).value]
    ensures r.Ok? ==> r.value in free && range.start <= r.value < range.stop
    ensures r.Raise? ==> r.error == ValueError(NoFreePort(range))
  {
    var i := 0;
    while i < |shuffled|
      invariant 0 <= i <= |shuffled|
      invariant forall j :: 0 <= j < i ==> shuffled[j] !in free
    {
      if shuffled[i] in free {
        FirstFreeAt(shuffled, free, i);
        assert shuffled[i] in multiset(range.Ports());
        PortInRange(range, shuffled[i]);
        return Ok(shuffled[i]);
      }
      i := i + 1;
    }
    return Raise(ValueError(NoFreePort(range)));
  }

  /** The message naming the exhausted range by its `repr`. */
  function NoFreePort(range: Config.PortRange): string
  {
    "Could not find a free port in range range(" + IntToString(range.start) + ", " + IntToString(range.stop) + ")"
  }

  /** The first free port is found where the scan stops. */
  lemma {:induction false} FirstFreeAt(ports: seq<int>, free: set<int>, i: nat)
    requires i < |ports| && ports[i] in free
    requires forall j :: 0 <= j < i ==> ports[j] !in free
    ensures FirstFree(ports, free) == Some(i)
    decreases i
  {
    if i > 0 {
      FirstFreeAt(ports[1..], free, i - 1);
    }
  }

  /** An empty range never yields a port. */
  lemma EmptyRangeHasNoPort(range: Config.PortRange, shuffled: seq<int>, free: set<int>)
    requires range.stop <= range.start
    requires multiset(shuffled) == multiset(range.Ports())
    ensures FirstFree(shuffled, free).None?
  {
    assert |shuffled| == |multiset(shuffled)|;
  }

  // ---------------------------------------------------------------------
  // Processes and connections
  // ---------------------------------------------------------------------

  /** A spawned `subprocess.Popen`. */
  class Process {
    const cmd: seq<string>
    /** `Popen.returncode`: None while the process runs, its exit status
        once it has ended and been reaped. */
    var returncode: Option<int>
    /** Whether `terminate()` has been sent. */
    var terminated: bool

    constructor (cmd: seq<string>)
      ensures this.cmd == cmd && returncode.None? && !terminated
    {
      this.cmd := cmd;
      returncode := None;
      terminated := false;
    }

    /** `terminate()` only sends the signal; the exit status comes later. */
    method Terminate()
      modifies this
      ensures terminated && returncode == old(returncode)
    {
      terminated := true;
    }
  }

  /** `EmptyConnection`: direct access, a flag and nothing to spawn. */
  class EmptyConnection {
    var connected: bool

    constructor ()
      ensures !connected
    {
      connected := false;
    }

    predicate IsConnected()
      reads this
    {
      connected
    }

    method Connect()
      modifies this
      ensures IsConnected()
    {
      connected := true;
    }

    method Clean()
      modifies this
      ensures !IsConnected()
    {
      connected := false;
    }
  }

  /** What a subprocess connection spawns. */
  datatype Tunnel =
    | PortForward(localTarget: string, remoteTarget: string, destination: string, jumps: Option<seq<string>>)
    | Sshuttle(subnets: seq<string>, destination: string, jumps: Option<seq<string>>)

  /** `jumps` is truthy. */
  predicate HasJumps(jumps: Option<seq<string>>)
  {
    jumps.Some? && |jumps.value| > 0
  }

  /** `" ".join(f"-J {jump}" for jump in jumps)`. */
  function JumpFlags(jumps: seq<string>): string
  {
    Join(seq(|jumps|, i requires 0 <= i < |jumps| => "-J " + jumps[i]), " ")
  }

  /** `ssh DEST -N -L LOCAL:REMOTE`, then the jump flags as one more
      argument when there are jumps. */
  function PortForwardCommand(local: string, remote: string, destination: string, jumps: Option<seq<string>>): seq<string>
  {
    ["ssh", destination, "-N", "-L", local + ":" + remote]
      + (if HasJumps(jumps) then [JumpFlags(jumps.value)] else [])
  }

  /** `sshuttle SUBNETS... -r DEST`, then `-e 'ssh FLAGS'` as one more
      argument when there are jumps. */
  function SshuttleCommand(subnets: seq<string>, destination: string, jumps: Option<seq<string>>): seq<string>
  {
    ["sshuttle"] + subnets + ["-r", destination]
      + (if HasJumps(jumps) then ["-e 'ssh " + JumpFlags(jumps.value) + "'"] else [])
  }

  function Command(t: Tunnel): seq<string>
  {
    match t
    case PortForward(l, r, d, j) => PortForwardCommand(l, r, d, j)
    case Sshuttle(s, d, j) => SshuttleCommand(s, d, j)
  }

  /** The words the jump flags consist of: `-J` before each jump host. */
  function JumpWords(jumps: seq<string>): seq<string>
  {
    if |jumps| == 0 then [] else ["-J", jumps[0]] + JumpWords(jumps[1..])
  }

  /** The jump argument reads back, word by word, as `-J` before each jump
      host, in order, when the hosts contain no blanks. */
  lemma {:induction false} JumpFlagsWords(jumps: seq<string>)
    requires |jumps| > 0
    requires forall i :: 0 <= i < |jumps| ==> ' ' !in jumps[i]
    ensures Split(JumpFlags(jumps), ' ') == JumpWords(jumps)
    decreases |jumps|
  {
    var flags := seq(|jumps|, i requires 0 <= i < |jumps| => "-J " + jumps[i]);
    assert "-J " == "-J" + [' '] + "";
    if |jumps| == 1 {
      assert JumpFlags(jumps) == "-J" + [' '] + jumps[0];
      SplitCons("-J", ' ', jumps[0]);
      SplitNoSep(jumps[0], ' ');
      assert JumpWords(jumps[1..]) == [];
    } else {
      var rest := JumpFlags(jumps[1..]);
      assert flags[1..] == seq(|jumps[1..]|, i requires 0 <= i < |jumps[1..]| => "-J " + jumps[1..][i]);
      assert JumpFlags(jumps) == "-J" + [' '] + (jumps[0] + [' '] + rest);
      SplitCons("-J", ' ', jumps[0] + [' '] + rest);
      SplitCons(jumps[0], ' ', rest);
      JumpFlagsWords(jumps[1..]);
    }
  }

  /** `BaseSubprocessConnection` and its two subclasses: `tunnel` is None
      for the base class, whose `connect` is not implemented. */
  class SubprocessConnection {
    const tunnel: Option<Tunnel>
    var process: Process?

    constructor (tunnel: Option<Tunnel>)
      ensures this.tunnel == tunnel && process == null
    {
      this.tunnel := tunnel;
      process := null;
    }

    /** `is_connected` as written: false when there is no process or the
        process has no exit status yet, true otherwise. */
    predicate IsConnected()
      reads this, process
    {
      process != null && process.returncode.Some?
    }

    /** Whether the tunnel process exists and is still running. */
    predicate IsAlive()
      reads this, process
    {
      process != null && process.returncode.None?
    }

    /** `connect`: spawn the tunnel's command line. */
    method Connect() returns (r: Try<()>)
      modifies this
      ensures tunnel.None? ==> r == Raise(NotImplementedError("")) && process == old(process)
      ensures tunnel.Some? ==> r.Ok? && process != null && fresh(process)
      ensures tunnel.Some? ==> process.cmd == Command(tunnel.value) && process.returncode.None?
      ensures tunnel.Some? ==> IsAlive() && !IsConnected()
    {
      if tunnel.None? {
        return Raise(NotImplementedError(""));
      }
      var cmd: seq<string>;
      match tunnel.value {
        case PortForward(local, remote, destination, jumps) =>
          cmd := ["ssh", destination, "-N", "-L", local + ":" + remote];
          if HasJumps(jumps) {
            cmd := cmd + [JumpFlags(jumps.value)];
          }
        case Sshuttle(subnets, destination, jumps) =>
          cmd := ["sshuttle"] + subnets + ["-r", destination];
          if HasJumps(jumps) {
            cmd := cmd + ["-e 'ssh " + JumpFlags(jumps.value) + "'"];
          }
      }
      process := new Process(cmd);
      return Ok(());
    }

    /** `clean`: terminate the process if there is one. */
    method Clean()
      modifies process
      ensures process != null ==> process.terminated && process.returncode == old(process.returncode)
    {
      if process != null {
        process.Terminate();
      }
    }
  }

  /** A freshly spawned tunnel is not connected by `is_connected`, since a
      running process has no exit status. */
  lemma FreshTunnelNotConnected(c: SubprocessConnection)
    requires c.process != null && c.process.returncode.None?
    ensures !c.IsConnected() && c.IsAlive()
  {
  }

  /** A tunnel whose process has ended is connected by `is_connected`. */
  lemma EndedTunnelConnected(c: SubprocessConnection, status: int)
    requires c.process != null && c.process.returncode == Some(status)
    ensures c.IsConnected() && !c.IsAlive()
  {
  }

  // ---------------------------------------------------------------------
  // get_connection
  // ---------------------------------------------------------------------

  /** The connection object `get_connection` returns. */
  datatype Link = Direct(empty: EmptyConnection) | Tunnelled(sub: SubprocessConnection)

  /** The local endpoint a port-forward listens on. */
  function LocalEndpoint(port: int): string
  {
    "localhost:" + IntToString(port)
  }

  /** `get_connection(controller_config, sshuttle)`: without a connection
      section the controller is dialled directly; otherwise a port-forward
      from a free local port to the controller's endpoint, or an sshuttle
      tunnel when there are subnets to route. `shuffled` and `free` stand
      for the shuffle and the probe of the free-port search. */
  method GetConnection(c: Config.Controller, sshuttle: bool, shuffled: seq<int>, free: set<int>)
    returns (r: Try<(string, Link)>)
    requires c.connection.Some? && c.connection.value.portRange.Some? ==>
      multiset(shuffled) == multiset(c.connection.value.portRange.value.Ports())
    ensures c.connection.None? ==> r.Ok? && r.value.0 == c.endpoint && r.value.1.Direct?
    ensures c.connection.Some? && !sshuttle && c.connection.value.portRange.None? ==>
      r.Raise? && r.error.TypeError?
    ensures c.connection.Some? && !sshuttle && c.connection.value.portRange.Some? ==>
      (r.Ok? <==> FirstFree(shuffled, free).Some?) &&
      (r.Raise? ==> r.error.ValueError?) &&
      (r.Ok? ==>
        var port := shuffled[FirstFree(shuffled, free).value];
        var conn := c.connection.value;
        r.value.0 == LocalEndpoint(port) && r.value.1.Tunnelled? &&
        r.value.1.sub.tunnel == Some(PortForward(LocalEndpoint(port), c.endpoint, conn.destination, conn.jumps)))
    ensures c.connection.Some? && sshuttle && HasSubnets(c.connection.value) ==>
      var conn := c.connection.value;
      r.Ok? && r.value.0 == c.endpoint && r.value.1.Tunnelled? &&
      r.value.1.sub.tunnel == Some(Sshuttle(conn.subnets.value, conn.destination, conn.jumps))
    ensures c.connection.Some? && sshuttle && !HasSubnets(c.connection.value) ==>
      r.Ok? && r.value.0 == c.endpoint && r.value.1.Direct?
    ensures r.Ok? && r.value.1.Direct? ==> fresh(r.value.1.empty) && !r.value.1.empty.connected
    ensures r.Ok? && r.value.1.Tunnelled? ==> fresh(r.value.1.sub) && r.value.1.sub.process == null
  {
    var endpoint := c.endpoint;
    var empty := new EmptyConnection();
    if c.connection.None? {
      return Ok((endpoint, Direct(empty)));
    }
    var conn := c.connection.value;
    if !sshuttle {
      if conn.portRange.None? {
        return Raise(TypeError("'NoneType' object is not iterable"));
      }
      var port := GetFreeTcpPort(conn.portRange.value, shuffled, free);
      if port.Raise? {
        return Raise(port.error);
      }
      endpoint := LocalEndpoint(port.value);
      var sub := new SubprocessConnection(Some(PortForward(endpoint, c.endpoint, conn.destination, conn.jumps)));
      return Ok((endpoint, Tunnelled(sub)));
    } else if HasSubnets(conn) {
      var sub := new SubprocessConnection(Some(Sshuttle(conn.subnets.value, conn.destination, conn.jumps)));
      return Ok((endpoint, Tunnelled(sub)));
    }
    return Ok((endpoint, Direct(empty)));
  }

  /** `connection.subnets` is truthy. */
  predicate HasSubnets(conn: Config.Connection)
  {
    conn.subnets.Some? && |conn.subnets.value| > 0
  }
}
