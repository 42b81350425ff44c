/**
 * The server's lifecycle controller (`ServerManager`): the current status,
 * the requested port, the addresses shown once the server runs, and an
 * append-only log. `startServer` and `stopServer` are guarded; each issues
 * a command intent to the background service. `updateServerStatus` is how
 * the service reports back, and it is not guarded.
 */
module ServerManager {
  import opened Data
  import opened IntText

  const DEFAULT_PORT: int32 := 8080

  const ACTION_START: string := "com.emrepbu.ktorconnect.server.action.START_SERVER"
  const ACTION_STOP: string := "com.emrepbu.ktorconnect.server.action.STOP_SERVER"
  const EXTRA_PORT: string := "com.emrepbu.ktorconnect.server.extra.PORT"

  /** The state the manager publishes to its observers. */
  datatype Manager = Manager(status: ServerStatus, port: int32, addresses: seq<ServerAddress>, logs: seq<LogEntry>)

  const INITIAL_MANAGER: Manager := Manager(STOPPED, DEFAULT_PORT, [], [])

  /** An address of a network interface, as `InetAddress` reports it. */
  datatype InetAddress = InetAddress(hostAddress: string, isLoopbackAddress: bool)

  /** A network interface, as `NetworkInterface` reports it. */
  datatype NetInterface = NetInterface(isUp: bool, isLoopback: bool, addresses: seq<InetAddress>)

  /**
   * The outcome of enumerating the network interfaces: the interfaces, or
   * the exception's message (`null` when it has none).
   */
  datatype Interfaces = Found(ifaces: seq<NetInterface>) | Threw(message: Option<string>)

  /** A manager call's new state and the command intents it sent to the service. */
  datatype Step = Step(manager: Manager, sent: seq<Intent>)

  /** `addLog`: one entry more at the end; everything else as it was. */
  function AddLog(m: Manager, message: string, isError: bool): (r: Manager)
    ensures |r.logs| == |m.logs| + 1 && r.logs[..|m.logs|] == m.logs
    ensures r.logs[|m.logs|] == LogEntry(message, isError)
    ensures r.status == m.status && r.port == m.port && r.addresses == m.addresses
  {
    m.(logs := m.logs + [LogEntry(message, isError)])
  }

  /** `clearLogs`: the log is emptied and nothing else changes. */
  function ClearLogs(m: Manager): (r: Manager)
    ensures r.logs == [] && r.status == m.status && r.port == m.port && r.addresses == m.addresses
  {
    m.(logs := [])
  }

  /** The intent `startServer` sends to the service: the start action, carrying the port. */
  function StartIntent(port: int32): (i: Intent)
    ensures i.action == Some(ACTION_START)
    ensures i.extras.Keys == {EXTRA_PORT} && i.IntExtra(EXTRA_PORT, DEFAULT_PORT) == port
  {
    Intent(Some(ACTION_START), map[EXTRA_PORT := port])
  }

  /** The intent `stopServer` sends to the service: the stop action and no extras. */
  function StopIntent(): (i: Intent)
    ensures i.action == Some(ACTION_STOP) && i.action != StartIntent(DEFAULT_PORT).action
    ensures i.extras == map[]
  {
    Intent(Some(ACTION_STOP), map[])
  }

  /**
   * `startServer(port)`: while starting or running only a log line is
   * added; otherwise the manager moves to STARTING, remembers the port,
   * logs and sends one start command.
   */
  function StartServer(m: Manager, port: int32): (s: Step)
    ensures |s.manager.logs| == |m.logs| + 1 && s.manager.logs[..|m.logs|] == m.logs
    ensures s.manager.addresses == m.addresses
    ensures m.status in {RUNNING, STARTING} ==>
              s.manager.status == m.status && s.manager.port == m.port && s.sent == []
    ensures m.status !in {RUNNING, STARTING} ==>
              s.manager.status == STARTING && s.manager.port == port && s.sent == [StartIntent(port)]
  {
    if m.status == RUNNING || m.status == STARTING then
      Step(AddLog(m, "Server already running", false), [])
    else
      var started := m.(status := STARTING, port := port);
      Step(AddLog(started, "Server starting. (Port: " + Decimal(port as int) + ")...", false), [StartIntent(port)])
  }

  /**
   * `stopServer()`: while stopped or stopping only a log line is added;
   * otherwise the manager moves to STOPPING, logs and sends one stop
   * command.
   */
  function StopServer(m: Manager): (s: Step)
    ensures |s.manager.logs| == |m.logs| + 1 && s.manager.logs[..|m.logs|] == m.logs
    ensures s.manager.port == m.port && s.manager.addresses == m.addresses
    ensures m.status in {STOPPED, STOPPING} ==> s.manager.status == m.status && s.sent == []
    ensures m.status !in {STOPPED, STOPPING} ==> s.manager.status == STOPPING && s.sent == [StopIntent()]
  {
    if m.status == STOPPED || m.status == STOPPING then
      Step(AddLog(m, "Server already stopped.", false), [])
    else
      Step(AddLog(m.(status := STOPPING), "Server stopping...", false), [StopIntent()])
  }

  /** The filter of `logLocalIpAddress`: which interface addresses are listed. */
  predicate Listed(n: NetInterface, a: InetAddress) {
    n.isUp && !n.isLoopback && !a.isLoopbackAddress && ':' !in a.hostAddress
  }

  /** The addresses found so far and the log lines written for them. */
  datatype Scan = Scan(found: seq<ServerAddress>, logs: seq<LogEntry>)

  /** The listed addresses of one interface, with one log line each. */
  function ScanAddresses(n: NetInterface, addrs: seq<InetAddress>, port: int32): (s: Scan)
    ensures |s.logs| == |s.found|
    ensures forall x :: x in s.found ==> x.isLocalNetwork && exists a :: a in addrs && Listed(n, a) && x.ip == a.hostAddress
    ensures forall a :: a in addrs && Listed(n, a) ==> ServerAddress(a.hostAddress, true) in s.found
  {
    if |addrs| == 0 then Scan([], [])
    else
      var rest := ScanAddresses(n, addrs[1..], port);
      var a := addrs[0];
      if Listed(n, a) then
        var line := LogEntry("Server IP Address: " + a.hostAddress + ":" + Decimal(port as int), false);
        Scan([ServerAddress(a.hostAddress, true)] + rest.found, [line] + rest.logs)
      else rest
  }

  /** An interface that is down or is the loopback interface contributes no address and no log line. */
  lemma {:induction false} SkippedInterfaceListsNothing(n: NetInterface, addrs: seq<InetAddress>, port: int32)
    requires !n.isUp || n.isLoopback
    ensures ScanAddresses(n, addrs, port) == Scan([], [])
  {
    if |addrs| > 0 {
      SkippedInterfaceListsNothing(n, addrs[1..], port);
    }
  }

  /**
   * On an up, non-loopback interface, an address is listed exactly when it
   * is not a loopback address and its text has no ':' (no IPv6 address).
   */
  lemma OneAddressListedIffIPv4(n: NetInterface, a: InetAddress, port: int32)
    requires n.isUp && !n.isLoopback
    ensures |ScanAddresses(n, [a], port).found| == 1 <==> !a.isLoopbackAddress && ':' !in a.hostAddress
    ensures ScanAddresses(n, [a], port).found == [] <==> a.isLoopbackAddress || ':' in a.hostAddress
  {
    assert [a][1..] == [];
  }

  /** The listed addresses of all interfaces, in enumeration order. */
  function ScanInterfaces(ifaces: seq<NetInterface>, port: int32): (s: Scan)
    ensures |s.logs| == |s.found|
    ensures forall x :: x in s.found ==>
              x.isLocalNetwork && exists n, a :: n in ifaces && a in n.addresses && Listed(n, a) && x.ip == a.hostAddress
    ensures forall n, a :: n in ifaces && a in n.addresses && Listed(n, a) ==> ServerAddress(a.hostAddress, true) in s.found
  {
    if |ifaces| == 0 then Scan([], [])
    else
      var here := ScanAddresses(ifaces[0], ifaces[0].addresses, port);
      var rest := ScanInterfaces(ifaces[1..], port);
      Scan(here.found + rest.found, here.logs + rest.logs)
  }

  /**
   * `logLocalIpAddress`: LOCALHOST first, then every listed address.
   * When enumerating the interfaces throws, only an error line is logged
   * and the address list is left as it was.
   */
  function LogLocalIpAddress(m: Manager, net: Interfaces): (r: Manager)
    ensures r.status == m.status && r.port == m.port
    ensures |r.logs| >= |m.logs| && r.logs[..|m.logs|] == m.logs
    ensures net.Threw? ==> r.addresses == m.addresses && |r.logs| == |m.logs| + 1 && r.logs[|m.logs|].isError
    ensures net.Found? ==> |r.addresses| >= 1 && r.addresses[0] == LOCALHOST
    ensures net.Found? ==> forall x :: x in r.addresses[1..] ==>
              x.isLocalNetwork && exists n, a :: n in net.ifaces && a in n.addresses && Listed(n, a) && x.ip == a.hostAddress
    ensures net.Found? ==> forall n, a :: n in net.ifaces && a in n.addresses && Listed(n, a) ==>
              ServerAddress(a.hostAddress, true) in r.addresses
  {
    match net
    case Threw(message) => AddLog(m, "Error getting local IP address: " + message.GetOr("null"), true)
    case Found(ns) =>
      var scan := ScanInterfaces(ns, m.port);
      var r := m.(addresses := [LOCALHOST] + scan.found, logs := m.logs + scan.logs);
      assert r.addresses[1..] == scan.found;
      assert r.logs[..|m.logs|] == m.logs;
      r
  }

  /**
   * `updateServerStatus(status)`: the status is set whatever it was.
   * RUNNING logs and collects the addresses; STOPPED and ERROR log and clear
   * them, ERROR with an error entry; STARTING and STOPPING change nothing
   * else.
   */
  function UpdateServerStatus(m: Manager, status: ServerStatus, net: Interfaces): (r: Manager)
    ensures r.status == status && r.port == m.port
    ensures |r.logs| >= |m.logs| && r.logs[..|m.logs|] == m.logs
    ensures status in {RUNNING, STOPPED, ERROR} ==> |r.logs| > |m.logs|
    ensures status in {STARTING, STOPPING} ==> r == m.(status := status)
    ensures status == STOPPED ==> r.addresses == [] && r.logs == m.logs + [LogEntry("Server stopped.", false)]
    ensures status == ERROR ==> r.addresses == [] && r.logs == m.logs + [LogEntry("Server error.", true)]
    ensures status == RUNNING ==> r.logs[|m.logs|] == LogEntry("Server running. (Port: " + Decimal(m.port as int) + ")", false)
    ensures status == RUNNING && net.Found? ==> |r.addresses| >= 1 && r.addresses[0] == LOCALHOST
  {
    var updated := m.(status := status);
    match status
    case RUNNING =>
      var logged := AddLog(updated, "Server running. (Port: " + Decimal(m.port as int) + ")", false);
      var r := LogLocalIpAddress(logged, net);
      assert r.logs[..|m.logs|] == logged.logs[..|m.logs|];
      r
    case STOPPED => AddLog(updated, "Server stopped.", false).(addresses := [])
    case ERROR => AddLog(updated, "Server error.", true).(addresses := [])
    case STARTING => updated
    case STOPPING => updated
  }

  /**
   * STOPPED and ERROR always leave an empty address list, whatever state
   * the manager was in.
   */
  lemma StoppedAndErrorClearAddresses(m: Manager, status: ServerStatus, net: Interfaces)
    requires status in {STOPPED, ERROR}
    ensures UpdateServerStatus(m, status, net).addresses == []
    ensures UpdateServerStatus(m, status, net).logs[|m.logs|].isError <==> status == ERROR
  {
  }

  /** A second `startServer` right after the first sends no second command. */
  lemma StartTwiceSendsOneCommand(m: Manager, port: int32, port2: int32)
    requires m.status !in {RUNNING, STARTING}
    ensures var first := StartServer(m, port);
            var second := StartServer(first.manager, port2);
            first.sent + second.sent == [StartIntent(port)] && second.manager.port == port
  {
  }

  /**
   * From the initial state a start followed by a stop sends exactly one
   * start command, with the port, then one stop command, and leaves the
   * manager STOPPING until the service reports back.
   */
  lemma StartThenStopFromInitial(port: int32)
    ensures var s1 := StartServer(INITIAL_MANAGER, port);
            var s2 := StopServer(s1.manager);
            && s1.sent + s2.sent == [StartIntent(port), StopIntent()]
            && s2.manager.status == STOPPING && s2.manager.port == port
            && |s2.manager.logs| == 2
  {
  }
}
