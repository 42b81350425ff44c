/**
 * The background service that owns the embedded HTTP server
 * (`ServerService`): it reacts to the manager's start and stop commands,
 * holds at most one server handle, and reports the outcome back to the
 * manager. The asynchronous bind is run to completion at once, and its
 * result is a parameter.
 */
module ServerService {
  import opened Data
  import opened IntText
  import opened ServerManager
  import opened StatusReceiver

  /** A running embedded server, compared only by identity. */
  datatype ServerHandle = ServerHandle(id: nat)

  /** An exception: its message (possibly null) and its stack trace text. */
  datatype Failure = Failure(message: Option<string>, trace: string)

  /** How an attempt to bring the server up ends. */
  datatype BindOutcome =
    | Bound(handle: ServerHandle)     // created and started
    | CreateFailed(failure: Failure)  // `embeddedServer(...)` threw
    | StartFailed(failure: Failure)   // `start(wait = false)` threw
    | ForegroundFailed(failure: Failure) // `startForeground` threw before any of it

  /** The service's handle, the manager it reports to, and the status intents it broadcast. */
  datatype Service = Service(server: Option<ServerHandle>, manager: Manager, broadcasts: seq<Intent>)

  /** The text Kotlin prints for a possibly-null exception message with a fallback. */
  function MessageOr(message: Option<string>): string {
    message.GetOr("Bilinmeyen hata")
  }

  /**
   * `startServer(port)`: with a handle already held it only logs. Otherwise
   * it tries to bring a server up: on success it stores the handle and then
   * reports RUNNING; on failure it logs errors, reports ERROR and holds
   * nothing.
   */
  function StartServer(svc: Service, port: int32, bind: BindOutcome, net: Interfaces): (r: Service)
    ensures r.broadcasts == svc.broadcasts
    ensures |r.manager.logs| > |svc.manager.logs| && r.manager.logs[..|svc.manager.logs|] == svc.manager.logs
    ensures svc.server.Some? ==> r == svc.(manager := AddLog(svc.manager, "Sunucu zaten çalışıyor", false))
    ensures svc.server.None? && bind.Bound? ==>
              r.server == Some(bind.handle) && r.manager.status == RUNNING && r.manager.port == svc.manager.port
    ensures svc.server.None? && !bind.Bound? ==>
              r.server.None? && r.manager.status == ERROR && r.manager.addresses == []
              && EndsInFailure(svc.manager.logs, r.manager.logs)
  {
    if svc.server.Some? then svc.(manager := AddLog(svc.manager, "Sunucu zaten çalışıyor", false))
    else
      var m := Launch(svc.manager, port, bind, net);
      if bind.Bound? then svc.(server := Some(bind.handle), manager := m) else svc.(manager := m)
  }

  /**
   * The log after a failed start: at least three new entries, the last two
   * error-flagged, the last of them the manager's ERROR report.
   */
  predicate EndsInFailure(before: seq<LogEntry>, after: seq<LogEntry>) {
    && |after| >= |before| + 3
    && after[|after| - 2].isError
    && after[|after| - 1] == LogEntry("Server error.", true)
  }

  /** The logging and status reports of one attempt to bring a server up. */
  function Launch(m: Manager, port: int32, bind: BindOutcome, net: Interfaces): (r: Manager)
    ensures |r.logs| > |m.logs| && r.logs[..|m.logs|] == m.logs && r.port == m.port
    ensures bind.Bound? ==> r.status == RUNNING
    ensures !bind.Bound? ==>
              r.status == ERROR && r.addresses == [] && EndsInFailure(m.logs, r.logs)
  {
    var m0 := AddLog(m, "Sunucu başlatılıyor... PORT: " + Decimal(port as int), false);
    match bind
    case Bound(h) => BindSucceeded(m0, net)
    case CreateFailed(f) =>
      var m1 := AddLog(m0, "Netty sunucusu oluşturuluyor...", false);
      BindFailed(m1, f)
    case StartFailed(f) =>
      var m1 := AddLog(m0, "Netty sunucusu oluşturuluyor...", false);
      var m2 := AddLog(m1, "Netty sunucusu başlatılıyor...", false);
      BindFailed(m2, f)
    case ForegroundFailed(f) =>
      var m1 := AddLog(m0, "Servis başlatılamadı: " + MessageOr(f.message), true);
      UpdateServerStatus(m1, ERROR, Threw(None))
  }

  /** The bind's success path: three progress lines, then RUNNING. */
  function BindSucceeded(m: Manager, net: Interfaces): (r: Manager)
    ensures r.status == RUNNING && r.port == m.port
    ensures |r.logs| > |m.logs| + 3 && r.logs[..|m.logs|] == m.logs
    ensures r.logs[|m.logs| + 2] == LogEntry("Sunucu başarıyla çalışıyor!", false)
  {
    var m1 := AddLog(m, "Netty sunucusu oluşturuluyor...", false);
    var m2 := AddLog(m1, "Netty sunucusu başlatılıyor...", false);
    var m3 := AddLog(m2, "Sunucu başarıyla çalışıyor!", false);
    var r := UpdateServerStatus(m3, RUNNING, net);
    assert r.logs[..|m3.logs|] == m3.logs;
    r
  }

  /** The inner catch of the bind: two error lines, then ERROR. */
  function BindFailed(m: Manager, f: Failure): (r: Manager)
    ensures r.status == ERROR && r.addresses == []
    ensures |r.logs| == |m.logs| + 3 && r.logs[..|m.logs|] == m.logs
    ensures r.logs[|m.logs|].isError && r.logs[|m.logs| + 1].isError
    ensures r.logs[|m.logs| + 2] == LogEntry("Server error.", true)
  {
    var m1 := AddLog(m, "Sunucu başlatılamadı: " + MessageOr(f.message), true);
    var m2 := AddLog(m1, "Detay: " + f.trace, true);
    UpdateServerStatus(m2, ERROR, Threw(None))
  }

  /**
   * `stopServer()`: broadcasts STOPPING, stops the held server if any
   * (`stopError` is the message of the exception `stop` may throw), and in
   * every case ends with no handle, status STOPPED and a STOPPED broadcast.
   */
  function StopServer(svc: Service, stopError: Option<Option<string>>): (r: Service)
    ensures r.server.None? && r.manager.status == STOPPED && r.manager.addresses == []
    ensures r.manager.port == svc.manager.port
    ensures r.broadcasts == svc.broadcasts + [CreateStatusIntent(STOPPING), CreateStatusIntent(STOPPED)]
    ensures |r.manager.logs| > |svc.manager.logs| && r.manager.logs[..|svc.manager.logs|] == svc.manager.logs
    ensures svc.server.Some? && stopError.Some? ==> r.manager.logs[|svc.manager.logs|].isError
  {
    var stopping := svc.broadcasts + [CreateStatusIntent(STOPPING)];
    var m :=
      if svc.server.Some? && stopError.Some? then
        AddLog(svc.manager, "Sunucu durdurulurken hata: " + stopError.value.GetOr("null"), true)
      else svc.manager;
    var r := Service(None, UpdateServerStatus(m, STOPPED, Threw(None)), stopping + [CreateStatusIntent(STOPPED)]);
    assert r.manager.logs[..|svc.manager.logs|] == svc.manager.logs by {
      assert r.manager.logs[..|m.logs|] == m.logs;
    }
    r
  }

  /** What the service is told to do by `onStartCommand`. */
  datatype Dispatch = StartWith(port: int32) | Stop | Nothing

  /** The routing of `onStartCommand`: the action decides, a missing port is 8080. */
  function Route(intent: Option<Intent>): (d: Dispatch)
    ensures intent.Some? && intent.value.action == Some(ACTION_START) ==>
              d == StartWith(if EXTRA_PORT in intent.value.extras then intent.value.extras[EXTRA_PORT] else DEFAULT_PORT)
    ensures intent.Some? && intent.value.action == Some(ACTION_STOP) ==> d == Stop
    ensures d == Nothing <==> intent.None? || intent.value.action !in {Some(ACTION_START), Some(ACTION_STOP)}
  {
    match intent
    case None => Nothing
    case Some(i) =>
      if i.action == Some(ACTION_START) then StartWith(i.IntExtra(EXTRA_PORT, DEFAULT_PORT))
      else if i.action == Some(ACTION_STOP) then Stop
      else Nothing
  }

  /** `onStartCommand`: start, stop or ignore, per the intent's action. */
  function OnStartCommand(svc: Service, intent: Option<Intent>, bind: BindOutcome,
                          stopError: Option<Option<string>>, net: Interfaces): (r: Service)
    ensures Route(intent) == Nothing ==> r == svc
    ensures Route(intent).StartWith? ==>
              r.broadcasts == svc.broadcasts
              && (svc.server.Some? ==> r.server == svc.server && r.manager.status == svc.manager.status)
              && (svc.server.None? ==> (r.server.Some? <==> bind.Bound?))
    ensures Route(intent) == Stop ==>
              r.server.None? && r.manager.status == STOPPED
              && r.broadcasts == svc.broadcasts + [CreateStatusIntent(STOPPING), CreateStatusIntent(STOPPED)]
  {
    match Route(intent)
    case StartWith(port) => StartServer(svc, port, bind, net)
    case Stop => StopServer(svc, stopError)
    case Nothing => svc
  }

  /** The manager's start command for a port reaches the service with that port. */
  lemma StartIntentCarriesPort(port: int32)
    ensures Route(Some(StartIntent(port))) == StartWith(port)
  {
  }

  /**
   * `start` from STOPPED reaches RUNNING on a successful bind, with the
   * requested port and exactly one server handle.
   */
  lemma StartFromStoppedReachesRunning(svc: Service, port: int32, h: ServerHandle, stopError: Option<Option<string>>, net: Interfaces)
    requires svc.manager.status == STOPPED && svc.server.None?
    ensures var step := ServerManager.StartServer(svc.manager, port);
            && |step.sent| == 1
            && var r := OnStartCommand(svc.(manager := step.manager), Some(step.sent[0]), Bound(h), stopError, net);
               r.manager.status == RUNNING && r.server == Some(h) && r.manager.port == port
  {
    StartIntentCarriesPort(port);
  }

  /**
   * `stop` from RUNNING reaches STOPPED and releases the handle, so a later
   * `start` on the same port binds again.
   */
  lemma StopThenStartAgain(svc: Service, port: int32, h: ServerHandle, stopError: Option<Option<string>>, net: Interfaces)
    requires svc.manager.status == RUNNING && svc.server.Some?
    ensures var stop := ServerManager.StopServer(svc.manager);
            && stop.manager.status == STOPPING && stop.sent == [StopIntent()]
            && var stopped := OnStartCommand(svc.(manager := stop.manager), Some(StopIntent()), Bound(h), stopError, net);
               && stopped.manager.status == STOPPED && stopped.server.None?
               && var start := ServerManager.StartServer(stopped.manager, port);
                  var again := OnStartCommand(stopped.(manager := start.manager), Some(StartIntent(port)), Bound(h), stopError, net);
                  again.manager.status == RUNNING && again.server == Some(h) && again.manager.port == port
  {
    StartIntentCarriesPort(port);
  }

  /** A start command while a handle is held never creates a second server. */
  lemma NoSecondServer(svc: Service, port: int32, bind: BindOutcome, net: Interfaces)
    requires svc.server.Some?
    ensures StartServer(svc, port, bind, net).server == svc.server
    ensures StartServer(svc, port, bind, net).manager.status == svc.manager.status
  {
  }
}
