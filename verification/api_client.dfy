/**
 * The client's connection logic (`KtorApiClient`): URL building, the
 * liveness check, and the WebSocket connection with its at-most-one-job
 * guard, its incoming-frame loop and its idempotent disconnect. Network
 * results are parameters.
 */
module ApiClient {
  import opened Data
  import opened IntText

  const HTTP_PREFIX: string := "http://"
  const HTTPS_PREFIX: string := "https://"
  const WS_PATH: string := "/ws"

  /** The lifecycle of the coroutine that runs the WebSocket session. */
  datatype JobState = Active | Completed

  /** A WebSocket session, compared only by identity. */
  datatype SessionRef = SessionRef(id: nat)

  /** The client's state. */
  datatype Client = Client(
    serverIp: string,
    serverPort: int32,
    connected: bool,
    incoming: seq<Record>,
    job: Option<JobState>,
    session: Option<SessionRef>)

  const INITIAL_CLIENT: Client := Client("", 8080, false, [], None, None)

  /** Kotlin's `String.startsWith(prefix)`. */
  predicate StartsWith(s: string, prefix: string) {
    |prefix| <= |s| && s[..|prefix|] == prefix
  }

  /** Kotlin's `String.removePrefix(prefix)`: drops the prefix once, if present. */
  function RemovePrefix(s: string, prefix: string): (r: string)
    ensures StartsWith(s, prefix) ==> prefix + r == s
    ensures !StartsWith(s, prefix) ==> r == s
  {
    if StartsWith(s, prefix) then s[|prefix|..] else s
  }

  /** `updateServerDetails(ip, port)`: the IP and the port change, nothing else. */
  function UpdateServerDetails(c: Client, ip: string, port: int32): (r: Client)
    ensures r.serverIp == ip && r.serverPort == port
    ensures r.(serverIp := c.serverIp, serverPort := c.serverPort) == c
  {
    c.(serverIp := ip, serverPort := port)
  }

  /** The scheme-qualified host: the IP with `http://` added only when missing. */
  function BaseUrl(ip: string): (b: string)
    ensures StartsWith(b, HTTP_PREFIX)
    ensures StartsWith(ip, HTTP_PREFIX) ==> b == ip
    ensures !StartsWith(ip, HTTP_PREFIX) ==> b == HTTP_PREFIX + ip
  {
    if StartsWith(ip, HTTP_PREFIX) then ip
    else
      assert (HTTP_PREFIX + ip)[..|HTTP_PREFIX|] == HTTP_PREFIX;
      HTTP_PREFIX + ip
  }

  /** `buildUrl(endpoint)`: base, a colon, the port in decimal, the endpoint. */
  function BuildUrl(c: Client, endpoint: string): (url: string)
    ensures StartsWith(url, HTTP_PREFIX)
    ensures url == BaseUrl(c.serverIp) + ":" + Decimal(c.serverPort as int) + endpoint
    ensures url[|url| - |endpoint|..] == endpoint
  {
    var base := BaseUrl(c.serverIp);
    var url := base + ":" + Decimal(c.serverPort as int) + endpoint;
    assert url[..|HTTP_PREFIX|] == base[..|HTTP_PREFIX|];
    url
  }

  /**
   * The prefix is never doubled: when the IP already starts with `http://`
   * the URL starts with the IP itself, and otherwise with `http://` then the
   * IP.
   */
  lemma BuildUrlPrefixOnce(c: Client, endpoint: string)
    ensures StartsWith(c.serverIp, HTTP_PREFIX) ==> StartsWith(BuildUrl(c, endpoint), c.serverIp)
    ensures !StartsWith(c.serverIp, HTTP_PREFIX) ==> StartsWith(BuildUrl(c, endpoint), HTTP_PREFIX + c.serverIp)
  {
    var url := BuildUrl(c, endpoint);
    var b := BaseUrl(c.serverIp);
    assert url[..|b|] == b;
  }

  /** Only `http://` is recognised: an `https://` address gets a second scheme. */
  lemma HttpsAddressGetsSecondScheme(c: Client, endpoint: string)
    requires StartsWith(c.serverIp, HTTPS_PREFIX)
    ensures StartsWith(BuildUrl(c, endpoint), HTTP_PREFIX + HTTPS_PREFIX)
  {
    assert c.serverIp[4] == HTTPS_PREFIX[4] != HTTP_PREFIX[4];
    var url := BuildUrl(c, endpoint);
    assert url[..|HTTP_PREFIX| + |c.serverIp|] == HTTP_PREFIX + c.serverIp;
    assert (HTTP_PREFIX + c.serverIp)[..|HTTP_PREFIX + HTTPS_PREFIX|] == HTTP_PREFIX + HTTPS_PREFIX;
  }

  /** The WebSocket host: the IP without a leading `http://`, then without a leading `https://`. */
  function WebSocketHost(ip: string): (host: string)
    ensures |host| <= |ip| && ip[|ip| - |host|..] == host
    ensures !StartsWith(ip, HTTP_PREFIX) && !StartsWith(ip, HTTPS_PREFIX) ==> host == ip
    ensures StartsWith(ip, HTTP_PREFIX) && !StartsWith(ip[|HTTP_PREFIX|..], HTTPS_PREFIX) ==> host == ip[|HTTP_PREFIX|..]
    ensures StartsWith(ip, HTTPS_PREFIX) ==> host == ip[|HTTPS_PREFIX|..]
    ensures StartsWith(ip, HTTP_PREFIX) && StartsWith(ip[|HTTP_PREFIX|..], HTTPS_PREFIX) ==>
              host == ip[|HTTP_PREFIX| + |HTTPS_PREFIX|..]
  {
    var once := RemovePrefix(ip, HTTP_PREFIX);
    var host := RemovePrefix(once, HTTPS_PREFIX);
    assert StartsWith(ip, HTTPS_PREFIX) ==> ip[4] == HTTPS_PREFIX[4] == 's';
    assert StartsWith(ip, HTTP_PREFIX) ==> ip[4] == HTTP_PREFIX[4] == ':';
    assert ip[|ip| - |once|..] == once;
    assert once[|once| - |host|..] == host;
    assert ip[|ip| - |host|..] == host;
    host
  }

  /** Where `connectWebSocket` opens its session: a host, a port and a path. */
  datatype SocketTarget = SocketTarget(host: string, port: int32, path: string)

  /** The target of the WebSocket handshake: the stripped host, the client's port and `/ws`. */
  function WebSocketTarget(c: Client): (t: SocketTarget)
    ensures t.path == WS_PATH && t.port == c.serverPort
    ensures |t.host| <= |c.serverIp| && c.serverIp[|c.serverIp| - |t.host|..] == t.host
    ensures !StartsWith(c.serverIp, HTTP_PREFIX) && !StartsWith(c.serverIp, HTTPS_PREFIX) ==> t.host == c.serverIp
  {
    SocketTarget(WebSocketHost(c.serverIp), c.serverPort, WS_PATH)
  }

  /** The host a base URL was built from is recovered by stripping the scheme. */
  lemma WebSocketHostUndoesBaseUrl(ip: string)
    requires !StartsWith(ip, HTTP_PREFIX) && !StartsWith(ip, HTTPS_PREFIX)
    ensures WebSocketHost(BaseUrl(ip)) == ip
  {
    var b := BaseUrl(ip);
    assert b[|HTTP_PREFIX|..] == ip;
  }

  /**
   * An HTTP exchange as the client sees it: a response (its status code,
   * the code's reason phrase and the body text), or an exception.
   */
  datatype HttpOutcome = Response(status: int, description: string, body: string) | Exception(message: Option<string>)

  /** Kotlin's `Result<T>`: a value, or a failure with an optional message. */
  datatype Outcome<T> = Success(value: T) | Failure(message: Option<string>)

  /** Ktor's `HttpStatusCode.isSuccess()`: the 2xx range. */
  predicate IsSuccess(status: int) {
    200 <= status < 300
  }

  /**
   * `checkConnection()`: success with the body exactly when the response is
   * 2xx; any other response becomes a failure naming the status as Ktor
   * prints it (code, space, reason phrase).
   */
  function CheckConnection(outcome: HttpOutcome): (r: Outcome<string>)
    ensures r.Success? <==> outcome.Response? && IsSuccess(outcome.status)
    ensures r.Success? ==> r.value == outcome.body
    ensures outcome.Response? && !IsSuccess(outcome.status) ==>
              r == Failure(Some("Server responded with: " + Decimal(outcome.status) + " " + outcome.description))
    ensures outcome.Exception? ==> r == Failure(outcome.message)
  {
    match outcome
    case Response(status, description, body) =>
      if IsSuccess(status) then Success(body)
      else Failure(Some("Server responded with: " + Decimal(status) + " " + description))
    case Exception(message) => Failure(message)
  }

  /**
   * `connectWebSocket`: while the socket job is active nothing happens;
   * otherwise a new active job is launched. Connected and session are set
   * only once the handshake completes (`OnSocketOpened`).
   */
  function ConnectWebSocket(c: Client): (r: Client)
    ensures r.job == Some(Active)
    ensures c.job == Some(Active) ==> r == c
    ensures r.(job := c.job) == c
  {
    if c.job == Some(Active) then c else c.(job := Some(Active))
  }

  /** Connecting again without a disconnect in between opens nothing new. */
  lemma ConnectTwiceIsConnectOnce(c: Client)
    ensures ConnectWebSocket(ConnectWebSocket(c)) == ConnectWebSocket(c)
  {
  }

  /** The handshake completed inside the active job. */
  function OnSocketOpened(c: Client, s: SessionRef): (r: Client)
    ensures c.job == Some(Active) ==> r.connected && r.session == Some(s) && r.incoming == c.incoming && r.job == c.job
    ensures c.job != Some(Active) ==> r == c
  {
    if c.job == Some(Active) then c.(session := Some(s), connected := true) else c
  }

  /** The records the frame loop accepts from a run of frames, in order. */
  function Accepted(frames: seq<Frame>, decode: string -> Option<Record>): seq<Record> {
    if |frames| == 0 then []
    else
      var rest := Accepted(frames[1..], decode);
      match frames[0]
      case Text(t) => if decode(t).Some? then [decode(t).value] + rest else rest
      case _ => rest
  }

  /**
   * The incoming-frame loop: non-text frames are skipped, undecodable text
   * is dropped without ending the loop, and each decoded record is passed
   * to the callback and then appended to `incoming`. `delivered` lists the
   * callback's arguments in order.
   */
  method FrameLoop(c: Client, frames: seq<Frame>, decode: string -> Option<Record>)
    returns (r: Client, delivered: seq<Record>)
    ensures delivered == Accepted(frames, decode)
    ensures r.incoming == c.incoming + delivered
    ensures r.(incoming := c.incoming) == c
  {
    r := c;
    delivered := [];
    var i := 0;
    while i < |frames|
      invariant 0 <= i <= |frames|
      invariant delivered + Accepted(frames[i..], decode) == Accepted(frames, decode)
      invariant r.incoming == c.incoming + delivered
      invariant r.(incoming := c.incoming) == c
    {
      assert frames[i..][1..] == frames[i + 1..];
      match frames[i] {
        case Text(t) =>
          var data := decode(t);
          if data.Some? {
            delivered := delivered + [data.value];
            r := r.(incoming := r.incoming + [data.value]);
          }
        case _ =>
      }
      i := i + 1;
    }
  }

  /** Accepted records are exactly the decodings of text frames, none invented. */
  lemma {:induction false} AcceptedComeFromTextFrames(frames: seq<Frame>, decode: string -> Option<Record>)
    ensures |Accepted(frames, decode)| <= |frames|
    ensures forall x :: x in Accepted(frames, decode) ==>
              exists i :: 0 <= i < |frames| && frames[i].Text? && decode(frames[i].text) == Some(x)
  {
    if |frames| > 0 {
      AcceptedComeFromTextFrames(frames[1..], decode);
      forall x | x in Accepted(frames, decode)
        ensures exists i :: 0 <= i < |frames| && frames[i].Text? && decode(frames[i].text) == Some(x)
      {
        if x in Accepted(frames[1..], decode) {
          var j :| 0 <= j < |frames[1..]| && frames[1..][j].Text? && decode(frames[1..][j].text) == Some(x);
          assert frames[j + 1] == frames[1..][j];
        }
      }
    }
  }

  /** Loop termination (the `finally` block): disconnected, no session, job done. */
  function OnLoopEnded(c: Client): (r: Client)
    ensures !r.connected && r.session.None? && r.incoming == c.incoming
    ensures c.job == Some(Active) ==> r.job == Some(Completed)
    ensures c.job != Some(Active) ==> r.job == c.job
  {
    c.(connected := false, session := None, job := if c.job == Some(Active) then Some(Completed) else c.job)
  }

  /** Once the loop has ended, a new connection may be started. */
  lemma ReconnectAfterLoopEnded(c: Client)
    requires c.job == Some(Active)
    ensures ConnectWebSocket(OnLoopEnded(c)).job == Some(Active)
    ensures ConnectWebSocket(OnLoopEnded(c)) != OnLoopEnded(c)
  {
  }

  /** `disconnectWebSocket`: cancel and forget the job and the session. */
  function DisconnectWebSocket(c: Client): (r: Client)
    ensures !r.connected && r.job.None? && r.session.None?
    ensures r.serverIp == c.serverIp && r.serverPort == c.serverPort && r.incoming == c.incoming
  {
    c.(connected := false, job := None, session := None)
  }

  /** Disconnecting twice is the same as disconnecting once. */
  lemma DisconnectIdempotent(c: Client)
    ensures DisconnectWebSocket(DisconnectWebSocket(c)) == DisconnectWebSocket(c)
  {
  }
}
