/**
 * The status notification between the background service and the screen
 * (`ServerStatusReceiver`): a status travels inside an intent as its enum
 * ordinal and is turned back into a status on receipt.
 */
module StatusReceiver {
  import opened Data

  const ACTION_SERVER_STATUS_CHANGED: string := "com.example.androidserver.ACTION_SERVER_STATUS_CHANGED"
  const EXTRA_SERVER_STATUS: string := "server_status"

  /** `status.ordinal`: the position of the status in its declaration. */
  function Ordinal(s: ServerStatus): (n: int32)
    ensures 0 <= n < 5
  {
    match s
    case STOPPED => 0
    case STARTING => 1
    case RUNNING => 2
    case STOPPING => 3
    case ERROR => 4
  }

  /** `ServerStatus.values()[n]`; `None` where the array index is out of bounds. */
  function ValueAt(n: int32): (r: Option<ServerStatus>)
    ensures r.Some? <==> 0 <= n < 5
    ensures r.Some? ==> Ordinal(r.value) == n
  {
    if n == 0 then Some(STOPPED)
    else if n == 1 then Some(STARTING)
    else if n == 2 then Some(RUNNING)
    else if n == 3 then Some(STOPPING)
    else if n == 4 then Some(ERROR)
    else None
  }

  /** What `onReceive` does with an intent. */
  datatype Delivery =
    | Ignored                          // another action: the callback is not called
    | Delivered(status: ServerStatus)  // the callback is called with this status
    | IndexOutOfBounds(ordinal: int32) // `values()[ordinal]` throws

  /** `createStatusIntent(status)`. */
  function CreateStatusIntent(s: ServerStatus): (i: Intent)
    ensures i.action == Some(ACTION_SERVER_STATUS_CHANGED)
    ensures i.extras.Keys == {EXTRA_SERVER_STATUS} && 0 <= i.extras[EXTRA_SERVER_STATUS] < 5
    ensures i.extras[EXTRA_SERVER_STATUS] == Ordinal(s)
  {
    Intent(Some(ACTION_SERVER_STATUS_CHANGED), map[EXTRA_SERVER_STATUS := Ordinal(s)])
  }

  /** `onReceive`: a missing status extra reads as STOPPED's ordinal. */
  function OnReceive(i: Intent): (d: Delivery)
    ensures d.Ignored? <==> i.action != Some(ACTION_SERVER_STATUS_CHANGED)
    ensures i.action == Some(ACTION_SERVER_STATUS_CHANGED) && EXTRA_SERVER_STATUS !in i.extras ==> d == Delivered(STOPPED)
    ensures d.IndexOutOfBounds? <==> i.action == Some(ACTION_SERVER_STATUS_CHANGED)
                                     && !(0 <= i.IntExtra(EXTRA_SERVER_STATUS, Ordinal(STOPPED)) < 5)
    ensures d.Delivered? ==> Ordinal(d.status) == i.IntExtra(EXTRA_SERVER_STATUS, Ordinal(STOPPED))
    ensures d.IndexOutOfBounds? ==> d.ordinal == i.IntExtra(EXTRA_SERVER_STATUS, Ordinal(STOPPED))
  {
    if i.action != Some(ACTION_SERVER_STATUS_CHANGED) then Ignored
    else
      var n := i.IntExtra(EXTRA_SERVER_STATUS, Ordinal(STOPPED));
      match ValueAt(n)
      case Some(s) => Delivered(s)
      case None => IndexOutOfBounds(n)
  }

  /** A status sent with `createStatusIntent` is received as the same status. */
  lemma StatusRoundTrip(s: ServerStatus)
    ensures OnReceive(CreateStatusIntent(s)) == Delivered(s)
  {
    var d := OnReceive(CreateStatusIntent(s));
    assert d.Delivered?;
    OrdinalInjective(d.status, s);
  }

  /** Distinct statuses have distinct ordinals. */
  lemma OrdinalInjective(a: ServerStatus, b: ServerStatus)
    requires Ordinal(a) == Ordinal(b)
    ensures a == b
  {
  }
}
