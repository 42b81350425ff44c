/**
 * The HTTP routes of the server (`serverModule`) as pure decisions: a
 * request, already reduced to its path parameter and its decoded body (or
 * the decoding failure), together with the server's state, determines the
 * response status, its payload and the next state. Status codes are those
 * of section 15 of RFC 9110.
 */
module Routes {
  import opened Data
  import opened IntText
  import opened Repository
  import opened BroadcastChannel

  /** 200 OK, section 15.3.1 of RFC 9110. */
  const OK: int := 200
  /** 201 Created, section 15.3.2 of RFC 9110. */
  const CREATED: int := 201
  /** 400 Bad Request, section 15.5.1 of RFC 9110. */
  const BAD_REQUEST: int := 400
  /** 404 Not Found, section 15.5.5 of RFC 9110. */
  const NOT_FOUND: int := 404
  /** 409 Conflict, section 15.5.10 of RFC 9110. */
  const CONFLICT: int := 409
  /** 500 Internal Server Error, section 15.6.1 of RFC 9110. */
  const INTERNAL_SERVER_ERROR: int := 500

  /**
   * A request as the handlers see it. Path parameters are raw text; a body
   * is `None` when `call.receive<SampleData>()` threw.
   */
  datatype Request =
    | GetRoot
    | GetExample
    | GetAll
    | GetItem(idParam: string)
    | PostItem(body: Option<Record>)
    | PutItem(idParam: string, body: Option<Record>)
    | DeleteItem(idParam: string)
    | PostBroadcast(body: Option<Record>)

  /** Why a request was refused, one per error body the handlers send. */
  datatype Reason = InvalidIdFormat | DataNotFound | IdConflict | InvalidDataFormat | IdMismatch | BroadcastFailed

  /** Response bodies. */
  datatype Payload =
    | HelloText
    | One(record: Record)
    | Many(records: seq<Record>)
    | Done(message: string)
    | Refused(reason: Reason)

  /** The state the routes share: the record store and the broadcast hub. */
  datatype Server = Server(store: Store, hub: Hub)

  /** A response and the server state it leaves behind. */
  datatype Exchange = Exchange(status: int, payload: Payload, server: Server)

  /** IEEE 754 bit pattern of the `Double` 3.14 in the example record. */
  const PI_APPROX: bv64 := 0x4009_1EB8_51EB_851F

  /** GET /: the liveness marker. */
  function HandleRoot(srv: Server): (x: Exchange)
    ensures x.status == OK && x.payload == HelloText && x.server == srv
  {
    Exchange(OK, HelloText, srv)
  }

  /** GET /api/data: a fixed example record stamped with the current time. */
  function HandleExample(srv: Server, now: int64): (x: Exchange)
    ensures x.status == OK && x.server == srv
    ensures x.payload == One(Record(1, "Example Data", Float64(PI_APPROX), now))
  {
    Exchange(OK, One(Record(1, "Example Data", Float64(PI_APPROX), now)), srv)
  }

  /** GET /api/datas: every record, in store order, store untouched. */
  function HandleGetAll(srv: Server): (x: Exchange)
    ensures x.status == OK && x.server == srv
    ensures x.payload == Many(srv.store)
  {
    Exchange(OK, Many(srv.store), srv)
  }

  /** GET /api/items/{id}. */
  function HandleGetItem(srv: Server, idParam: string): (x: Exchange)
    ensures x.server == srv
    ensures x.status == BAD_REQUEST <==> ToIntOrNull(idParam).None?
    ensures x.status == BAD_REQUEST ==> x.payload == Refused(InvalidIdFormat)
    ensures x.status == NOT_FOUND <==> ToIntOrNull(idParam).Some? && !HasId(srv.store, ToIntOrNull(idParam).value)
    ensures x.status == NOT_FOUND ==> x.payload == Refused(DataNotFound)
    ensures x.status == OK ==>
              x.payload.One? && x.payload.record in srv.store && x.payload.record.id == ToIntOrNull(idParam).value
    ensures x.status == OK ==> x.payload == One(GetDataById(srv.store, ToIntOrNull(idParam).value).value)
    ensures x.status in {OK, BAD_REQUEST, NOT_FOUND}
  {
    match ToIntOrNull(idParam)
    case None => Exchange(BAD_REQUEST, Refused(InvalidIdFormat), srv)
    case Some(id) =>
      match GetDataById(srv.store, id)
      case None => Exchange(NOT_FOUND, Refused(DataNotFound), srv)
      case Some(r) => Exchange(OK, One(r), srv)
  }

  /** POST /api/items. */
  function HandlePostItem(srv: Server, body: Option<Record>): (x: Exchange)
    ensures x.server.hub == srv.hub
    ensures x.status in {CREATED, CONFLICT, BAD_REQUEST}
    ensures x.status == BAD_REQUEST <==> body.None?
    ensures x.status == CREATED <==> body.Some? && !HasId(srv.store, body.value.id)
    ensures x.status == CREATED ==> x.server.store == srv.store + [body.value]
    ensures x.status != CREATED ==> x.server.store == srv.store
    ensures x.status == CONFLICT ==> x.payload == Refused(IdConflict)
    ensures x.status == BAD_REQUEST ==> x.payload == Refused(InvalidDataFormat)
  {
    match body
    case None => Exchange(BAD_REQUEST, Refused(InvalidDataFormat), srv)
    case Some(r) =>
      var m := AddData(srv.store, r);
      if m.ok then
        assert m.store == srv.store + [r];
        Exchange(CREATED, Done("Add data success"), srv.(store := m.store))
      else Exchange(CONFLICT, Refused(IdConflict), srv)
  }

  /**
   * PUT /api/items/{id}: the path id is checked before the body is read,
   * then the body's id must equal it, then the record must exist.
   */
  function HandlePutItem(srv: Server, idParam: string, body: Option<Record>): (x: Exchange)
    ensures x.server.hub == srv.hub
    ensures x.status in {OK, BAD_REQUEST, NOT_FOUND}
    ensures ToIntOrNull(idParam).None? ==> x.status == BAD_REQUEST && x.payload == Refused(InvalidIdFormat)
    ensures ToIntOrNull(idParam).Some? && body.None? ==> x.status == BAD_REQUEST && x.payload == Refused(InvalidDataFormat)
    ensures ToIntOrNull(idParam).Some? && body.Some? && body.value.id != ToIntOrNull(idParam).value ==>
              x.status == BAD_REQUEST && x.payload == Refused(IdMismatch)
    ensures x.status == OK <==> ToIntOrNull(idParam).Some? && body.Some?
                                && body.value.id == ToIntOrNull(idParam).value && HasId(srv.store, body.value.id)
    ensures x.status == OK ==> x.server.store == UpdateData(srv.store, body.value).store
                               && body.value in x.server.store && |x.server.store| == |srv.store|
    ensures x.status != OK ==> x.server.store == srv.store
    ensures x.status == NOT_FOUND <==> ToIntOrNull(idParam).Some? && body.Some?
                                       && body.value.id == ToIntOrNull(idParam).value && !HasId(srv.store, body.value.id)
    ensures x.status == NOT_FOUND ==> x.payload == Refused(DataNotFound)
  {
    match ToIntOrNull(idParam)
    case None => Exchange(BAD_REQUEST, Refused(InvalidIdFormat), srv)
    case Some(id) =>
      match body
      case None => Exchange(BAD_REQUEST, Refused(InvalidDataFormat), srv)
      case Some(r) =>
        if r.id != id then Exchange(BAD_REQUEST, Refused(IdMismatch), srv)
        else
          var m := UpdateData(srv.store, r);
          if m.ok then Exchange(OK, Done("Data updated"), srv.(store := m.store))
          else Exchange(NOT_FOUND, Refused(DataNotFound), srv)
  }

  /** DELETE /api/items/{id}. */
  function HandleDeleteItem(srv: Server, idParam: string): (x: Exchange)
    ensures x.server.hub == srv.hub
    ensures x.status in {OK, BAD_REQUEST, NOT_FOUND}
    ensures x.status == BAD_REQUEST <==> ToIntOrNull(idParam).None?
    ensures x.status == BAD_REQUEST ==> x.payload == Refused(InvalidIdFormat)
    ensures x.status == OK <==> ToIntOrNull(idParam).Some? && HasId(srv.store, ToIntOrNull(idParam).value)
    ensures x.status == OK ==> x.server.store == DeleteDataById(srv.store, ToIntOrNull(idParam).value).store
                               && !HasId(x.server.store, ToIntOrNull(idParam).value)
    ensures x.status != OK ==> x.server.store == srv.store
    ensures x.status == NOT_FOUND ==> x.payload == Refused(DataNotFound)
  {
    match ToIntOrNull(idParam)
    case None => Exchange(BAD_REQUEST, Refused(InvalidIdFormat), srv)
    case Some(id) =>
      var m := DeleteDataById(srv.store, id);
      if m.ok then Exchange(OK, Done("Data deleted"), srv.(store := m.store))
      else Exchange(NOT_FOUND, Refused(DataNotFound), srv)
  }

  /**
   * POST /api/broadcast: the decoded record is encoded again and published
   * once on the hub. A failure to decode or encode answers 500. The store
   * is never touched.
   */
  function HandleBroadcast(srv: Server, body: Option<Record>, encode: Record -> Option<string>): (x: Exchange)
    requires Valid(srv.hub)
    ensures x.server.store == srv.store
    ensures x.status in {OK, INTERNAL_SERVER_ERROR}
    ensures x.status == OK <==> body.Some? && encode(body.value).Some?
    ensures x.status == OK ==> x.server.hub == Broadcast(srv.hub, encode(body.value).value)
    ensures x.status == INTERNAL_SERVER_ERROR ==> x.server.hub == srv.hub && x.payload == Refused(BroadcastFailed)
  {
    if body.None? then Exchange(INTERNAL_SERVER_ERROR, Refused(BroadcastFailed), srv)
    else
      match encode(body.value)
      case None => Exchange(INTERNAL_SERVER_ERROR, Refused(BroadcastFailed), srv)
      case Some(json) => Exchange(OK, Done("Veri yayınlandı"), srv.(hub := Broadcast(srv.hub, json)))
  }

  /** The routing table. */
  function Handle(srv: Server, req: Request, encode: Record -> Option<string>, now: int64): (x: Exchange)
    requires Valid(srv.hub)
    ensures Valid(x.server.hub)
    ensures UniqueIds(srv.store) ==> UniqueIds(x.server.store)
    ensures !req.PostBroadcast? ==> x.server.hub == srv.hub
    ensures req.PostBroadcast? ==> x.server.store == srv.store
  {
    match req
    case GetRoot => HandleRoot(srv)
    case GetExample => HandleExample(srv, now)
    case GetAll => HandleGetAll(srv)
    case GetItem(p) => HandleGetItem(srv, p)
    case PostItem(b) => HandlePostItem(srv, b)
    case PutItem(p, b) => HandlePutItem(srv, p, b)
    case DeleteItem(p) => HandleDeleteItem(srv, p)
    case PostBroadcast(b) => HandleBroadcast(srv, b, encode)
  }

  /**
   * POST /api/items with a record, then GET /api/items/{id} with its id
   * written out, returns that very record; a second POST is a conflict.
   */
  lemma PostThenGet(srv: Server, r: Record)
    requires !HasId(srv.store, r.id)
    ensures var x := HandlePostItem(srv, Some(r));
            x.status == CREATED
            && HandleGetItem(x.server, Decimal(r.id as int)) == Exchange(OK, One(r), x.server)
            && HandlePostItem(x.server, Some(r)).status == CONFLICT
  {
    var x := HandlePostItem(srv, Some(r));
    ToIntOrNullOfDecimal(r.id);
    AddThenGet(srv.store, r);
    assert x.server.store[|srv.store|] == r;
  }

  /** The text frames sent to one WebSocket client, one per hub message. */
  function TextFrames(messages: seq<string>): (frames: seq<Frame>)
    ensures |frames| == |messages|
    ensures forall i :: 0 <= i < |messages| ==> frames[i] == Text(messages[i])
  {
    if |messages| == 0 then [] else [Text(messages[0])] + TextFrames(messages[1..])
  }

  /** What a finished `/ws` session leaves: the hub and the frames it sent. */
  datatype SocketRun = SocketRun(hub: Hub, sent: seq<Frame>)

  /**
   * One `/ws` session: it subscribes to the hub, forwards as a text frame
   * every message published while it is open, reads and ignores whatever
   * the client sends, and unsubscribes when the client's frames end.
   */
  function ServeSocket(h: Hub, published: seq<string>, inbound: seq<Frame>): (run: SocketRun)
    requires Valid(h)
    ensures Valid(run.hub)
  {
    var s := Subscribe(h);
    var open := BroadcastAll(s.hub, published);
    SocketRun(Unsubscribe(open, s.id), TextFrames(open.queues[s.id]))
  }

  /**
   * A session sends exactly the messages published during its lifetime,
   * in order, whatever the client sent; the other subscribers receive the
   * same messages and the session leaves no subscription behind.
   */
  lemma ServeSocketForwardsEveryMessage(h: Hub, published: seq<string>, inbound: seq<Frame>)
    requires Valid(h)
    ensures var run := ServeSocket(h, published, inbound);
            && run.sent == TextFrames(published)
            && run.hub.queues.Keys == h.queues.Keys
            && forall k :: k in h.queues ==> run.hub.queues[k] == h.queues[k] + published
  {
    var s := Subscribe(h);
    BroadcastAllDeliversInOrder(s.hub, published);
  }
}
