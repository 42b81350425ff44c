/**
 * The client screen's logic (`MainViewModel` of the client): connecting,
 * refreshing, submitting a new record and receiving pushed records. Each
 * coroutine launched by the view model is split in two: the synchronous
 * part returns the requests it sends, and an `On...` function applies the
 * response when it arrives.
 */
module ClientViewModel {
  import opened Data
  import opened IntText
  import opened ApiClient

  /** Severity of the message shown to the user. */
  datatype StatusType = SUCCESS | ERROR | INFO

  /** The message shown to the user. */
  datatype StatusMessage = StatusMessage(message: string, kind: StatusType)

  /** The screen's state and the API client it drives. */
  datatype ViewModel = ViewModel(
    serverIp: string,
    serverPort: string,
    isConnected: bool,
    isLoading: bool,
    items: seq<Record>,
    selectedItem: Option<Record>,
    statusMessage: Option<StatusMessage>,
    newItemName: string,
    newItemValue: string,
    api: Client)

  const INITIAL_VIEW_MODEL: ViewModel :=
    ViewModel("10.0.2.2", "8080", false, false, [], None, None, "", "", INITIAL_CLIENT)

  const DEFAULT_PORT: int32 := 8080
  const UNKNOWN_ERROR: string := "Bilinmeyen hata"

  /** An HTTP request the view model sends through the API client. */
  datatype HttpRequest = Get(url: string) | Post(url: string, body: Record)

  /** A view-model call's new state and the requests it sent. */
  datatype Step = Step(vm: ViewModel, sent: seq<HttpRequest>)

  /**
   * Kotlin's `Char.isWhitespace()` on the JVM: `Character.isWhitespace` or
   * `Character.isSpaceChar`, i.e. the ASCII controls 9-13 and 28-31 and the
   * space, line and paragraph separators of Unicode.
   */
  predicate IsWhitespace(c: char) {
    || '\t' <= c <= '\r'
    || '\U{1C}' <= c <= ' '
    || c == '\U{A0}' || c == '\U{1680}'
    || '\U{2000}' <= c <= '\U{200A}'
    || c == '\U{2028}' || c == '\U{2029}' || c == '\U{202F}' || c == '\U{205F}' || c == '\U{3000}'
  }

  /** `CharSequence.isBlank()`: empty or only whitespace. */
  predicate IsBlank(s: string) {
    forall i :: 0 <= i < |s| ==> IsWhitespace(s[i])
  }

  function ShowError(vm: ViewModel, message: string): ViewModel {
    vm.(statusMessage := Some(StatusMessage(message, StatusType.ERROR)))
  }

  function ShowSuccess(vm: ViewModel, message: string): ViewModel {
    vm.(statusMessage := Some(StatusMessage(message, StatusType.SUCCESS)))
  }

  function ShowInfo(vm: ViewModel, message: string): ViewModel {
    vm.(statusMessage := Some(StatusMessage(message, StatusType.INFO)))
  }

  function ClearStatusMessage(vm: ViewModel): ViewModel {
    vm.(statusMessage := None)
  }

  function SelectItem(vm: ViewModel, item: Record): ViewModel {
    vm.(selectedItem := Some(item))
  }

  function ClearSelection(vm: ViewModel): ViewModel {
    vm.(selectedItem := None)
  }

  function UpdateServerIp(vm: ViewModel, ip: string): ViewModel {
    vm.(serverIp := ip)
  }

  function UpdateServerPort(vm: ViewModel, port: string): ViewModel {
    vm.(serverPort := port)
  }

  function UpdateNewItemName(vm: ViewModel, name: string): ViewModel {
    vm.(newItemName := name)
  }

  function UpdateNewItemValue(vm: ViewModel, value: string): ViewModel {
    vm.(newItemValue := value)
  }

  /** The field setters and status helpers each change their own field and nothing else. */
  lemma HelpersTouchOneField(vm: ViewModel, r: Record, text: string)
    ensures SelectItem(vm, r).selectedItem == Some(r) && SelectItem(vm, r).(selectedItem := vm.selectedItem) == vm
    ensures ClearSelection(vm).selectedItem.None? && ClearSelection(vm).(selectedItem := vm.selectedItem) == vm
    ensures ClearStatusMessage(vm).statusMessage.None? && ClearStatusMessage(vm).(statusMessage := vm.statusMessage) == vm
    ensures ShowError(vm, text).statusMessage == Some(StatusMessage(text, StatusType.ERROR))
            && ShowError(vm, text).(statusMessage := vm.statusMessage) == vm
    ensures UpdateServerIp(vm, text).(serverIp := vm.serverIp) == vm
    ensures UpdateServerPort(vm, text).(serverPort := vm.serverPort) == vm
    ensures UpdateNewItemName(vm, text).(newItemName := vm.newItemName) == vm
    ensures UpdateNewItemValue(vm, text).(newItemValue := vm.newItemValue) == vm
  {
  }

  /**
   * `connectToServer()`: a blank IP only shows an error. Otherwise the port
   * text is parsed (8080 when it is not an integer), the API client is
   * pointed at the server, and the liveness check is sent.
   */
  function ConnectToServer(vm: ViewModel): (s: Step)
    ensures IsBlank(vm.serverIp) ==>
              s.sent == [] && s.vm == ShowError(vm, "Lütfen sunucu IP adresini girin")
              && s.vm.isLoading == vm.isLoading
    ensures !IsBlank(vm.serverIp) ==>
              && s.vm.isLoading
              && s.vm.api.serverIp == vm.serverIp
              && s.vm.api.serverPort == ToIntOrNull(vm.serverPort).GetOr(DEFAULT_PORT)
              && s.sent == [Get(BuildUrl(s.vm.api, "/"))]
              && s.vm.isConnected == vm.isConnected && s.vm.items == vm.items
  {
    if IsBlank(vm.serverIp) then Step(ShowError(vm, "Lütfen sunucu IP adresini girin"), [])
    else
      var port := ToIntOrNull(vm.serverPort).GetOr(DEFAULT_PORT);
      var api := UpdateServerDetails(vm.api, vm.serverIp, port);
      Step(vm.(api := api, isLoading := true), [Get(BuildUrl(api, "/"))])
  }

  /** A port field that is not an integer connects on 8080. */
  lemma UnparsablePortFallsBack(vm: ViewModel)
    requires !IsBlank(vm.serverIp) && ToIntOrNull(vm.serverPort).None?
    ensures ConnectToServer(vm).vm.api.serverPort == 8080
  {
  }

  /** `refreshData()`: when connected, fetch the list. */
  function RefreshData(vm: ViewModel): (s: Step)
    ensures !vm.isConnected ==> s == Step(vm, [])
    ensures vm.isConnected ==> s.vm == vm.(isLoading := true) && s.sent == [Get(BuildUrl(vm.api, "/api/items"))]
  {
    if !vm.isConnected then Step(vm, [])
    else Step(vm.(isLoading := true), [Get(BuildUrl(vm.api, "/api/items"))])
  }

  /** `startWebSocket()`: when connected, ask the API client for the socket. */
  function StartWebSocket(vm: ViewModel): (r: ViewModel)
    ensures !vm.isConnected ==> r == vm
    ensures vm.isConnected ==> r.api.job == Some(Active) && r.(api := vm.api) == vm
  {
    if !vm.isConnected then vm else vm.(api := ConnectWebSocket(vm.api))
  }

  /**
   * The end of the liveness check: on success the client is connected, the
   * socket is started and the list is fetched; on failure it is marked
   * disconnected with an error message.
   */
  function OnConnectionChecked(vm: ViewModel, result: Outcome<string>): (s: Step)
    ensures result.Success? ==>
              && s.vm.isConnected
              && s.vm.api.job == Some(Active)
              && s.sent == [Get(BuildUrl(vm.api, "/api/items"))]
              && s.vm.statusMessage == Some(StatusMessage("Sunucuya başarıyla bağlandı", StatusType.SUCCESS))
    ensures result.Failure? ==>
              && s.sent == [] && !s.vm.isConnected && !s.vm.isLoading
              && s.vm.statusMessage == Some(StatusMessage("Bağlantı hatası: " + result.message.GetOr(UNKNOWN_ERROR), StatusType.ERROR))
  {
    var done := vm.(isLoading := false);
    if result.Success? then
      var connected := ShowSuccess(done.(isConnected := true), "Sunucuya başarıyla bağlandı");
      RefreshData(StartWebSocket(connected))
    else
      Step(ShowError(done.(isConnected := false), "Bağlantı hatası: " + result.message.GetOr(UNKNOWN_ERROR)), [])
  }

  /**
   * A liveness check answered with a non-2xx status leaves the client
   * disconnected, names the status in the error, and fetches nothing.
   */
  lemma RefusedCheckLeavesDisconnected(vm: ViewModel, status: int, description: string, body: string)
    requires !IsSuccess(status)
    ensures var s := OnConnectionChecked(vm, CheckConnection(Response(status, description, body)));
            && !s.vm.isConnected && s.sent == [] && s.vm.api == vm.api
            && s.vm.statusMessage == Some(StatusMessage(
                 "Bağlantı hatası: " + ("Server responded with: " + Decimal(status) + " " + description), StatusType.ERROR))
  {
  }

  /** A successful check right after connecting sends exactly one list fetch to the same server. */
  lemma ConnectedCheckFetchesList(vm: ViewModel, body: string)
    requires !IsBlank(vm.serverIp)
    ensures var c := ConnectToServer(vm);
            var s := OnConnectionChecked(c.vm, Success(body));
            && s.vm.isConnected && s.vm.isLoading
            && |s.sent| == 1 && s.sent[0].Get?
            && StartsWith(s.sent[0].url, BaseUrl(vm.serverIp) + ":")
  {
    var c := ConnectToServer(vm);
    var url := BuildUrl(c.vm.api, "/api/items");
    assert url[..|BaseUrl(vm.serverIp) + ":"|] == BaseUrl(vm.serverIp) + ":";
  }

  /** The end of a list fetch: the list is replaced, or an error is shown. */
  function OnItemsFetched(vm: ViewModel, result: Outcome<seq<Record>>): (r: ViewModel)
    ensures !r.isLoading && r.isConnected == vm.isConnected
    ensures result.Success? ==> r.items == result.value && r.statusMessage.Some?
    ensures result.Success? && result.value == [] ==> r.statusMessage.value.kind == StatusType.INFO
    ensures result.Success? && result.value != [] ==>
              r.statusMessage == Some(StatusMessage(Decimal(|result.value|) + " öğe yüklendi", StatusType.SUCCESS))
    ensures result.Failure? ==> r.items == vm.items && r.statusMessage.Some? && r.statusMessage.value.kind == StatusType.ERROR
  {
    var done := vm.(isLoading := false);
    match result
    case Success(list) =>
      var loaded := done.(items := list);
      if |list| == 0 then ShowInfo(loaded, "Sunucudan veri alındı fakat liste boş")
      else ShowSuccess(loaded, Decimal(|list|) + " öğe yüklendi")
    case Failure(message) => ShowError(done, "Veri yüklenirken hata: " + message.GetOr(UNKNOWN_ERROR))
  }

  /** `items.maxOfOrNull { it.id } ?: 0`. */
  function MaxId(items: seq<Record>): (m: int)
    ensures forall i :: 0 <= i < |items| ==> items[i].id as int <= m
    ensures |items| == 0 ==> m == 0
    ensures |items| > 0 ==> exists i :: 0 <= i < |items| && items[i].id as int == m
  {
    if |items| == 0 then 0
    else if |items| == 1 then items[0].id as int
    else
      var rest := MaxId(items[1..]);
      assert forall i :: 1 <= i < |items| ==> items[i] == items[1..][i - 1];
      if items[0].id as int >= rest then items[0].id as int else rest
  }

  /**
   * The id of a new record: the largest id plus one, in 32-bit arithmetic,
   * so that at the maximum it wraps to the minimum.
   */
  function FreshId(items: seq<Record>): (r: int32)
    ensures MaxId(items) < INT32_MAX ==> r as int == MaxId(items) + 1
    ensures MaxId(items) == INT32_MAX ==> r as int == INT32_MIN
  {
    Wrap32(MaxId(items) + 1)
  }

  /** Below the 32-bit maximum, the new id is taken by no listed record. */
  lemma FreshIdIsFresh(items: seq<Record>)
    requires MaxId(items) < INT32_MAX
    ensures forall i :: 0 <= i < |items| ==> items[i].id != FreshId(items)
    ensures |items| == 0 ==> FreshId(items) == 1
  {
  }

  /** At the 32-bit maximum the addition wraps to the minimum, which may already be taken. */
  lemma FreshIdWrapsAtMax(a: Record, b: Record)
    requires a.id as int == INT32_MAX && b.id as int == INT32_MIN
    ensures FreshId([a, b]) == b.id
  {
    assert MaxId([a, b]) == INT32_MAX;
  }

  /**
   * `submitNewItem()`: only when connected; a blank name or a value that
   * does not parse shows an error and sends nothing; otherwise the record
   * with a fresh id is posted. `parseDouble` is `toDoubleOrNull`.
   */
  function SubmitNewItem(vm: ViewModel, parseDouble: string -> Option<Float64>, now: int64): (s: Step)
    ensures !vm.isConnected ==> s == Step(vm, [])
    ensures vm.isConnected && IsBlank(vm.newItemName) ==>
              s.sent == [] && s.vm == ShowError(vm, "Lütfen bir isim girin")
    ensures vm.isConnected && !IsBlank(vm.newItemName) && parseDouble(vm.newItemValue).None? ==>
              s.sent == [] && s.vm == ShowError(vm, "Lütfen geçerli bir sayı girin")
    ensures |s.sent| > 0 <==>
              vm.isConnected && !IsBlank(vm.newItemName) && parseDouble(vm.newItemValue).Some?
    ensures |s.sent| > 0 ==>
              && vm.isConnected && !IsBlank(vm.newItemName) && parseDouble(vm.newItemValue).Some?
              && s.vm == vm.(isLoading := true)
              && s.sent == [Post(BuildUrl(vm.api, "/api/submit"),
                                 Record(FreshId(vm.items), vm.newItemName, parseDouble(vm.newItemValue).value, now))]
  {
    if !vm.isConnected then Step(vm, [])
    else if IsBlank(vm.newItemName) then Step(ShowError(vm, "Lütfen bir isim girin"), [])
    else
      match parseDouble(vm.newItemValue)
      case None => Step(ShowError(vm, "Lütfen geçerli bir sayı girin"), [])
      case Some(value) =>
        var record := Record(FreshId(vm.items), vm.newItemName, value, now);
        Step(vm.(isLoading := true), [Post(BuildUrl(vm.api, "/api/submit"), record)])
  }

  /** The end of a submission: on success the form is cleared and the list refreshed. */
  function OnSubmitted(vm: ViewModel, result: Outcome<map<string, string>>): (s: Step)
    ensures result.Success? ==>
              s.vm.newItemName == "" && s.vm.newItemValue == ""
              && s.vm.statusMessage == Some(StatusMessage("Veri başarıyla gönderildi", StatusType.SUCCESS))
              && s.sent == (if vm.isConnected then [Get(BuildUrl(vm.api, "/api/items"))] else [])
    ensures result.Failure? ==>
              s.sent == [] && !s.vm.isLoading
              && s.vm.newItemName == vm.newItemName && s.vm.newItemValue == vm.newItemValue
              && s.vm.statusMessage == Some(StatusMessage("Veri gönderilirken hata: " + result.message.GetOr(UNKNOWN_ERROR), StatusType.ERROR))
  {
    var done := vm.(isLoading := false);
    if result.Success? then
      RefreshData(ShowSuccess(done, "Veri başarıyla gönderildi").(newItemName := "", newItemValue := ""))
    else
      Step(ShowError(done, "Veri gönderilirken hata: " + result.message.GetOr(UNKNOWN_ERROR)), [])
  }

  /** The socket callback: the pushed record goes to the end of the list. */
  function OnPushedRecord(vm: ViewModel, r: Record): (out: ViewModel)
    ensures |out.items| == |vm.items| + 1 && out.items[..|vm.items|] == vm.items && out.items[|vm.items|] == r
    ensures out.statusMessage == Some(StatusMessage("Yeni veri alındı: " + r.name, StatusType.INFO))
  {
    ShowInfo(vm.(items := vm.items + [r]), "Yeni veri alındı: " + r.name)
  }

  /** The callback applied to each record the socket delivers, in order. */
  function OnPushedRecords(vm: ViewModel, rs: seq<Record>): ViewModel
    decreases |rs|
  {
    if |rs| == 0 then vm else OnPushedRecords(OnPushedRecord(vm, rs[0]), rs[1..])
  }

  /** The socket's records arrive after all earlier items, which stay in order. */
  lemma {:induction false} PushedRecordsAppend(vm: ViewModel, rs: seq<Record>)
    ensures OnPushedRecords(vm, rs).items == vm.items + rs
    decreases |rs|
  {
    if |rs| > 0 {
      PushedRecordsAppend(OnPushedRecord(vm, rs[0]), rs[1..]);
      assert vm.items + [rs[0]] + rs[1..] == vm.items + rs;
    }
  }

  /**
   * Frames arriving on the socket: the API client's buffer and the screen's
   * list both grow by the same decoded records, in frame order.
   */
  method ReceiveFrames(vm: ViewModel, frames: seq<Frame>, decode: string -> Option<Record>)
    returns (out: ViewModel)
    ensures out.api.incoming == vm.api.incoming + Accepted(frames, decode)
    ensures out.items == vm.items + Accepted(frames, decode)
  {
    var api, delivered := FrameLoop(vm.api, frames, decode);
    PushedRecordsAppend(vm, delivered);
    out := OnPushedRecords(vm, delivered).(api := api);
  }

  /**
   * A fresh screen is not connected: refreshing, submitting and starting
   * the socket do nothing until a connection check succeeds.
   */
  lemma FreshScreenIsIdle(parseDouble: string -> Option<Float64>, now: int64)
    ensures RefreshData(INITIAL_VIEW_MODEL) == Step(INITIAL_VIEW_MODEL, [])
    ensures SubmitNewItem(INITIAL_VIEW_MODEL, parseDouble, now) == Step(INITIAL_VIEW_MODEL, [])
    ensures StartWebSocket(INITIAL_VIEW_MODEL) == INITIAL_VIEW_MODEL
  {
  }

  /** Connecting from a fresh screen checks the emulator's host address on the default port. */
  lemma FreshScreenConnectsToDefaults()
    ensures var s := ConnectToServer(INITIAL_VIEW_MODEL);
            s.vm.api.serverIp == "10.0.2.2" && s.vm.api.serverPort == DEFAULT_PORT
  {
    assert !IsWhitespace(INITIAL_VIEW_MODEL.serverIp[0]);
    assert Decimal(DEFAULT_PORT as int) == INITIAL_VIEW_MODEL.serverPort;
    ToIntOrNullOfDecimal(DEFAULT_PORT);
  }
}
