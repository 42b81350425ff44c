# KtorConnect in Dafny

KtorConnect is a pair of Android apps. The server app runs an embedded Ktor
HTTP server over an in-memory store of sample records. It fans pushed
records out to WebSocket clients through a shared broadcast hub. It drives
the server's lifecycle through a manager and a background service. The
client app connects to the server, lists and submits records, and receives
pushed records over a WebSocket.

This project models that core as immutable datatypes and pure functions.

- `data.dfy` (`Data`): the shared value types.
  - The record (`SampleData`), with its `Double` carried as an opaque IEEE 754 bit pattern.
  - The log entry, the server address and the lifecycle status.
  - WebSocket frames and Android intents with `Int` extras.
  - JVM `Int` wrap-around.
- `int_text.dfy` (`IntText`): Kotlin's `String.toIntOrNull()` and `Int.toString()`, with their round trip.
- `repository.dfy` (`Repository`): the record store (`DataRepository`) and the id-uniqueness invariant under every mutator.
- `broadcast.dfy` (`BroadcastChannel`): the broadcast hub, a shared flow with no replay.
  - Emission is sequential: each collector owns a queue, and `Broadcast` appends to every queue that exists at that moment.
- `routes.dfy` (`Routes`): every route of `serverModule` as a function.
  - Input: the server state and the request, reduced to its raw path parameter and its decoded body (or the decoding failure).
  - Output: the status code (section 15 of RFC 9110), the payload and the next state.
  - The `/ws` session subscribes, forwards hub messages as text frames (section 5.6 of RFC 6455), ignores inbound frames, and unsubscribes.
- `server_manager.dfy` (`ServerManager`): the lifecycle controller.
  - Guarded start and stop, the unguarded status update and the append-only log.
  - The address filter of `logLocalIpAddress`, applied to an abstract list of interfaces.
- `server_service.dfy` (`ServerService`): the background service.
  - Command dispatch.
  - The start guard, with the bind outcome as a parameter.
  - The stop teardown with its two status broadcasts.
- `status_receiver.dfy` (`StatusReceiver`): the status carried in an intent as its enum ordinal, and decoded back.
- `api_client.dfy` (`ApiClient`): the client's connection logic.
  - URL building and host stripping.
  - The liveness check.
  - The at-most-one-socket guard, the incoming-frame loop, and the idempotent disconnect.
- `client_view_model.dfy` (`ClientViewModel`): the client screen's logic.
  - Connection, refresh and submission, with their connected-only guards and form validation.
  - Fresh-id generation.
  - Pushed records.

Asynchronous work (`viewModelScope.launch` and the service's coroutine) is
split in two: a function that issues the request, and a function that
applies its result. Several things become parameters:

- network results;
- the bind outcome and the exception `stop` may throw;
- interface enumeration;
- the clock;
- `toDoubleOrNull`;
- JSON encoding and decoding (kotlinx.serialization), as partial functions whose `None` stands for the exception they throw.

data/ServerStatus.kt is not part of this model. The enum's declaration
order is assumed to follow the lifecycle's own order: STOPPED, STARTING,
RUNNING, STOPPING, ERROR. The ordinal encoding depends on it. Other files
list the statuses in other orders (the `when` branches of
ServerStatusIndicator.kt and ServerControlPanel.kt), so none of them fixes it.

## Model

Source paths are under `server/src/main/java/com/emrepbu/ktorconnect/server/`
(server side) or `client/src/main/java/com/emrepbu/ktorconnect/client/`
(client side), written out in full below.

| member | source | states |
|---|---|---|
| Data.Wrap32 | client/src/main/java/com/emrepbu/ktorconnect/client/ui/screens/main/MainViewModel.kt:146 | JVM `Int` addition: an in-range value is kept; otherwise the result is the unique 32-bit value congruent to it modulo 2^32 |
| IntText.Decimal | server/src/main/java/com/emrepbu/ktorconnect/server/ktorserver/ServerManager.kt:34 | `Int.toString()` is non-empty and starts with `-` exactly for negative numbers |
| IntText.ToIntOrNull | server/src/main/java/com/emrepbu/ktorconnect/server/ktorserver/ServerModule.kt:57 | `toIntOrNull` gives a value exactly for an optional sign followed by at least one ASCII digit whose signed value fits in 32 bits, and the value is that signed value; empty text is null |
| IntText.ToIntOrNullOfDecimal | server/src/main/java/com/emrepbu/ktorconnect/server/ktorserver/ServerModule.kt:57 | the decimal text of any 32-bit integer parses back to that integer |
| IntText.ToIntOrNullRejectsOverflow | server/src/main/java/com/emrepbu/ktorconnect/server/ktorserver/ServerModule.kt:57 | the decimal text of any integer outside 32 bits parses to null |
| IntText.DecimalIsSignedDigits | server/src/main/java/com/emrepbu/ktorconnect/server/ktorserver/ServerModule.kt:57 | the text `Int.toString()` writes is an optional `-` and digits whose signed value is the integer |
| IntText.LeadingZerosValue | server/src/main/java/com/emrepbu/ktorconnect/server/ktorserver/ServerModule.kt:57 | leading zeros do not change the value of a run of digits |
| IntText.LeadingZerosAndSigns | server/src/main/java/com/emrepbu/ktorconnect/server/ktorserver/ServerModule.kt:57 | non-canonical text reads as Kotlin reads it: leading zeros, with or without `+`, give the same non-negative value, and `-` with leading zeros gives its negation, so "007" and "+7" read as 7 and "-0" as 0 |
| Repository.InitialStore | server/src/main/java/com/emrepbu/ktorconnect/server/repository/DataRepository.kt:13-26 | the store starts with ten records `Item 0`..`Item 9` with values 0.0..9.0; ids are 0..9, ascending and distinct |
| Repository.IndexOfFirst | server/src/main/java/com/emrepbu/ktorconnect/server/repository/DataRepository.kt:59 | `indexOfFirst` is -1 exactly when no record has the id; otherwise the position holds the id and no earlier position does |
| Repository.GetDataById | server/src/main/java/com/emrepbu/ktorconnect/server/repository/DataRepository.kt:32-34 | null exactly when no record has the id; otherwise the first record with that id |
| Repository.AddData | server/src/main/java/com/emrepbu/ktorconnect/server/repository/DataRepository.kt:46-52 | succeeds exactly when the id is absent; on success the record is appended and earlier records are untouched; on refusal the store is unchanged; unique ids are preserved |
| Repository.UpdateData | server/src/main/java/com/emrepbu/ktorconnect/server/repository/DataRepository.kt:57-68 | succeeds exactly when the id is present; then only the first matching position is replaced and the length is kept; on failure the store is unchanged; unique ids are preserved |
| Repository.Without | server/src/main/java/com/emrepbu/ktorconnect/server/repository/DataRepository.kt:78 | the filter keeps exactly the records whose id differs |
| Repository.DeleteDataById | server/src/main/java/com/emrepbu/ktorconnect/server/repository/DataRepository.kt:73-80 | succeeds exactly when the id is present; on failure the store is unchanged; on success no record with the id remains, the store shrinks and every other record stays; unique ids are preserved |
| Repository.WithoutKeepsUnique | server/src/main/java/com/emrepbu/ktorconnect/server/repository/DataRepository.kt:78 | filtering a store with unique ids leaves unique ids |
| Repository.DeleteKeepsOrder | server/src/main/java/com/emrepbu/ktorconnect/server/repository/DataRepository.kt:73-80 | the records left by a delete keep their original relative order |
| Repository.DeleteRemovesOnePosition | server/src/main/java/com/emrepbu/ktorconnect/server/repository/DataRepository.kt:73-80 | with unique ids, a delete removes exactly the single record at the first matching position |
| Repository.AddThenGet | server/src/main/java/com/emrepbu/ktorconnect/server/repository/DataRepository.kt:32-52 | after a successful add, lookup by the same id returns the added record |
| Repository.UniqueIdsPreserved | server/src/main/java/com/emrepbu/ktorconnect/server/repository/DataRepository.kt:46-80 | any sequence of adds, updates and deletes keeps ids unique |
| Repository.UniqueIdsFromInitialStore | server/src/main/java/com/emrepbu/ktorconnect/server/repository/DataRepository.kt:13-80 | starting from the sample records, no sequence of operations ever duplicates an id |
| BroadcastChannel.Subscribe | server/src/main/java/com/emrepbu/ktorconnect/server/ktorserver/BroadcastChannel.kt:7-8 | a new collector gets a fresh id and an empty queue; existing collectors are untouched |
| BroadcastChannel.Unsubscribe | server/src/main/java/com/emrepbu/ktorconnect/server/ktorserver/BroadcastChannel.kt:7-8 | a collector that stops is removed; the others keep their queues |
| BroadcastChannel.Broadcast | server/src/main/java/com/emrepbu/ktorconnect/server/ktorserver/BroadcastChannel.kt:10-12 | every current collector gets the message at the end of its queue; the set of collectors does not change |
| BroadcastChannel.BroadcastAll | server/src/main/java/com/emrepbu/ktorconnect/server/ktorserver/BroadcastChannel.kt:10-12 | publishing several messages in turn adds and removes no collector |
| BroadcastChannel.BroadcastAllDeliversInOrder | server/src/main/java/com/emrepbu/ktorconnect/server/ktorserver/BroadcastChannel.kt:10-12 | each collector present throughout receives all messages in publication order, after what it had |
| BroadcastChannel.NoReplay | server/src/main/java/com/emrepbu/ktorconnect/server/ktorserver/BroadcastChannel.kt:7 | a collector that subscribes after some broadcasts receives exactly the later messages |
| BroadcastChannel.BroadcastWithoutSubscribersRetainsNothing | server/src/main/java/com/emrepbu/ktorconnect/server/ktorserver/BroadcastChannel.kt:7-12 | a broadcast with no collectors changes nothing, and a later subscriber starts empty |
| BroadcastChannel.UnsubscribeDoesNotBlockOthers | server/src/main/java/com/emrepbu/ktorconnect/server/ktorserver/BroadcastChannel.kt:10-12 | after one collector leaves, every remaining collector still receives the next message |
| BroadcastChannel.FirstCollectorOfEmptyHub | server/src/main/java/com/emrepbu/ktorconnect/server/ktorserver/BroadcastChannel.kt:7-12 | on a fresh hub the first collector holds exactly the messages published after it subscribed, whatever came before |
| Routes.HandleRoot | server/src/main/java/com/emrepbu/ktorconnect/server/ktorserver/ServerModule.kt:35-38 | GET / answers 200 with the greeting and changes no state |
| Routes.HandleExample | server/src/main/java/com/emrepbu/ktorconnect/server/ktorserver/ServerModule.kt:39-48 | GET /api/data answers 200 with record 1, "Example Data", 3.14, stamped with the clock, and changes no state |
| Routes.HandleGetAll | server/src/main/java/com/emrepbu/ktorconnect/server/ktorserver/ServerModule.kt:50-54 | GET /api/datas answers 200 with exactly the store's records in order, and does not mutate the store |
| Routes.HandleGetItem | server/src/main/java/com/emrepbu/ktorconnect/server/ktorserver/ServerModule.kt:56-73 | 400 exactly for a non-integer id; 404 exactly for an integer id with no record; otherwise 200 with the first stored record of that id, as `getDataById` finds it; state unchanged |
| Routes.HandlePostItem | server/src/main/java/com/emrepbu/ktorconnect/server/ktorserver/ServerModule.kt:75-94 | 400 exactly for an undecodable body; 201 exactly when the id is new, with the record appended; 409 on an existing id; the store is unchanged unless 201 |
| Routes.HandlePutItem | server/src/main/java/com/emrepbu/ktorconnect/server/ktorserver/ServerModule.kt:97-129 | checks the path id, then the body, then id equality, each with 400 and its own reason; 200 exactly when the ids match and the record exists, with the store replaced as by `updateData`; 404 exactly when the ids match and no record has that id; the store is unchanged unless 200 |
| Routes.HandleDeleteItem | server/src/main/java/com/emrepbu/ktorconnect/server/ktorserver/ServerModule.kt:131-147 | 400 exactly for a non-integer id; 200 exactly when a record had the id, which is then gone; 404 otherwise; the store is unchanged unless 200 |
| Routes.HandleBroadcast | server/src/main/java/com/emrepbu/ktorconnect/server/ktorserver/ServerModule.kt:175-186 | 200 exactly when the body decodes and re-encodes, publishing the encoding once; otherwise 500 with the hub unchanged; the store is never touched |
| Routes.Handle | server/src/main/java/com/emrepbu/ktorconnect/server/ktorserver/ServerModule.kt:34-187 | every route keeps ids unique and the hub well-formed; only /api/broadcast touches the hub, and it never touches the store |
| Routes.PostThenGet | server/src/main/java/com/emrepbu/ktorconnect/server/ktorserver/ServerModule.kt:56-94 | a record posted with a new id is returned by GET with its id written in decimal; posting it again is a conflict |
| Routes.TextFrames | server/src/main/java/com/emrepbu/ktorconnect/server/ktorserver/ServerModule.kt:151-155 | one text frame per hub message, in order, carrying the message |
| Routes.ServeSocket | server/src/main/java/com/emrepbu/ktorconnect/server/ktorserver/ServerModule.kt:149-173 | a `/ws` session leaves the hub well-formed |
| Routes.ServeSocketForwardsEveryMessage | server/src/main/java/com/emrepbu/ktorconnect/server/ktorserver/ServerModule.kt:149-173 | a session sends exactly the messages published while it is open, in order, whatever the client sends; other collectors get the same messages; its subscription is gone at the end |
| ServerManager.AddLog | server/src/main/java/com/emrepbu/ktorconnect/server/ktorserver/ServerManager.kt:83-86 | exactly one entry is appended, earlier entries are kept, and nothing else changes |
| ServerManager.ClearLogs | server/src/main/java/com/emrepbu/ktorconnect/server/ktorserver/ServerManager.kt:88-90 | the log becomes empty and nothing else changes |
| ServerManager.StartIntent | server/src/main/java/com/emrepbu/ktorconnect/server/ktorserver/ServerManager.kt:36-39 | the start command carries the start action and exactly one extra, the port |
| ServerManager.StopIntent | server/src/main/java/com/emrepbu/ktorconnect/server/ktorserver/ServerManager.kt:52-54 | the stop command carries the stop action, distinct from the start action, and no extras |
| ServerManager.StartServer | server/src/main/java/com/emrepbu/ktorconnect/server/ktorserver/ServerManager.kt:26-41 | in RUNNING or STARTING only one log entry is added; otherwise the status becomes STARTING, the port becomes the argument, one entry is logged and exactly one start command carries that port |
| ServerManager.StopServer | server/src/main/java/com/emrepbu/ktorconnect/server/ktorserver/ServerManager.kt:43-56 | in STOPPED or STOPPING only one log entry is added; otherwise the status becomes STOPPING, one entry is logged and exactly one stop command is sent |
| ServerManager.ScanAddresses | server/src/main/java/com/emrepbu/ktorconnect/server/ktorserver/ServerManager.kt:107-113 | an interface's listed addresses are exactly its non-loopback addresses without ':' on an up, non-loopback interface, each logged once |
| ServerManager.ScanInterfaces | server/src/main/java/com/emrepbu/ktorconnect/server/ktorserver/ServerManager.kt:102-114 | across all interfaces, every address passing the filter is listed and nothing else is |
| ServerManager.Listed | server/src/main/java/com/emrepbu/ktorconnect/server/ktorserver/ServerManager.kt:103-108 | an address is listed when its interface is up and not loopback, and the address is not loopback and has no ':' |
| ServerManager.SkippedInterfaceListsNothing | server/src/main/java/com/emrepbu/ktorconnect/server/ktorserver/ServerManager.kt:103-105 | an interface that is down or loopback contributes no address and no log line |
| ServerManager.OneAddressListedIffIPv4 | server/src/main/java/com/emrepbu/ktorconnect/server/ktorserver/ServerManager.kt:107-112 | on a usable interface, an address is listed exactly when it is not loopback and has no ':' |
| ServerManager.LogLocalIpAddress | server/src/main/java/com/emrepbu/ktorconnect/server/ktorserver/ServerManager.kt:92-121 | the list starts with LOCALHOST, followed by exactly the filtered addresses; if enumeration throws, one error entry is logged and the list is kept |
| ServerManager.UpdateServerStatus | server/src/main/java/com/emrepbu/ktorconnect/server/ktorserver/ServerManager.kt:58-81 | the status is set unconditionally; STARTING and STOPPING change nothing else; STOPPED and ERROR log and clear the addresses, ERROR with an error entry; RUNNING logs the port and lists LOCALHOST first |
| ServerManager.StoppedAndErrorClearAddresses | server/src/main/java/com/emrepbu/ktorconnect/server/ktorserver/ServerManager.kt:67-75 | STOPPED and ERROR always empty the address list, and the new entry is an error exactly for ERROR |
| ServerManager.StartTwiceSendsOneCommand | server/src/main/java/com/emrepbu/ktorconnect/server/ktorserver/ServerManager.kt:26-41 | a second start right after the first sends no command and keeps the first port |
| ServerManager.StartThenStopFromInitial | server/src/main/java/com/emrepbu/ktorconnect/server/ktorserver/ServerManager.kt:14-56 | from the initial STOPPED state, start then stop sends one start command with the port, then one stop command, and leaves the manager STOPPING |
| StatusReceiver.Ordinal | server/src/main/java/com/emrepbu/ktorconnect/server/ktorserver/ServerStatusReceiver.kt:41 | an ordinal lies in 0..4 |
| StatusReceiver.ValueAt | server/src/main/java/com/emrepbu/ktorconnect/server/ktorserver/ServerStatusReceiver.kt:19 | `values()[n]` exists exactly for 0 <= n < 5, and is the status with ordinal n |
| StatusReceiver.CreateStatusIntent | server/src/main/java/com/emrepbu/ktorconnect/server/ktorserver/ServerStatusReceiver.kt:39-43 | the intent has the status-changed action and one extra, which is the status's ordinal |
| StatusReceiver.OnReceive | server/src/main/java/com/emrepbu/ktorconnect/server/ktorserver/ServerStatusReceiver.kt:15-23 | other actions never reach the callback; a missing extra reads as STOPPED; a delivered status has the extra as its ordinal; the index fails exactly for an ordinal outside 0..4 |
| StatusReceiver.StatusRoundTrip | server/src/main/java/com/emrepbu/ktorconnect/server/ktorserver/ServerStatusReceiver.kt:15-43 | receiving the intent created for a status delivers exactly that status |
| StatusReceiver.OrdinalInjective | server/src/main/java/com/emrepbu/ktorconnect/server/ktorserver/ServerStatusReceiver.kt:41 | distinct statuses have distinct ordinals |
| ServerService.Route | server/src/main/java/com/emrepbu/ktorconnect/server/ktorserver/ServerService.kt:43-58 | START dispatches a start with the port extra, or 8080 when it is missing; STOP dispatches a stop; any other action or no intent does nothing |
| ServerService.OnStartCommand | server/src/main/java/com/emrepbu/ktorconnect/server/ktorserver/ServerService.kt:43-58 | an ignored intent changes nothing; a stop ends with no server and STOPPED; a start while a server is held keeps it, and otherwise holds a server exactly when the bind succeeded |
| ServerService.StartServer | server/src/main/java/com/emrepbu/ktorconnect/server/ktorserver/ServerService.kt:65-120 | with a server held, only one log line; a successful bind stores the handle and reports RUNNING; any failure ends the log with an error entry and the ERROR report, and holds no server |
| ServerService.Launch | server/src/main/java/com/emrepbu/ktorconnect/server/ktorserver/ServerService.kt:72-119 | an attempt only appends to the log and keeps the port; success reports RUNNING; every failure path reports ERROR, clears the addresses, and ends with an error entry followed by the ERROR report |
| ServerService.BindSucceeded | server/src/main/java/com/emrepbu/ktorconnect/server/ktorserver/ServerService.kt:84-103 | the success path logs its progress, the third entry announcing the server runs, then reports RUNNING on the same port |
| ServerService.BindFailed | server/src/main/java/com/emrepbu/ktorconnect/server/ktorserver/ServerService.kt:104-111 | a failed bind logs two error entries, then reports ERROR, which clears the addresses |
| ServerService.StopServer | server/src/main/java/com/emrepbu/ktorconnect/server/ktorserver/ServerService.kt:122-149 | always ends with no server and STOPPED, even when `stop` throws or no server was held; broadcasts STOPPING then STOPPED; a throwing `stop` is logged as an error first |
| ServerService.StartIntentCarriesPort | server/src/main/java/com/emrepbu/ktorconnect/server/ktorserver/ServerService.kt:47-49 | the manager's start command reaches the service with the requested port |
| ServerService.StartFromStoppedReachesRunning | server/src/main/java/com/emrepbu/ktorconnect/server/ktorserver/ServerService.kt:65-103 | from STOPPED, the manager's start command and a successful bind reach RUNNING on the requested port with the handle held |
| ServerService.StopThenStartAgain | server/src/main/java/com/emrepbu/ktorconnect/server/ktorserver/ServerService.kt:122-149 | from RUNNING, stop reaches STOPPED with no server, after which a start binds and runs again |
| ServerService.NoSecondServer | server/src/main/java/com/emrepbu/ktorconnect/server/ktorserver/ServerService.kt:66-69 | a start while a server is held creates no second server and keeps the status |
| ApiClient.RemovePrefix | client/src/main/java/com/emrepbu/ktorconnect/client/ktorclient/ApiClient.kt:157 | `removePrefix` drops the prefix once when present and otherwise returns the text unchanged |
| ApiClient.UpdateServerDetails | client/src/main/java/com/emrepbu/ktorconnect/client/ktorclient/ApiClient.kt:68-71 | only the address and the port change |
| ApiClient.BaseUrl | client/src/main/java/com/emrepbu/ktorconnect/client/ktorclient/ApiClient.kt:76 | the base always starts with `http://`, added only when the IP lacks it |
| ApiClient.BuildUrl | client/src/main/java/com/emrepbu/ktorconnect/client/ktorclient/ApiClient.kt:74-78 | the URL starts with `http://`, is base + ':' + decimal port + endpoint, and ends with the endpoint |
| ApiClient.BuildUrlPrefixOnce | client/src/main/java/com/emrepbu/ktorconnect/client/ktorclient/ApiClient.kt:76 | the prefix is never doubled: the URL starts with the IP itself, or with `http://` and then the IP |
| ApiClient.HttpsAddressGetsSecondScheme | client/src/main/java/com/emrepbu/ktorconnect/client/ktorclient/ApiClient.kt:76 | an `https://` address yields a URL starting `http://https://` |
| ApiClient.WebSocketHost | client/src/main/java/com/emrepbu/ktorconnect/client/ktorclient/ApiClient.kt:157 | the host is the IP without a leading `http://` and then without a leading `https://`, both removed when both are present; it is always a suffix of the IP |
| ApiClient.WebSocketHostUndoesBaseUrl | client/src/main/java/com/emrepbu/ktorconnect/client/ktorclient/ApiClient.kt:157 | stripping the base URL of a scheme-less IP gives back the IP |
| ApiClient.WebSocketTarget | client/src/main/java/com/emrepbu/ktorconnect/client/ktorclient/ApiClient.kt:155-160 | the socket opens at path `/ws` on the client's port, with a host that is a suffix of the IP and is the IP itself when it has no scheme |
| ApiClient.CheckConnection | client/src/main/java/com/emrepbu/ktorconnect/client/ktorclient/ApiClient.kt:81-92 | success carries the body exactly when the status is 2xx; any other status fails naming the status; an exception fails with its message |
| ApiClient.ConnectWebSocket | client/src/main/java/com/emrepbu/ktorconnect/client/ktorclient/ApiClient.kt:145-153 | while the job is active nothing changes; otherwise a new active job starts, and nothing else changes |
| ApiClient.ConnectTwiceIsConnectOnce | client/src/main/java/com/emrepbu/ktorconnect/client/ktorclient/ApiClient.kt:145-149 | a second connect without a disconnect creates no second job |
| ApiClient.OnSocketOpened | client/src/main/java/com/emrepbu/ktorconnect/client/ktorclient/ApiClient.kt:160-163 | inside the active job the handshake marks the client connected with the session |
| ApiClient.FrameLoop | client/src/main/java/com/emrepbu/ktorconnect/client/ktorclient/ApiClient.kt:165-182 | the callback receives exactly the decodable text frames' records in order; the same records are appended to `incoming`; nothing else changes |
| ApiClient.AcceptedComeFromTextFrames | client/src/main/java/com/emrepbu/ktorconnect/client/ktorclient/ApiClient.kt:165-182 | every accepted record is the decoding of some text frame, and there are no more records than frames |
| ApiClient.OnLoopEnded | client/src/main/java/com/emrepbu/ktorconnect/client/ktorclient/ApiClient.kt:186-190 | the end of the loop leaves the client disconnected without a session, keeping what it received |
| ApiClient.ReconnectAfterLoopEnded | client/src/main/java/com/emrepbu/ktorconnect/client/ktorclient/ApiClient.kt:145-190 | once the loop has ended, a new connect starts a new job |
| ApiClient.DisconnectWebSocket | client/src/main/java/com/emrepbu/ktorconnect/client/ktorclient/ApiClient.kt:196-201 | the client is disconnected with no job and no session; the address and received records are kept |
| ApiClient.DisconnectIdempotent | client/src/main/java/com/emrepbu/ktorconnect/client/ktorclient/ApiClient.kt:196-201 | disconnecting twice equals disconnecting once |
| ClientViewModel.HelpersTouchOneField | client/src/main/java/com/emrepbu/ktorconnect/client/ui/screens/main/MainViewModel.kt:112-128 | selection, status and form setters each change their own field and nothing else |
| ClientViewModel.ConnectToServer | client/src/main/java/com/emrepbu/ktorconnect/client/ui/screens/main/MainViewModel.kt:59-68 | a blank IP shows an error, sends nothing and leaves `isLoading`; otherwise the client gets the IP and the parsed port (8080 if unparsable), starts loading and sends one liveness check |
| ClientViewModel.UnparsablePortFallsBack | client/src/main/java/com/emrepbu/ktorconnect/client/ui/screens/main/MainViewModel.kt:65 | a port field that is not an integer connects on 8080 |
| ClientViewModel.RefreshData | client/src/main/java/com/emrepbu/ktorconnect/client/ui/screens/main/MainViewModel.kt:89-95 | not connected is a no-op; otherwise it starts loading and sends one list fetch |
| ClientViewModel.StartWebSocket | client/src/main/java/com/emrepbu/ktorconnect/client/ui/screens/main/MainViewModel.kt:193-197 | not connected is a no-op; otherwise the socket job is active and nothing else changes |
| ClientViewModel.OnConnectionChecked | client/src/main/java/com/emrepbu/ktorconnect/client/ui/screens/main/MainViewModel.kt:70-85 | success connects, shows success, starts the socket and fetches the list; failure disconnects with an error naming the message or "Bilinmeyen hata" |
| ClientViewModel.RefusedCheckLeavesDisconnected | client/src/main/java/com/emrepbu/ktorconnect/client/ui/screens/main/MainViewModel.kt:80-84 | a non-2xx liveness answer leaves the client disconnected with an error naming the status, and fetches nothing |
| ClientViewModel.ConnectedCheckFetchesList | client/src/main/java/com/emrepbu/ktorconnect/client/ui/screens/main/MainViewModel.kt:74-79 | a successful check after connecting sends exactly one list fetch to the same server |
| ClientViewModel.OnItemsFetched | client/src/main/java/com/emrepbu/ktorconnect/client/ui/screens/main/MainViewModel.kt:94-108 | a fetched list replaces the items, with INFO when empty and "n öğe yüklendi" otherwise; an error keeps the items and shows an error |
| ClientViewModel.MaxId | client/src/main/java/com/emrepbu/ktorconnect/client/ui/screens/main/MainViewModel.kt:146 | `maxOfOrNull { it.id } ?: 0`: bounds every id and is one of them, or 0 for no items |
| ClientViewModel.FreshIdIsFresh | client/src/main/java/com/emrepbu/ktorconnect/client/ui/screens/main/MainViewModel.kt:146 | below the 32-bit maximum, the new id belongs to no listed item; with no items it is 1 |
| ClientViewModel.FreshIdWrapsAtMax | client/src/main/java/com/emrepbu/ktorconnect/client/ui/screens/main/MainViewModel.kt:146 | at the 32-bit maximum the addition wraps to the minimum, which can collide with a listed id |
| ClientViewModel.FreshId | client/src/main/java/com/emrepbu/ktorconnect/client/ui/screens/main/MainViewModel.kt:146 | below the 32-bit maximum the new id is the largest id plus one; at the maximum it is the 32-bit minimum |
| ClientViewModel.SubmitNewItem | client/src/main/java/com/emrepbu/ktorconnect/client/ui/screens/main/MainViewModel.kt:131-155 | not connected is a no-op; a blank name or an unparsable value shows its error and sends nothing; a request is sent exactly when connected with a non-blank name and a parsable value, and it posts the record with the fresh id |
| ClientViewModel.OnSubmitted | client/src/main/java/com/emrepbu/ktorconnect/client/ui/screens/main/MainViewModel.kt:154-167 | success clears both form fields and refreshes; failure keeps the fields and shows an error |
| ClientViewModel.OnPushedRecord | client/src/main/java/com/emrepbu/ktorconnect/client/ui/screens/main/MainViewModel.kt:197-201 | a pushed record goes to the end of the items, earlier items stay in order, and an INFO message names it |
| ClientViewModel.PushedRecordsAppend | client/src/main/java/com/emrepbu/ktorconnect/client/ui/screens/main/MainViewModel.kt:197-201 | several pushed records are appended in arrival order after all earlier items |
| ClientViewModel.ReceiveFrames | client/src/main/java/com/emrepbu/ktorconnect/client/ktorclient/ApiClient.kt:165-182 | the client's buffer and the screen's list both grow by the same decoded records, in frame order |
| ClientViewModel.FreshScreenIsIdle | client/src/main/java/com/emrepbu/ktorconnect/client/ui/screens/main/MainViewModel.kt:27 | the screen starts disconnected, so refresh, submit and the socket start do nothing before a connection succeeds |
| ClientViewModel.FreshScreenConnectsToDefaults | client/src/main/java/com/emrepbu/ktorconnect/client/ui/screens/main/MainViewModel.kt:21-24 | connecting from the initial form targets `10.0.2.2` on port 8080 |

## Left out

- Compose UI, both activities, the server-side view model, notifications, `startService`, receiver registration, `stopSelf` and `stopForeground`: presentation and Android plumbing. `stopSelf` after a failed start later runs `onDestroy`, and therefore `stopServer`. The model does not chain this automatically; `ServerService.StopServer` is the call that follows.
- Ktor, Netty and OkHttp engines, sockets, timeouts and the HTTP reply after the `/ws` upgrade fails (ServerModule.kt lines 163-168): transport and library code.
- Concurrency: coroutines, dispatchers, job-cancellation timing, the check-then-set in `addData`, the unsynchronised singletons, and the gap between the service's `server != null` guard and the assignment. Everything runs sequentially.
- Floating point and clocks: `Double` values are opaque bit patterns; `toDoubleOrNull` and `System.currentTimeMillis` are parameters; `formatTimestamp` and the log entries' timestamps are dropped.
- JSON encoding and decoding (kotlinx.serialization) are uninterpreted, partial function parameters, and no round trip between them is claimed.
- `NetworkInterface` enumeration: only the filter over an abstract list of interfaces is modelled. An exception thrown midway through enumeration is modelled only as a failure before any address is found.
- The log lines that `serverModule` writes through its log callback, and `println` output.
- `getAllData` is the store itself (`Routes.HandleGetAll` returns it); `getData`, `getItems` and `submitData` of the client are modelled only by the URL they request and a result parameter.
- IntText.ToIntOrNull: accepts ASCII digits only, while Kotlin also accepts other Unicode decimal digits.
- Intent extras other than `Int` ones are not modelled.
- The initial store's timestamps are taken as one clock reading shared by the ten records.
- `BroadcastChannel` exposes only a read-only view of its flow, so `broadcast` is the only way to publish. The model has no export restriction to state this; every change to a queue in the model goes through `Broadcast`, `Subscribe` or `Unsubscribe`.
- Client and server end to end: the client lists items with GET `/api/items` and submits to `/api/submit`. The server serves the list at `/api/datas` and accepts new records at POST `/api/items`. Each side is modelled with its own paths, and no end-to-end claim is made.
- The duplicate, incomplete `manager/ServerManager.kt` and `service/ServerService.kt` are not the authoritative versions and are not modelled.
- data/ServerStatus.kt is not part of this model; the ordinal order is an assumption, stated above. A different declaration order changes the numbers `StatusReceiver.Ordinal` assigns but not the round trip.
- `onCleared` and `close` release the HTTP client: resource handling.
