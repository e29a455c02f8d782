# WebSocket subscription client: a model in Dafny

The client keeps a registry of streaming connections to one exchange
endpoint. Each connection subscribes to one market-data channel. Once open,
it sends a JSON join request and forwards every message it receives to a
message recorder. Opening, failing, closing, each message received, and the
errors of subscribing and disconnecting are reported to a logger; a
suspension and a message that arrives before the open are not. The
recorder and the logger are each a producer/consumer queue that a separate
consumer drains into an output stream. Channels can be subscribed one by one
or in bulk, from a file with one channel per line.

The model covers:

- **Registry** (`Endpoint.WebSocketEndPoint`): ids come from a counter that
  starts at 1. Connections are kept in a map keyed by id. The registry
  subscribes, disconnects and lists connections, and on shutdown closes the
  open ones in ascending id order.
- **Connection state machine** (`Connection.ConnectionMetaData`): the
  statuses "openning", "open", "failed", "closed" and "suspended" (spelled as
  in the code), the open, fail, close and message callbacks, and the log
  lines each one emits.
- **Subscription value** (`Subscription.SubscriptionDetails`): the join
  request it generates and the channel it names. The request is
  `{  "event": "bts:subscribe",  "data": {  "channel": "…"  } }`, with two
  spaces after each opening brace and each comma, as the code emits it.
- **Delivery pipeline** (`Delivery.ProducersConsumer`, `Delivery.Listener`):
  the FIFO queue, its stop flag and its consumer loop, and the listener that
  routes messages to the recorder and logs to the logger.
- **Bulk loading** (`Bulk.LoadBulk`): trims every line, skips the blank
  ones, and subscribes once per remaining line.
- **Helpers** used by the above: decimal rendering as `std::to_string` does
  it (`Decimal`), and whitespace trimming as `boost::trim` does it (`Text`).

The transport library (websocketpp) is an oracle:

- The calls that `Subscribe`, `Disconnect`, `OnOpen` and `Destroy` make into
  it, except `get_handle`, are appended to `Transport.Client.requests`, and so
  is the constructor's start of perpetual mode. The constructor's other
  set-up calls are not recorded (see "## Left out").
- Everything it would answer is a parameter of the operation that asks: the
  `get_connection` result, the error code of a `send` or a `close`.
- What the other threads do while a consumer loop runs is a parameter too: a
  schedule of produce and stop actions.

Queues, logs and the recorded requests are all sequences that the methods
extend, and each method's contract states exactly what it appends to each
of them.

## Model

| member | source | states |
|---|---|---|
| Decimal.NatToString | src/websocketwrapper.cpp:12 | the rendering of a natural is a non-empty string of decimal digits with no leading zero |
| Decimal.IntToString | src/websocketwrapper.cpp:176 | the rendering of an int is non-empty and starts with '-' exactly when the value is negative |
| Decimal.NatToStringRoundTrip | src/websocketwrapper.cpp:12 | reading the rendered digits back gives the number (round trip) |
| Decimal.NatToStringInjective | src/websocketwrapper.cpp:12 | two naturals with the same rendering are equal |
| Decimal.IntToStringInjective | src/websocketwrapper.cpp:176 | different ids give different texts in the log lines |
| Text.TrimLeftSpec | src/source.cpp:132 | what TrimLeft keeps is a suffix, what it drops is all whitespace, and the kept part does not start with whitespace |
| Text.TrimRightSpec | src/source.cpp:132 | what TrimRight keeps is a prefix, what it drops is all whitespace, and the kept part does not end with whitespace |
| Text.TrimSpec | src/source.cpp:132-133 | a trimmed line is the infix after the leading whitespace; it neither starts nor ends with whitespace; everything dropped is whitespace; it is empty exactly when the line is all whitespace |
| Subscription.ChannelOfRequest | src/source.cpp:115 | a channel read back from a request, put between the fixed prefix and suffix, gives the request again |
| Subscription.SubscriptionDetails.GenerateRequest | src/source.cpp:112-117 | the join request is the fixed prefix, the channel verbatim, then the fixed suffix; reading it back yields exactly the channel |
| Subscription.SubscriptionDetails.GetChannel | src/source.cpp:118-121 | the channel returned is the one the subscription's join request names |
| Subscription.GenerateRequestInjective | src/source.cpp:112-117 | two subscriptions send the same join request only if they name the same channel |
| Delivery.ProducedItems | src/source.cpp:63-69 | an item is among those a run of producer actions produces exactly when one of the actions produces it |
| Delivery.ProducersConsumer.constructor | src/source.cpp:55-58 | a new queue is empty and not stopped, and nothing has been written yet |
| Delivery.ProducersConsumer.Produce | src/source.cpp:63-69 | the item is appended at the back of the queue; the stop flag and the output are unchanged |
| Delivery.ProducersConsumer.Stop | src/source.cpp:70-73 | sets the stop flag; the queue and the output are unchanged |
| Delivery.ProducersConsumer.DrainOnce | src/source.cpp:32-50 | one pass of the loop body writes every queued item, front first, and leaves the queue empty |
| Delivery.ProducersConsumer.Pass | src/source.cpp:30-50 | after another thread's action, one pass writes the old queue and then the produced item; a stop action sets the flag |
| Delivery.ProducersConsumer.Consume | src/source.cpp:27-52 | the loop ends only once stopped with an empty queue, and at the first pass that finds both: started unstopped, the last action it applies is the schedule's first stop; started stopped, it applies at most one action, and none on an empty queue; the output is the old output, then the old queue, then every item produced by the applied actions, in order |
| Delivery.Listener.constructor | src/source.cpp:85-88 | the listener keeps the two given queues as its recorder and its logger |
| Delivery.Listener.HandleNewMessage | src/source.cpp:89-92 | a message is appended to the recorder queue only, and the logger is untouched |
| Delivery.Listener.HandleLogs | src/source.cpp:93-96 | a log line is appended to the logger queue only, and the recorder is untouched |
| Delivery.Listener.Stop | src/source.cpp:97-101 | both queues are stopped, and their contents and outputs are unchanged |
| Connection.ParseStatus | src/websocketwrapper.cpp:64-67 | it is the inverse of the status names: a string parses to a status exactly when it is that status's name |
| Connection.SendReportsDistinct | src/websocketwrapper.cpp:16-23 | the success line and the failure line of a send can never be the same text |
| Connection.ConnectionMetaData.constructor | src/websocketwrapper.cpp:5-8 | a new connection is "openning" and keeps its id, client, handle, subscription and listener |
| Connection.ConnectionMetaData.OnOpen | src/websocketwrapper.cpp:10-24 | logs "opened", becomes open, sends the join request exactly once, then logs exactly one line for the send's outcome; it stays open even when the send fails |
| Connection.ConnectionMetaData.OnFail | src/websocketwrapper.cpp:26-31 | becomes failed and logs exactly one line |
| Connection.ConnectionMetaData.OnClose | src/websocketwrapper.cpp:33-37 | becomes closed and logs exactly one line |
| Connection.ConnectionMetaData.OnMessageReceived | src/websocketwrapper.cpp:39-47 | an open connection logs one line, then forwards the payload once to the recorder; in any other status neither queue changes |
| Connection.ConnectionMetaData.Suspend | src/websocketwrapper.cpp:49-52 | becomes suspended |
| Connection.ConnectionMetaData.GetStatus | src/websocketwrapper.cpp:64-67 | the returned string is the name of the current status |
| Endpoint.UnknownIdLogAsWritten | src/websocketwrapper.cpp:169 | as written, the log text is defined only for ids 0 to 36; there it is what remains of the literal once its first id characters are cut off |
| Endpoint.UnknownIdLogAsWrittenOmitsId | src/websocketwrapper.cpp:169 | for id 8 the line as written names no id; for id 99 it is undefined; the intended line for 8 ends in "8" |
| Endpoint.UnknownIdLogNamesId | src/websocketwrapper.cpp:169 | the corrected unknown-id line names the id: different ids give different lines |
| Endpoint.SortedKeys | src/websocketwrapper.cpp:85 | the visiting order lists only registered ids |
| Endpoint.SortedKeysSpec | src/websocketwrapper.cpp:85 | the visiting order, as std::map iterates, is strictly ascending and lists every id exactly once |
| Endpoint.OpenKeysMembers | src/websocketwrapper.cpp:85-91 | a key survives the filter exactly when it is registered and its connection's status is open |
| Endpoint.OpenKeysIncreasing | src/websocketwrapper.cpp:85-91 | filtering keeps the ascending order |
| Endpoint.ShutdownClosesTargetOpenKeys | src/websocketwrapper.cpp:84-102 | shutdown issues one going-away close per open connection, the i-th aimed at the handle of the i-th open id |
| Endpoint.WebSocketEndPoint.constructor | src/websocketwrapper.cpp:69-80 | the registry starts empty with next id 1, and the transport is put in perpetual mode |
| Endpoint.WebSocketEndPoint.Subscribe | src/websocketwrapper.cpp:126-161 | on a connection error: logs one line, returns -1 and changes no registry state. On success: returns the old counter, which was not a key; advances the counter by 1; registers exactly that key, with a new "openning" connection for the handle and subscription; binds its open, fail and message callbacks, then connects. The registry invariant is kept |
| Endpoint.WebSocketEndPoint.Disconnect | src/websocketwrapper.cpp:163-181 | returns true exactly when the id is registered and the close succeeds. An unknown id logs one line and changes nothing else. A known id is suspended and closed with code 1000; a close error logs one line and keeps the entry; a successful close removes exactly that entry. No other connection's status changes |
| Endpoint.WebSocketEndPoint.GetConnections | src/websocketwrapper.cpp:183-186 | returns the registry itself, each connection under its own id |
| Endpoint.WebSocketEndPoint.Destroy | src/websocketwrapper.cpp:82-105 | stops perpetual mode, then requests going-away closes for exactly the open connections, in ascending id order |
| Bulk.BulkChannelsLines | src/source.cpp:129-139 | every channel of a file is the non-empty trimmed text of one of its lines, and every line that is not blank once trimmed gives its trimmed text as a channel |
| Bulk.Plan | src/source.cpp:124-148 | there is one report per line read |
| Bulk.PlanLines | src/source.cpp:129-137 | a line is skipped, under its own 1-based number, exactly when it is blank once trimmed; every other line is reported with its trimmed text |
| Bulk.PlanAttempted | src/source.cpp:139 | the channels passed to Subscribe are exactly the file's non-blank trimmed lines, in file order |
| Bulk.PlanIds | src/source.cpp:138-146 | the ids of successful subscriptions start at the counter's value and strictly increase along the file |
| Bulk.SubscribeAsksOnce | src/websocketwrapper.cpp:126-161 | one subscription asks the transport for exactly one connection, whether or not it is granted |
| Bulk.BulkRequestsOnePerChannel | src/source.cpp:129-139 | loading a file asks the transport for exactly one connection per channel of the file, so a blank line causes no subscription and every other line exactly one |
| Bulk.BulkLogsOnePerRefusal | src/source.cpp:139-144 | loading a file logs exactly one line per refused subscription |
| Bulk.BulkLogsAreInitErrors | src/websocketwrapper.cpp:130-136 | every line loading a file logs is a connect initialization error carrying a message the transport reported |
| Bulk.SubscribeLine | src/source.cpp:139-146 | exactly one subscription: on a refusal the report is a failure, the registry and counter stay, one error line is logged; otherwise the report carries the old counter, which becomes the only new key, with a new "openning" connection for the handle and the channel; the transport calls are one subscription's |
| Bulk.LineStep | src/source.cpp:129-147 | the reports, transport calls and log lines of the lines from one onwards are that line's outcome, requests and logs, followed by those of the lines after it |
| Bulk.RegisteredSnoc | src/source.cpp:138-146 | the registrations of earlier lines survive a step that keeps every registry entry and does not lower the counter, and a new success is added once its entry is there |
| Bulk.LoadLine | src/source.cpp:129-147 | a blank line is skipped and changes neither the registry, the transport nor the logger; any other line is subscribed once with its trimmed text; the report, the transport calls and the log lines are that line's outcome, requests and logs; a granted line becomes, under the old counter, a new "openning" connection on the handle the transport granted to that try; the registry gains at most that id, every other entry stays as it was, and the earlier lines' registrations stay in place |
| Bulk.LoadNext | src/source.cpp:129-147 | loading one more line keeps the loaded state: the reports so far, followed by the remaining lines' reports, transport calls and log lines, still give those of the whole file, and every success so far stays registered |
| Bulk.LoadBulk | src/source.cpp:124-148 | the reports are Plan's for the file, with lines numbered from 1 and ids from the counter; the transport gets exactly BulkRequests and the logger exactly BulkLogs; the counter advances once per successful line; the registry gains exactly the reported ids and every earlier entry stays as it was; each successful line is registered under its id as a new "openning" connection for its channel, on the handle the transport granted to that subscription |
| Scenarios.Setup | src/source.cpp:178-182 | a fresh registry with next id 1 and no connections, whose listener routes to two fresh, empty, unstopped queues |
| Scenarios.OpenThenSend | src/websocketwrapper.cpp:10-24 | the first subscription gets id 1; when it opens, the log holds "[INFO] connection [1] opened" and then the send-success line |
| Scenarios.JoinRequestSent | src/source.cpp:112-117 | when the first connection opens, it sends the exact join request naming "live_trades_btcusd" |
| Scenarios.RefusedSubscribe | src/websocketwrapper.cpp:130-136 | a refused connection returns a negative id, logs exactly "[ERROR] Connect initialization error:refused" and registers nothing |
| Scenarios.OneMessageRecorded | src/websocketwrapper.cpp:39-47 | subscribe, open, one message, then stop and drain: the record holds exactly that message |
| Scenarios.LateItemLost | src/source.cpp:30-50 | on an empty, unstopped queue, a stop followed by a produced item ends the consumer after one pass, and the late item is never written |
| Scenarios.EarlyMessageDropped | src/websocketwrapper.cpp:41-44 | a message that arrives before the open callback is dropped: neither queue changes |
| Scenarios.DisconnectThird | src/websocketwrapper.cpp:126-181 | three subscriptions get ids 1, 2 and 3; disconnecting 3 with a clean close succeeds and leaves ids 1 and 2 |
| Scenarios.DisconnectUnknown | src/websocketwrapper.cpp:166-171 | disconnecting 99 on an empty registry fails and logs exactly the corrected unknown-id line for 99 |

## Left out

- Threads, the mutex and `join`: the model is sequential. Each consumer loop
  gets the other threads' actions as a schedule. The data race between the
  unlocked pop in the inner drain loop and a concurrent `Produce` is not
  modelled.
- Delivery.ProducersConsumer.Consume: other threads' actions take effect
  only between passes of the outer loop, never inside the inner drain loop.
  The run also needs a stop in the schedule, because the real busy-wait
  never ends without one.
- The transport library's set-up in the constructor: `clear_access_channels`,
  `clear_error_channels`, `init_asio`, `set_tls_init_handler` (with
  `on_tls_init`) and the thread that runs the asio event loop. They have no
  effect the core can observe, and none is recorded as a request; the
  constructor records only the start of perpetual mode.
- The destructor's console lines ("> Closing connection …" and the close
  error line) and its `join`. Close errors on shutdown are ignored by the
  code, so the model takes no close outcome for them.
- `main`: the interactive command loop, argument checking, opening the
  record and log files, and the console output of the `subscribe`,
  `disconnect` and `active` commands.
- Bulk.LoadBulk: takes the file as its sequence of lines instead of reading
  it with `getline`. Its console output is modelled as the `LineReport`
  values warning, error and info, not as text.
- Endpoint.WebSocketEndPoint.Subscribe: `m_next_id` is an unbounded
  integer. The `int` counter's signed overflow after 2^31 - 1
  subscriptions is undefined behaviour in C++ and is not modelled. The
  result of `connect` is ignored, as in the code.
- `con->get_handle()` in `Subscribe` is not recorded as a request: it only
  reads the handle of the connection just obtained, which the model takes
  from the `get_connection` result.
- The `client*` and handle parameters of the callbacks are omitted, because
  the code never reads them. `OnClose` is modelled, but `Subscribe` binds no
  close handler, so nothing calls it, as in the code.
- `GetSubscribtion` and `GetHandle` return a field unchanged. They are the
  immutable fields `subscription` and `hdl` of the connection.
- Endpoint.WebSocketEndPoint.Disconnect: for an unknown id it logs the
  corrected line `UnknownIdLog(id)`, the literal followed by the id. The
  code as written logs what `UnknownIdLogAsWritten` gives: the literal from
  offset `id` for ids 0 to 36, and undefined behaviour beyond (see
  Findings).
- Scenarios.DisconnectUnknown: states the corrected line for id 99 for the
  same reason; as written, that call reads past the literal.
- Trimming follows the "C" locale's notion of whitespace. Other locales are
  not modelled.

## Findings

| source | as written | input that shows it | evidently intended | confidence | as-written member | corrected member |
|---|---|---|---|---|---|---|
| src/websocketwrapper.cpp:169 | `"[ERROR] no connection found with id " + id` adds the int to the literal's pointer, so the line loses its first `id` characters and names no id; for an id past the literal's end it is undefined behaviour | `Disconnect(8)` with no connection 8 logs "no connection found with id "; `Disconnect(99)` reads past the literal | the literal followed by `std::to_string(id)`, as on line 176 | not executed | Endpoint.UnknownIdLogAsWritten, Endpoint.UnknownIdLogAsWrittenOmitsId | Endpoint.UnknownIdLog, Endpoint.UnknownIdLogNamesId |
