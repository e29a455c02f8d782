/** End-to-end runs of the core on a fresh registry with fresh queues, each
    with the transport's answers fixed; each states the queues' and the
    registry's contents at the end. */
module Scenarios {

  import opened Transport
  import opened Subscription
  import opened Delivery
  import opened Connection
  import opened Endpoint
  import Decimal

  /** The exchange endpoint the client connects to. */
  const Uri: string := "wss://ws.bitstamp.net"

  /** A fresh registry with its own logger and message recorder. */
  method Setup() returns (logger: ProducersConsumer, recorder: ProducersConsumer, endpoint: WebSocketEndPoint)
    ensures fresh(logger) && fresh(recorder) && fresh(endpoint) && fresh(endpoint.client)
    ensures endpoint.Valid() && endpoint.handler.logger == logger && endpoint.handler.recorder == recorder
    ensures endpoint.nextId == 1 && endpoint.connections == map[]
    ensures logger.queue == [] && !logger.stop && logger.out == []
    ensures recorder.queue == [] && !recorder.stop && recorder.out == []
  {
    logger := new ProducersConsumer();
    recorder := new ProducersConsumer();
    var listener := new Listener(recorder, logger);
    endpoint := new WebSocketEndPoint(Uri, listener);
  }

  /** The first subscription gets id 1; once it opens, the log shows it
      opened and then the send's success. */
  method OpenThenSend() returns (id: int, logs: seq<string>)
    ensures id == 1
    ensures logs == ["[INFO] connection [1] opened", SendSucceededLog(1)]
  {
    var logger, recorder, endpoint := Setup();
    id := endpoint.Subscribe(SubscriptionDetails("live_trades_btcusd"), Ok(Handle(1)));
    var connection := endpoint.connections[id];
    connection.OnOpen(Success);
    logs := logger.queue;
    assert Decimal.IntToString(1) == "1";
    assert OpenedLog(1) == "[INFO] connection [1] opened";
  }

  /** The join request for the channel "live_trades_btcusd", spelled out. */
  lemma BtcUsdJoinRequest()
    ensures SubscriptionDetails("live_trades_btcusd").GenerateRequest()
      == "{  \"event\": \"bts:subscribe\",  \"data\": {  \"channel\": \"live_trades_btcusd\"  } }"
  {
  }

  /** Once the connection opens, the one request sent on it is the join
      request naming its channel. */
  method JoinRequestSent() returns (sent: Request)
    ensures sent == Send(Handle(1), "{  \"event\": \"bts:subscribe\",  \"data\": {  \"channel\": \"live_trades_btcusd\"  } }")
  {
    var logger, recorder, endpoint := Setup();
    var id := endpoint.Subscribe(SubscriptionDetails("live_trades_btcusd"), Ok(Handle(1)));
    var connection := endpoint.connections[id];
    assert connection.hdl == Handle(1) && connection.subscription == SubscriptionDetails("live_trades_btcusd");
    connection.OnOpen(Success);
    sent := endpoint.client.requests[|endpoint.client.requests| - 1];
    assert sent == Send(Handle(1), SubscriptionDetails("live_trades_btcusd").GenerateRequest());
    BtcUsdJoinRequest();
  }

  /** A refused connection: the result is negative, one error line is
      logged and nothing is registered. */
  method RefusedSubscribe() returns (id: int, logs: seq<string>, registered: nat)
    ensures id < 0
    ensures logs == ["[ERROR] Connect initialization error:refused"]
    ensures registered == 0
  {
    var logger, recorder, endpoint := Setup();
    id := endpoint.Subscribe(SubscriptionDetails("live_trades_btcusd"), Error("refused"));
    logs := logger.queue;
    assert logs == [InitErrorLog("refused")];
    assert InitErrorLog("refused") == "[ERROR] Connect initialization error:refused";
    var list := endpoint.GetConnections();
    registered := |list|;
  }

  /** Subscribe, open, receive one message, stop and drain the recorder:
      the record holds exactly that message. */
  method OneMessageRecorded() returns (record: seq<string>)
    ensures record == ["payload1"]
  {
    var logger, recorder, endpoint := Setup();
    var id := endpoint.Subscribe(SubscriptionDetails("live_trades_btcusd"), Ok(Handle(1)));
    var connection := endpoint.connections[id];
    connection.OnOpen(Success);
    connection.OnMessageReceived("payload1");
    recorder.Stop();
    var applied := recorder.Consume([]);
    record := recorder.out;
  }

  /** A producer that comes after the stop is too late: the consumer of an
      empty queue stops at the first pass and never writes its item. */
  method LateItemLost() returns (applied: nat, written: seq<string>)
    ensures applied == 1 && written == []
  {
    var queue := new ProducersConsumer();
    applied := queue.Consume([StopQueue, ProduceItem("x")]);
    assert [StopQueue, ProduceItem("x")][..1] == [StopQueue];
    written := queue.out;
  }

  /** A message that arrives before the connection opened is dropped. */
  method EarlyMessageDropped() returns (logs: seq<string>, messages: seq<string>)
    ensures logs == [] && messages == []
  {
    var logger, recorder, endpoint := Setup();
    var id := endpoint.Subscribe(SubscriptionDetails("live_trades_btcusd"), Ok(Handle(1)));
    var connection := endpoint.connections[id];
    connection.OnMessageReceived("payload1");
    logs, messages := logger.queue, recorder.queue;
  }

  /** The third subscription gets id 3; disconnecting it with a clean close
      succeeds and removes only it. */
  method DisconnectThird() returns (first: int, second: int, third: int, ok: bool, ids: set<int>)
    ensures first == 1 && second == 2 && third == 3
    ensures ok
    ensures ids == {1, 2}
  {
    var logger, recorder, endpoint := Setup();
    first := endpoint.Subscribe(SubscriptionDetails("a"), Ok(Handle(1)));
    second := endpoint.Subscribe(SubscriptionDetails("b"), Ok(Handle(2)));
    third := endpoint.Subscribe(SubscriptionDetails("c"), Ok(Handle(3)));
    ok := endpoint.Disconnect(third, Success);
    var list := endpoint.GetConnections();
    ids := list.Keys;
  }

  /** Disconnecting an id on an empty registry fails and logs one line. */
  method DisconnectUnknown() returns (ok: bool, logs: seq<string>)
    ensures !ok
    ensures logs == ["[ERROR] no connection found with id 99"]
  {
    var logger, recorder, endpoint := Setup();
    ok := endpoint.Disconnect(99, Success);
    logs := logger.queue;
    assert Decimal.IntToString(99) == "99" by {
      assert Decimal.NatToString(9) == "9";
    }
    assert logs == [UnknownIdLog(99)];
    assert UnknownIdLog(99) == "[ERROR] no connection found with id 99";
  }
}
