/** The connection registry (`WebSocketEndPoint`): allocates connection ids
    from a counter that starts at 1, keeps the connections in a map keyed by
    id, and subscribes, disconnects, lists and finally closes them. */
module Endpoint {

  import opened Wrappers
  import opened Transport
  import opened Decimal
  import opened Subscription
  import opened Delivery
  import opened Connection

  /** What the registry knows about one connection at a given moment. */
  datatype Entry = Entry(status: Status, hdl: Handle, subscription: SubscriptionDetails)

  function InitErrorLog(message: string): string {
    "[ERROR] Connect initialization error:" + message
  }

  function CloseErrorLog(id: int, message: string): string {
    "[ERROR] error occured while closing connection [" + IntToString(id) + "]: " + message
  }

  /** The transport calls one `Subscribe` makes when asking for a connection
      to `uri` and getting `connection`: the request for a connection, then,
      when it is granted, the three handler bindings and the connect. */
  function SubscribeRequests(uri: string, connection: Result<Handle>): seq<Request> {
    if connection.Error? then [GetConnection(uri)]
    else
      var hdl := connection.value;
      [GetConnection(uri), SetOpenHandler(hdl), SetFailHandler(hdl), SetMessageHandler(hdl), Connect(hdl)]
  }

  /** The log lines one `Subscribe` emits: one error line when refused. */
  function SubscribeLogs(connection: Result<Handle>): seq<string> {
    if connection.Error? then [InitErrorLog(connection.message)] else []
  }

  /** The literal the unknown-id log line is built from. */
  const NoConnectionText: string := "[ERROR] no connection found with id "

  /** The unknown-id log line as evidently intended: the literal followed by the id. */
  function UnknownIdLog(id: int): string {
    NoConnectionText + IntToString(id)
  }

  /** The intended line names the id: different ids give different lines. */
  lemma UnknownIdLogNamesId(a: int, b: int)
    ensures UnknownIdLog(a) == UnknownIdLog(b) ==> a == b
  {
    if UnknownIdLog(a) == UnknownIdLog(b) {
      assert UnknownIdLog(a)[|NoConnectionText|..] == IntToString(a);
      assert UnknownIdLog(b)[|NoConnectionText|..] == IntToString(b);
      IntToStringInjective(a, b);
    }
  }

  /** The unknown-id log line as written: the id is added to the literal's
      pointer, so the text is the literal with its first `id` characters cut
      off; `None` where the pointer leaves the literal (undefined behaviour). */
  function UnknownIdLogAsWritten(id: int): (text: Option<string>)
    ensures text.Some? <==> 0 <= id <= |NoConnectionText|
    ensures text.Some? ==> |text.value| == |NoConnectionText| - id
    ensures text.Some? ==> 0 <= id <= |NoConnectionText| && NoConnectionText[..id] + text.value == NoConnectionText
  {
    if 0 <= id <= |NoConnectionText| then Some(NoConnectionText[id..]) else None
  }

  /** Disconnecting the unknown id 8 logs a line that names no id, and the
      unknown id 99 has undefined behaviour, where the intended line names it. */
  lemma UnknownIdLogAsWrittenOmitsId()
    ensures UnknownIdLogAsWritten(8) == Some("no connection found with id ")
    ensures UnknownIdLogAsWritten(99) == None
    ensures UnknownIdLog(8) == "[ERROR] no connection found with id 8"
  {
  }

  lemma NonEmptyHasElement(s: set<int>)
    requires s != {}
    ensures exists x :: x in s
  {
    if forall x :: x !in s {
      NoElementMeansEmpty(s);
      assert false;
    }
  }

  lemma NoElementMeansEmpty(s: set<int>)
    requires forall x :: x !in s
    ensures s == {}
  {
    assert forall x :: x in s <==> x in {};
  }

  /** Every non-empty set of integers has a least element. */
  lemma {:induction false} MinExists(s: set<int>)
    requires s != {}
    ensures exists m :: m in s && forall k | k in s :: m <= k
    decreases |s|
  {
    NonEmptyHasElement(s);
    var x :| x in s;
    var rest := s - {x};
    if rest == {} {
      forall k | k in s ensures x <= k {
        assert k in rest || k == x;
      }
    } else {
      MinExists(rest);
      var m :| m in rest && forall k | k in rest :: m <= k;
      var least := if x < m then x else m;
      forall k | k in s ensures least <= k {
        if k != x { assert k in rest; }
      }
      assert least in s;
    }
  }

  /** The least element of a non-empty set. */
  function Min(s: set<int>): (m: int)
    requires s != {}
    ensures m in s && forall k | k in s :: m <= k
  {
    MinExists(s);
    var m :| m in s && forall k | k in s :: m <= k;
    m
  }

  predicate Increasing(keys: seq<int>) {
    forall i, j | 0 <= i < j < |keys| :: keys[i] < keys[j]
  }

  /** The keys of a map in the order `std::map` visits them: smallest first. */
  function SortedKeys(s: set<int>): (keys: seq<int>)
    ensures forall i | 0 <= i < |keys| :: keys[i] in s
    decreases |s|
  {
    if s == {} then []
    else
      var m := Min(s);
      assert |s - {m}| < |s|;
      [m] + SortedKeys(s - {m})
  }

  /** The visiting order is ascending and lists every key exactly once. */
  lemma {:induction false} SortedKeysSpec(s: set<int>)
    ensures Increasing(SortedKeys(s))
    ensures forall k | k in s :: k in SortedKeys(s)
    ensures |SortedKeys(s)| == |s|
    decreases |s|
  {
    if s != {} {
      var m := Min(s);
      assert |s - {m}| < |s|;
      SortedKeysSpec(s - {m});
      var keys := SortedKeys(s);
      var rest := SortedKeys(s - {m});
      assert keys == [m] + rest;
      forall j | 0 <= j < |rest| ensures m < rest[j] {
        assert rest[j] in s - {m};
      }
      forall i, j | 0 <= i < j < |keys| ensures keys[i] < keys[j] {
        assert keys[j] == rest[j - 1];
        if i > 0 { assert keys[i] == rest[i - 1]; }
      }
      forall k | k in s ensures k in keys {
        if k != m { assert k in s - {m}; }
      }
    }
  }

  /** The keys, in the given order, whose entry is open. */
  function OpenKeys(keys: seq<int>, view: map<int, Entry>): seq<int>
  {
    if keys == [] then []
    else
      var k := keys[|keys| - 1];
      var rest := OpenKeys(keys[..|keys| - 1], view);
      if k in view && view[k].status == Open then rest + [k] else rest
  }

  /** A key is kept exactly when it is among the given keys and its entry is open. */
  lemma {:induction false} OpenKeysMembers(keys: seq<int>, view: map<int, Entry>)
    ensures forall k :: k in OpenKeys(keys, view) <==> k in keys && k in view && view[k].status == Open
  {
    if keys != [] {
      var init := keys[..|keys| - 1];
      OpenKeysMembers(init, view);
      assert keys == init + [keys[|keys| - 1]];
    }
  }

  /** Filtering keeps the order: ascending keys stay ascending, so each open
      key is kept exactly once. */
  lemma {:induction false} OpenKeysIncreasing(keys: seq<int>, view: map<int, Entry>)
    requires Increasing(keys)
    ensures Increasing(OpenKeys(keys, view))
  {
    if keys != [] {
      var init := keys[..|keys| - 1];
      var k := keys[|keys| - 1];
      assert Increasing(init);
      OpenKeysIncreasing(init, view);
      OpenKeysMembers(init, view);
      var rest := OpenKeys(init, view);
      forall j | 0 <= j < |rest| ensures rest[j] < k {
        assert rest[j] in rest;
        var p :| 0 <= p < |init| && init[p] == rest[j];
      }
    }
  }

  /** The going-away close requests shutdown issues for the given keys, in
      order: one for each key whose entry is open. */
  function ShutdownCloses(keys: seq<int>, view: map<int, Entry>): seq<Request>
  {
    if keys == [] then []
    else
      var k := keys[|keys| - 1];
      var rest := ShutdownCloses(keys[..|keys| - 1], view);
      if k in view && view[k].status == Open then rest + [Close(view[k].hdl, GoingAway, "")] else rest
  }

  /** The i-th close request targets the handle of the i-th open key. */
  lemma {:induction false} ShutdownClosesTargetOpenKeys(keys: seq<int>, view: map<int, Entry>)
    ensures |ShutdownCloses(keys, view)| == |OpenKeys(keys, view)|
    ensures forall i | 0 <= i < |OpenKeys(keys, view)| ::
      OpenKeys(keys, view)[i] in view &&
      ShutdownCloses(keys, view)[i] == Close(view[OpenKeys(keys, view)[i]].hdl, GoingAway, "")
  {
    if keys != [] {
      ShutdownClosesTargetOpenKeys(keys[..|keys| - 1], view);
    }
  }

  lemma ShutdownClosesStep(keys: seq<int>, i: nat, view: map<int, Entry>)
    requires i < |keys|
    ensures ShutdownCloses(keys[..i + 1], view) ==
      ShutdownCloses(keys[..i], view) +
      (if keys[i] in view && view[keys[i]].status == Open then [Close(view[keys[i]].hdl, GoingAway, "")] else [])
  {
    assert keys[..i + 1][..i] == keys[..i];
  }

  class WebSocketEndPoint {
    /** The id the next successful subscription gets (m_next_id). */
    var nextId: int
    /** The registered connections (m_connection_list), keyed by id. */
    var connections: map<int, ConnectionMetaData>
    const handler: Listener
    const client: Client
    const uri: string

    /** Every key is a positive id already handed out, and names the
        connection it keys; all connections share this client and listener. */
    ghost predicate Valid()
      reads this
    {
      1 <= nextId && handler.Valid() &&
      forall k | k in connections ::
        1 <= k < nextId && connections[k].id == k &&
        connections[k].endpoint == client && connections[k].handler == handler
    }

    /** The registry's current contents, as values. */
    function View(): (view: map<int, Entry>)
      reads this, connections.Values
      ensures view.Keys == connections.Keys
    {
      map k | k in connections :: Entry(connections[k].status, connections[k].hdl, connections[k].subscription)
    }

    /** An empty registry whose first id is 1, with its transport started. */
    constructor (uri: string, handler: Listener)
      requires handler.Valid()
      ensures Valid() && fresh(client)
      ensures nextId == 1 && connections == map[]
      ensures this.uri == uri && this.handler == handler
      ensures client.requests == [StartPerpetual]
    {
      var transport := new Client();
      transport.Record(StartPerpetual);
      this.uri := uri;
      this.handler := handler;
      client := transport;
      nextId := 1;
      connections := map[];
    }

    /** Asks the transport for a new connection (`connection` is what it
        answers). On error: logs one line, returns -1 and leaves the registry
        as it was. On success: returns the current counter value, which is a
        fresh key, advances the counter by exactly 1, registers exactly that
        key with a new "openning" connection, binds its open, fail and message
        callbacks and starts connecting. */
    method Subscribe(subscription: SubscriptionDetails, connection: Result<Handle>) returns (newId: int)
      requires Valid()
      modifies this, client, handler.logger
      ensures Valid()
      ensures unchanged(handler.recorder)
      ensures handler.logger.stop == old(handler.logger.stop) && handler.logger.out == old(handler.logger.out)
      ensures client.requests == old(client.requests) + SubscribeRequests(uri, connection)
      ensures handler.logger.queue == old(handler.logger.queue) + SubscribeLogs(connection)
      ensures connection.Error? ==>
        newId == -1 && nextId == old(nextId) && connections == old(connections)
      ensures connection.Ok? ==>
        newId == old(nextId) && nextId == old(nextId) + 1 &&
        newId !in old(connections) && newId in connections && fresh(connections[newId]) &&
        connections == old(connections)[newId := connections[newId]] &&
        connections[newId].status == Openning && connections[newId].hdl == connection.value &&
        connections[newId].subscription == subscription
    {
      ghost var before := client.requests;
      client.Record(GetConnection(uri));
      if connection.Error? {
        handler.HandleLogs(InitErrorLog(connection.message));
        return -1;
      }
      var hdl := connection.value;
      newId := nextId;
      nextId := nextId + 1;
      var details := new ConnectionMetaData(newId, client, hdl, subscription, handler);
      connections := connections[newId := details];
      client.Record(SetOpenHandler(hdl));
      client.Record(SetFailHandler(hdl));
      client.Record(SetMessageHandler(hdl));
      client.Record(Connect(hdl));
      assert client.requests == before + SubscribeRequests(uri, connection);
    }

    /** Unknown id: logs one line, returns false, changes nothing else.
        Known id: suspends the connection and asks the transport to close it
        (`closeResult` is what it answers); on a close error logs one line,
        returns false and keeps the entry, now suspended; otherwise removes
        exactly that entry and returns true. */
    method Disconnect(id: int, closeResult: ErrorCode) returns (ok: bool)
      requires Valid()
      modifies this, client, handler.logger, connections.Values
      ensures Valid()
      ensures nextId == old(nextId)
      ensures unchanged(handler.recorder)
      ensures handler.logger.stop == old(handler.logger.stop) && handler.logger.out == old(handler.logger.out)
      ensures ok <==> id in old(connections) && closeResult.Success?
      ensures (id < 1 || old(nextId) <= id) ==> !ok && connections == old(connections)
      ensures id !in old(connections) ==>
        connections == old(connections) &&
        (forall k | k in connections :: connections[k].status == old(connections[k].status)) &&
        client.requests == old(client.requests) &&
        handler.logger.queue == old(handler.logger.queue) + [UnknownIdLog(id)]
      ensures id in old(connections) ==>
        old(connections[id]).status == Suspended &&
        client.requests == old(client.requests) + [Close(old(connections[id]).hdl, CloseNormal, "")]
      ensures id in old(connections) && closeResult.Failure? ==>
        connections == old(connections) &&
        (forall k | k in connections && k != id :: connections[k].status == old(connections[k].status)) &&
        handler.logger.queue == old(handler.logger.queue) + [CloseErrorLog(id, closeResult.message)]
      ensures id in old(connections) && closeResult.Success? ==>
        connections == old(connections) - {id} &&
        (forall k | k in connections :: connections[k].status == old(connections[k].status)) &&
        handler.logger.queue == old(handler.logger.queue)
    {
      if id !in connections {
        handler.HandleLogs(UnknownIdLog(id));
        return false;
      }
      var details := connections[id];
      assert forall k | k in connections && k != id :: connections[k] != details;
      details.Suspend();
      client.Record(Close(details.hdl, CloseNormal, ""));
      if closeResult.Failure? {
        handler.HandleLogs(CloseErrorLog(id, closeResult.message));
        return false;
      }
      connections := connections - {id};
      ok := true;
    }

    /** A copy of the registered connections, each under its own id. */
    method GetConnections() returns (list: map<int, ConnectionMetaData>)
      requires Valid()
      ensures list == connections
      ensures forall k | k in list :: list[k].id == k
    {
      list := connections;
    }

    /** Shutdown: stops the transport's perpetual mode, then asks it to close
        (going away) exactly the open connections, in ascending id order;
        connections in any other status are left alone. */
    method Destroy()
      requires Valid()
      modifies client
      ensures client.requests == old(client.requests) + [StopPerpetual] +
        ShutdownCloses(SortedKeys(connections.Keys), old(View()))
    {
      ghost var view := View();
      client.Record(StopPerpetual);
      var keys := SortedKeys(connections.Keys);
      var i := 0;
      while i < |keys|
        invariant 0 <= i <= |keys|
        invariant client.requests == old(client.requests) + [StopPerpetual] + ShutdownCloses(keys[..i], view)
      {
        var k := keys[i];
        var details := connections[k];
        ShutdownClosesStep(keys, i, view);
        if details.status == Open {
          client.Record(Close(details.hdl, GoingAway, ""));
        }
        i := i + 1;
      }
      assert keys[..i] == keys;
    }
  }
}
