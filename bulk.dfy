/** Bulk subscription (`LoadBulk`): one channel name per line; lines that are
    empty once trimmed are skipped with a warning, every other line is
    subscribed once, with its trimmed text, in file order. */
module Bulk {

  import opened Text
  import opened Transport
  import opened Subscription
  import opened Endpoint
  import Connection

  /** What `LoadBulk` writes to the console for one line. */
  datatype LineReport =
    | Skipped(line: int)                   // "[WARNING] cannot read data at line [line], line skipped!"
    | SubscribeFailed(channel: string)     // "[Error] cannot subscribe to channel channel ..."
    | Subscribing(id: int, channel: string) // "[INFO] reader with id : [id] is subscribing channel: channel"

  /** The channels a file's lines name, in order: each non-blank line, trimmed. */
  function BulkChannels(lines: seq<string>): seq<string>
  {
    if lines == [] then []
    else
      var channel := Trim(lines[0]);
      (if channel == [] then [] else [channel]) + BulkChannels(lines[1..])
  }

  /** Every channel is the non-empty trimmed text of some line, and every
      line that is not blank once trimmed contributes its trimmed text. */
  lemma {:induction false} BulkChannelsLines(lines: seq<string>)
    ensures forall c | c in BulkChannels(lines) :: c != [] && exists i | 0 <= i < |lines| :: c == Trim(lines[i])
    ensures forall i | 0 <= i < |lines| && Trim(lines[i]) != [] :: Trim(lines[i]) in BulkChannels(lines)
  {
    if lines != [] {
      var rest := lines[1..];
      BulkChannelsLines(rest);
      var head := if Trim(lines[0]) == [] then [] else [Trim(lines[0])];
      assert BulkChannels(lines) == head + BulkChannels(rest);
      forall c | c in BulkChannels(lines)
        ensures c != [] && exists i | 0 <= i < |lines| :: c == Trim(lines[i])
      {
        if c !in head {
          var j :| 0 <= j < |rest| && c == Trim(rest[j]);
          assert rest[j] == lines[j + 1];
        }
      }
      forall i | 0 <= i < |lines| && Trim(lines[i]) != []
        ensures Trim(lines[i]) in BulkChannels(lines)
      {
        if i > 0 {
          assert lines[i] == rest[i - 1];
        }
      }
    }
  }

  /** The channels a run of reports passed to `Subscribe`, in order. */
  function Attempted(reports: seq<LineReport>): seq<string>
  {
    if reports == [] then []
    else (if reports[0].Skipped? then [] else [reports[0].channel]) + Attempted(reports[1..])
  }

  /** What `LoadBulk` reports for `lines`, numbered from `lineNo`, when
      `attempt` subscriptions were already tried, the endpoint's next id is
      `nextId` and `connect(n)` is the transport's answer to the n-th try. */
  function Plan(lines: seq<string>, lineNo: int, attempt: nat, nextId: int,
                connect: nat -> Result<Handle>): (reports: seq<LineReport>)
    ensures |reports| == |lines|
  {
    if lines == [] then []
    else
      var channel := Trim(lines[0]);
      if channel == [] then
        [Skipped(lineNo)] + Plan(lines[1..], lineNo + 1, attempt, nextId, connect)
      else if connect(attempt).Error? then
        [SubscribeFailed(channel)] + Plan(lines[1..], lineNo + 1, attempt + 1, nextId, connect)
      else
        [Subscribing(nextId, channel)] + Plan(lines[1..], lineNo + 1, attempt + 1, nextId + 1, connect)
  }

  /** Line by line: a line is skipped, under its own number, exactly when it
      is blank once trimmed; every other line names its trimmed text. */
  lemma {:induction false} PlanLines(lines: seq<string>, lineNo: int, attempt: nat, nextId: int,
                                     connect: nat -> Result<Handle>)
    ensures forall i | 0 <= i < |lines| ::
      var r := Plan(lines, lineNo, attempt, nextId, connect)[i];
      (r.Skipped? <==> Trim(lines[i]) == []) &&
      (r.Skipped? ==> r.line == lineNo + i) &&
      (!r.Skipped? ==> r.channel == Trim(lines[i]))
  {
    if lines != [] {
      var reports := Plan(lines, lineNo, attempt, nextId, connect);
      var channel := Trim(lines[0]);
      var next := if channel != [] && connect(attempt).Ok? then nextId + 1 else nextId;
      var nextAttempt: nat := if channel == [] then attempt else attempt + 1;
      var rest := Plan(lines[1..], lineNo + 1, nextAttempt, next, connect);
      PlanLines(lines[1..], lineNo + 1, nextAttempt, next, connect);
      assert reports == [reports[0]] + rest;
      forall i | 1 <= i < |lines|
        ensures (reports[i].Skipped? <==> Trim(lines[i]) == []) &&
          (reports[i].Skipped? ==> reports[i].line == lineNo + i) &&
          (!reports[i].Skipped? ==> reports[i].channel == Trim(lines[i]))
      {
        assert reports[i] == rest[i - 1];
        assert lines[i] == lines[1..][i - 1];
      }
    }
  }

  /** Every subscription tried is one of the file's channels, in file order. */
  lemma {:induction false} PlanAttempted(lines: seq<string>, lineNo: int, attempt: nat, nextId: int,
                                         connect: nat -> Result<Handle>)
    ensures Attempted(Plan(lines, lineNo, attempt, nextId, connect)) == BulkChannels(lines)
  {
    if lines != [] {
      var channel := Trim(lines[0]);
      var reports := Plan(lines, lineNo, attempt, nextId, connect);
      if channel == [] {
        PlanAttempted(lines[1..], lineNo + 1, attempt, nextId, connect);
        assert reports[1..] == Plan(lines[1..], lineNo + 1, attempt, nextId, connect);
      } else if connect(attempt).Error? {
        PlanAttempted(lines[1..], lineNo + 1, attempt + 1, nextId, connect);
        assert reports[1..] == Plan(lines[1..], lineNo + 1, attempt + 1, nextId, connect);
      } else {
        PlanAttempted(lines[1..], lineNo + 1, attempt + 1, nextId + 1, connect);
        assert reports[1..] == Plan(lines[1..], lineNo + 1, attempt + 1, nextId + 1, connect);
      }
    }
  }

  /** Successful subscriptions get the ids `nextId`, `nextId + 1`, ... in
      line order, so ids are strictly increasing and never reused. */
  lemma {:induction false} PlanIds(lines: seq<string>, lineNo: int, attempt: nat, nextId: int,
                                   connect: nat -> Result<Handle>)
    ensures forall i | 0 <= i < |lines| && Plan(lines, lineNo, attempt, nextId, connect)[i].Subscribing? ::
      nextId <= Plan(lines, lineNo, attempt, nextId, connect)[i].id
    ensures forall i, j | 0 <= i < j < |lines| &&
        Plan(lines, lineNo, attempt, nextId, connect)[i].Subscribing? &&
        Plan(lines, lineNo, attempt, nextId, connect)[j].Subscribing? ::
      Plan(lines, lineNo, attempt, nextId, connect)[i].id < Plan(lines, lineNo, attempt, nextId, connect)[j].id
  {
    if lines != [] {
      var reports := Plan(lines, lineNo, attempt, nextId, connect);
      var channel := Trim(lines[0]);
      var next := if channel != [] && connect(attempt).Ok? then nextId + 1 else nextId;
      var nextAttempt: nat := if channel == [] then attempt else attempt + 1;
      var rest := Plan(lines[1..], lineNo + 1, nextAttempt, next, connect);
      PlanIds(lines[1..], lineNo + 1, nextAttempt, next, connect);
      assert reports == [reports[0]] + rest;
      assert reports[0].Subscribing? ==> reports[0].id == nextId && next == nextId + 1;
      forall i | 1 <= i < |lines| && reports[i].Subscribing?
        ensures next <= reports[i].id
      {
        assert reports[i] == rest[i - 1];
      }
    }
  }

  /** What `LoadBulk` reports for one line, numbered `lineNo`, when
      `attempt` subscriptions were already tried and the next id is `nextId`. */
  function LineOutcome(line: string, lineNo: int, attempt: nat, nextId: int,
                       connect: nat -> Result<Handle>): LineReport
  {
    if Trim(line) == [] then Skipped(lineNo)
    else if connect(attempt).Error? then SubscribeFailed(Trim(line))
    else Subscribing(nextId, Trim(line))
  }

  /** The transport calls `LoadBulk` makes for one line: one `Subscribe`'s
      unless the line is blank once trimmed. */
  function LineRequests(uri: string, line: string, attempt: nat, connect: nat -> Result<Handle>): seq<Request>
  {
    if Trim(line) == [] then [] else SubscribeRequests(uri, connect(attempt))
  }

  /** The log lines `LoadBulk` emits for one line. */
  function LineLogs(line: string, attempt: nat, connect: nat -> Result<Handle>): seq<string>
  {
    if Trim(line) == [] then [] else SubscribeLogs(connect(attempt))
  }

  /** The transport calls `LoadBulk` makes for `lines`, `connect(n)` being
      the answer to the n-th subscription and `attempt` the number already
      tried: one `Subscribe`'s calls per line that is not blank once trimmed. */
  function BulkRequests(uri: string, lines: seq<string>, attempt: nat,
                        connect: nat -> Result<Handle>): seq<Request>
  {
    if lines == [] then []
    else if Trim(lines[0]) == [] then BulkRequests(uri, lines[1..], attempt, connect)
    else SubscribeRequests(uri, connect(attempt)) + BulkRequests(uri, lines[1..], attempt + 1, connect)
  }

  /** The log lines `LoadBulk` emits for `lines`: one `Subscribe`'s lines per
      line that is not blank once trimmed. */
  function BulkLogs(lines: seq<string>, attempt: nat, connect: nat -> Result<Handle>): seq<string>
  {
    if lines == [] then []
    else if Trim(lines[0]) == [] then BulkLogs(lines[1..], attempt, connect)
    else SubscribeLogs(connect(attempt)) + BulkLogs(lines[1..], attempt + 1, connect)
  }

  /** The number of requests for a new connection among `requests`. */
  function ConnectionsAsked(requests: seq<Request>): nat
  {
    if requests == [] then 0
    else (if requests[0].GetConnection? then 1 else 0) + ConnectionsAsked(requests[1..])
  }

  lemma {:induction false} ConnectionsAskedAppend(a: seq<Request>, b: seq<Request>)
    ensures ConnectionsAsked(a + b) == ConnectionsAsked(a) + ConnectionsAsked(b)
  {
    if a == [] {
      assert a + b == b;
    } else {
      ConnectionsAskedAppend(a[1..], b);
      assert (a + b)[0] == a[0];
      assert (a + b)[1..] == a[1..] + b;
    }
  }

  /** One `Subscribe` asks for exactly one connection. */
  lemma SubscribeAsksOnce(uri: string, connection: Result<Handle>)
    ensures ConnectionsAsked(SubscribeRequests(uri, connection)) == 1
  {
    var requests := SubscribeRequests(uri, connection);
    if connection.Ok? {
      var hdl := connection.value;
      assert requests[1..] == [SetOpenHandler(hdl), SetFailHandler(hdl), SetMessageHandler(hdl), Connect(hdl)];
      assert ConnectionsAsked([Connect(hdl)]) == 0 by {
        assert [Connect(hdl)][1..] == [];
      }
      assert ConnectionsAsked([SetMessageHandler(hdl), Connect(hdl)]) == 0 by {
        assert [SetMessageHandler(hdl), Connect(hdl)][1..] == [Connect(hdl)];
      }
      assert ConnectionsAsked([SetFailHandler(hdl), SetMessageHandler(hdl), Connect(hdl)]) == 0 by {
        assert [SetFailHandler(hdl), SetMessageHandler(hdl), Connect(hdl)][1..] == [SetMessageHandler(hdl), Connect(hdl)];
      }
      assert ConnectionsAsked(requests[1..]) == 0 by {
        assert requests[1..][1..] == [SetFailHandler(hdl), SetMessageHandler(hdl), Connect(hdl)];
      }
    } else {
      assert requests[1..] == [];
    }
  }

  /** `LoadBulk` asks the transport for exactly one connection per channel
      of the file: none for a blank line, one for every other line. */
  lemma {:induction false} BulkRequestsOnePerChannel(uri: string, lines: seq<string>, attempt: nat,
                                                     connect: nat -> Result<Handle>)
    ensures ConnectionsAsked(BulkRequests(uri, lines, attempt, connect)) == |BulkChannels(lines)|
  {
    if lines != [] {
      if Trim(lines[0]) == [] {
        BulkRequestsOnePerChannel(uri, lines[1..], attempt, connect);
      } else {
        var first := SubscribeRequests(uri, connect(attempt));
        BulkRequestsOnePerChannel(uri, lines[1..], attempt + 1, connect);
        ConnectionsAskedAppend(first, BulkRequests(uri, lines[1..], attempt + 1, connect));
        SubscribeAsksOnce(uri, connect(attempt));
      }
    }
  }

  /** The number of refused subscriptions among `reports`. */
  function Refused(reports: seq<LineReport>): nat
  {
    if reports == [] then 0
    else (if reports[0].SubscribeFailed? then 1 else 0) + Refused(reports[1..])
  }

  /** `LoadBulk` logs exactly one line per refused subscription. */
  lemma {:induction false} BulkLogsOnePerRefusal(lines: seq<string>, lineNo: int, attempt: nat, nextId: int,
                                                 connect: nat -> Result<Handle>)
    ensures |BulkLogs(lines, attempt, connect)| == Refused(Plan(lines, lineNo, attempt, nextId, connect))
  {
    if lines != [] {
      var reports := Plan(lines, lineNo, attempt, nextId, connect);
      var channel := Trim(lines[0]);
      var next := if channel != [] && connect(attempt).Ok? then nextId + 1 else nextId;
      var nextAttempt: nat := if channel == [] then attempt else attempt + 1;
      var rest := Plan(lines[1..], lineNo + 1, nextAttempt, next, connect);
      BulkLogsOnePerRefusal(lines[1..], lineNo + 1, nextAttempt, next, connect);
      assert reports == [reports[0]] + rest;
      assert reports[1..] == rest;
      assert Refused(reports) == (if reports[0].SubscribeFailed? then 1 else 0) + Refused(rest);
      assert |BulkLogs(lines, attempt, connect)|
        == |if channel == [] then [] else SubscribeLogs(connect(attempt))| + |BulkLogs(lines[1..], nextAttempt, connect)|;
    }
  }

  /** `line` is a connect initialization error carrying a message the
      transport gave as its answer to some subscription. */
  ghost predicate ReportedInitError(line: string, connect: nat -> Result<Handle>)
  {
    exists n: nat :: connect(n).Error? && line == InitErrorLog(connect(n).message)
  }

  /** Every line `LoadBulk` logs is a connect initialization error that the
      transport reported for one of the subscriptions. */
  lemma {:induction false} BulkLogsAreInitErrors(lines: seq<string>, attempt: nat, connect: nat -> Result<Handle>)
    ensures forall i | 0 <= i < |BulkLogs(lines, attempt, connect)| ::
      ReportedInitError(BulkLogs(lines, attempt, connect)[i], connect)
  {
    if lines != [] {
      var nextAttempt: nat := if Trim(lines[0]) == [] then attempt else attempt + 1;
      var first := if Trim(lines[0]) == [] then [] else SubscribeLogs(connect(attempt));
      var rest := BulkLogs(lines[1..], nextAttempt, connect);
      var logs := BulkLogs(lines, attempt, connect);
      BulkLogsAreInitErrors(lines[1..], nextAttempt, connect);
      assert logs == first + rest;
      forall i | 0 <= i < |logs|
        ensures ReportedInitError(logs[i], connect)
      {
        if i < |first| {
          assert connect(attempt).Error? && logs[i] == InitErrorLog(connect(attempt).message);
        } else {
          assert logs[i] == rest[i - |first|];
        }
      }
    }
  }

  /** The ids of the successful subscriptions among `reports`, in order. */
  function Subscribed(reports: seq<LineReport>): seq<int>
  {
    if reports == [] then []
    else
      var last := reports[|reports| - 1];
      Subscribed(reports[..|reports| - 1]) + (if last.Subscribing? then [last.id] else [])
  }

  lemma SubscribedSnoc(reports: seq<LineReport>, report: LineReport)
    ensures Subscribed(reports + [report]) == Subscribed(reports) + (if report.Subscribing? then [report.id] else [])
  {
    assert (reports + [report])[..|reports|] == reports;
  }

  /** The reports, transport calls and log lines for the lines from
      `lineIdx` on are those of line `lineIdx` followed by those of the rest. */
  lemma LineStep(uri: string, lines: seq<string>, lineIdx: nat, nextIdx: nat, attempt: nat, nextId: int,
                 connect: nat -> Result<Handle>, report: LineReport, nextAttempt: nat, next: int)
    requires lineIdx < |lines| && nextIdx == lineIdx + 1
    requires report == LineOutcome(lines[lineIdx], lineIdx + 1, attempt, nextId, connect)
    requires nextAttempt == if report.Skipped? then attempt else attempt + 1
    requires next == if report.Subscribing? then nextId + 1 else nextId
    ensures Plan(lines[lineIdx..], lineIdx + 1, attempt, nextId, connect)
      == [report] + Plan(lines[nextIdx..], nextIdx + 1, nextAttempt, next, connect)
    ensures BulkRequests(uri, lines[lineIdx..], attempt, connect)
      == LineRequests(uri, lines[lineIdx], attempt, connect) + BulkRequests(uri, lines[nextIdx..], nextAttempt, connect)
    ensures BulkLogs(lines[lineIdx..], attempt, connect)
      == LineLogs(lines[lineIdx], attempt, connect) + BulkLogs(lines[nextIdx..], nextAttempt, connect)
  {
    var rest := lines[lineIdx..];
    assert rest[0] == lines[lineIdx] && rest[1..] == lines[nextIdx..];
  }

  /** A sequence that grew by `part` while the work left shrank by `part`
      still adds up to the same total. */
  lemma Shift<T>(now: seq<T>, before: seq<T>, part: seq<T>, left: seq<T>, rest: seq<T>)
    requires now == before + part && left == part + rest
    ensures now + rest == before + left
  {
  }

  /** One non-blank line: subscribes to its channel once (`connection` is
      what the transport answers) and reports the outcome; what the registry,
      the transport and the logger go through is exactly one `Subscribe`. */
  method SubscribeLine(endpoint: WebSocketEndPoint, channel: string, connection: Result<Handle>)
    returns (report: LineReport)
    requires endpoint.Valid()
    modifies endpoint, endpoint.client, endpoint.handler.logger
    ensures endpoint.Valid()
    ensures unchanged(endpoint.handler.recorder)
    ensures endpoint.handler.logger.stop == old(endpoint.handler.logger.stop)
    ensures endpoint.handler.logger.out == old(endpoint.handler.logger.out)
    ensures endpoint.client.requests == old(endpoint.client.requests) + SubscribeRequests(endpoint.uri, connection)
    ensures endpoint.handler.logger.queue == old(endpoint.handler.logger.queue) + SubscribeLogs(connection)
    ensures connection.Error? ==> endpoint.View() == old(endpoint.View())
    ensures connection.Ok? ==>
      report.Subscribing? && report.id !in old(endpoint.View()) &&
      endpoint.View() == old(endpoint.View())[report.id := Entry(Connection.Openning, connection.value,
                                                                 SubscriptionDetails(channel))]
    ensures connection.Error? ==>
      report == SubscribeFailed(channel) &&
      endpoint.nextId == old(endpoint.nextId) && endpoint.connections == old(endpoint.connections)
    ensures connection.Ok? ==>
      report == Subscribing(old(endpoint.nextId), channel) &&
      endpoint.nextId == old(endpoint.nextId) + 1 &&
      report.id !in old(endpoint.connections) && report.id in endpoint.connections &&
      fresh(endpoint.connections[report.id]) &&
      endpoint.connections == old(endpoint.connections)[report.id := endpoint.connections[report.id]] &&
      endpoint.connections[report.id].status == Connection.Openning &&
      endpoint.connections[report.id].hdl == connection.value &&
      endpoint.connections[report.id].subscription == SubscriptionDetails(channel)
  {
    var newId := endpoint.Subscribe(SubscriptionDetails(channel), connection);
    if newId < 0 {
      report := SubscribeFailed(channel);
    } else {
      report := Subscribing(newId, channel);
    }
  }

  /** The number of subscriptions a run of reports tried: one per line that
      was not skipped. */
  function Tries(reports: seq<LineReport>): nat
  {
    if reports == [] then 0
    else Tries(reports[..|reports| - 1]) + (if reports[|reports| - 1].Skipped? then 0 else 1)
  }

  lemma TriesSnoc(reports: seq<LineReport>, report: LineReport)
    ensures Tries(reports + [report]) == Tries(reports) + (if report.Skipped? then 0 else 1)
  {
    assert (reports + [report])[..|reports|] == reports;
  }

  /** Every successful subscription among `reports` is registered in the
      registry's view `view` under its id, below the counter `nextId`: a
      connection still "openning", on the handle the transport granted to
      that try (the `Tries(reports[..i])`-th), for its line's channel. */
  ghost predicate Registered(view: map<int, Entry>, nextId: int, reports: seq<LineReport>,
                             connect: nat -> Result<Handle>)
  {
    forall i | 0 <= i < |reports| && reports[i].Subscribing? ::
      reports[i].id < nextId && reports[i].id in view && connect(Tries(reports[..i])).Ok? &&
      view[reports[i].id] == Entry(Connection.Openning, connect(Tries(reports[..i])).value,
                                   SubscriptionDetails(reports[i].channel))
  }

  /** The registry `now` is `before` with exactly the ids `added` registered
      on top: every earlier entry is kept as it was. */
  ghost predicate Extends(now: map<int, Connection.ConnectionMetaData>, before: map<int, Connection.ConnectionMetaData>, added: seq<int>)
  {
    (forall k :: k in now <==> k in before || k in added) &&
    (forall k | k in before :: k in now && now[k] == before[k])
  }

  lemma ExtendsSame(a: map<int, Connection.ConnectionMetaData>)
    ensures Extends(a, a, [])
  {
  }

  lemma ExtendsAdd(a: map<int, Connection.ConnectionMetaData>, id: int, c: Connection.ConnectionMetaData)
    requires id !in a
    ensures Extends(a[id := c], a, [id])
  {
  }

  lemma ExtendsTrans(a: map<int, Connection.ConnectionMetaData>, b: map<int, Connection.ConnectionMetaData>,
                     c: map<int, Connection.ConnectionMetaData>, s: seq<int>, t: seq<int>)
    requires Extends(b, a, s) && Extends(c, b, t)
    ensures Extends(c, a, s + t)
  {
  }

  /** The registrations of `done` survive a step that keeps every entry of
      the view and does not lower the counter, and one more report's
      registration is added when its entry is there. */
  lemma RegisteredSnoc(before: map<int, Entry>, now: map<int, Entry>, beforeNext: int, nextId: int,
                       done: seq<LineReport>, report: LineReport, connect: nat -> Result<Handle>)
    requires Registered(before, beforeNext, done, connect) && beforeNext <= nextId
    requires forall k | k in before :: k in now && now[k] == before[k]
    requires report.Subscribing? ==>
      report.id < nextId && report.id in now && connect(Tries(done)).Ok? &&
      now[report.id] == Entry(Connection.Openning, connect(Tries(done)).value, SubscriptionDetails(report.channel))
    ensures Registered(now, nextId, done + [report], connect)
  {
    var all := done + [report];
    forall i | 0 <= i < |all| && all[i].Subscribing?
      ensures all[i].id < nextId && all[i].id in now && connect(Tries(all[..i])).Ok? &&
        now[all[i].id] == Entry(Connection.Openning, connect(Tries(all[..i])).value,
                                SubscriptionDetails(all[i].channel))
    {
      if i < |done| {
        assert all[i] == done[i] && all[..i] == done[..i];
      } else {
        assert all[..i] == done;
      }
    }
  }

  /** One line of the file, numbered `lineNo`, `connect(attempt)` being the
      transport's answer. A line blank once trimmed is reported as skipped
      and changes nothing; any other line is subscribed once with its
      trimmed text and, when granted, becomes a new "openning" connection on
      the granted handle. It reports, asks the transport and logs exactly
      what `LineOutcome`, `LineRequests` and `LineLogs` say; it adds at most
      its own entry to the registry and keeps every other one; and the
      registrations of the earlier lines' reports `done` stay in place. */
  method LoadLine(line: string, lineNo: int, attempt: nat, endpoint: WebSocketEndPoint,
                  connect: nat -> Result<Handle>, ghost done: seq<LineReport>)
    returns (report: LineReport)
    requires endpoint.Valid() && Registered(endpoint.View(), endpoint.nextId, done, connect)
    requires attempt == Tries(done)
    modifies endpoint, endpoint.client, endpoint.handler.logger
    ensures endpoint.Valid() && Registered(endpoint.View(), endpoint.nextId, done + [report], connect)
    ensures report == LineOutcome(line, lineNo, attempt, old(endpoint.nextId), connect)
    ensures report.Subscribing? ==>
      report.id in endpoint.connections &&
      endpoint.connections[report.id].status == Connection.Openning &&
      endpoint.connections[report.id].hdl == connect(attempt).value
    ensures Trim(line) == [] ==>
      unchanged(endpoint) && unchanged(endpoint.client) && unchanged(endpoint.handler.logger)
    ensures unchanged(endpoint.handler.recorder)
    ensures endpoint.handler.logger.stop == old(endpoint.handler.logger.stop)
    ensures endpoint.handler.logger.out == old(endpoint.handler.logger.out)
    ensures endpoint.client.requests == old(endpoint.client.requests) + LineRequests(endpoint.uri, line, attempt, connect)
    ensures endpoint.handler.logger.queue == old(endpoint.handler.logger.queue) + LineLogs(line, attempt, connect)
    ensures endpoint.nextId == old(endpoint.nextId) + (if report.Subscribing? then 1 else 0)
    ensures Extends(endpoint.connections, old(endpoint.connections), if report.Subscribing? then [report.id] else [])
  {
    var channel := Trim(line);
    if channel == [] {
      report := Skipped(lineNo);
      ExtendsSame(endpoint.connections);
    } else {
      report := SubscribeLine(endpoint, channel, connect(attempt));
      if report.Subscribing? {
        ExtendsAdd(old(endpoint.connections), report.id, endpoint.connections[report.id]);
      } else {
        ExtendsSame(endpoint.connections);
      }
    }
    TriesSnoc(done, report);
    RegisteredSnoc(old(endpoint.View()), endpoint.View(), old(endpoint.nextId), endpoint.nextId,
                   done, report, connect);
  }

  /** The state once the first `lineIdx` lines of `lines` are loaded into
      `endpoint`, which started from the counter `nextId0`, the registry
      `registry0`, the transport calls `requests0` and the log lines `logs0`:
      `reports` are the first lines' reports and `attempt` the number of
      subscriptions they tried; the reports, the transport calls and the
      log lines still due for the remaining lines complete `Plan`'s,
      `BulkRequests`' and `BulkLogs`' for the whole file; the counter has
      advanced once per successful line, the registry holds exactly the
      reported ids on top of `registry0`, and each is registered as its
      report says. */
  ghost predicate Loaded(endpoint: WebSocketEndPoint, lines: seq<string>, lineIdx: nat, attempt: nat,
                         reports: seq<LineReport>, connect: nat -> Result<Handle>, nextId0: int,
                         registry0: map<int, Connection.ConnectionMetaData>, requests0: seq<Request>,
                         logs0: seq<string>)
    reads endpoint, endpoint.client, endpoint.handler, endpoint.handler.logger, endpoint.connections.Values
  {
    lineIdx <= |lines| && endpoint.Valid() && Registered(endpoint.View(), endpoint.nextId, reports, connect) &&
    attempt == Tries(reports) &&
    reports + Plan(lines[lineIdx..], lineIdx + 1, attempt, endpoint.nextId, connect)
      == Plan(lines, 1, 0, nextId0, connect) &&
    endpoint.client.requests + BulkRequests(endpoint.uri, lines[lineIdx..], attempt, connect)
      == requests0 + BulkRequests(endpoint.uri, lines, 0, connect) &&
    endpoint.handler.logger.queue + BulkLogs(lines[lineIdx..], attempt, connect)
      == logs0 + BulkLogs(lines, 0, connect) &&
    endpoint.nextId == nextId0 + |Subscribed(reports)| &&
    Extends(endpoint.connections, registry0, Subscribed(reports))
  }

  /** Loads the next line, numbered `lineIdx + 1`: one more line is loaded,
      and the recorder and the logger's switches are left alone. */
  method LoadNext(lines: seq<string>, lineIdx: nat, attempt: nat, endpoint: WebSocketEndPoint,
                  connect: nat -> Result<Handle>, reports: seq<LineReport>, ghost nextId0: int,
                  ghost registry0: map<int, Connection.ConnectionMetaData>, ghost requests0: seq<Request>,
                  ghost logs0: seq<string>)
    returns (report: LineReport, nextAttempt: nat)
    requires lineIdx < |lines|
    requires Loaded(endpoint, lines, lineIdx, attempt, reports, connect, nextId0, registry0, requests0, logs0)
    modifies endpoint, endpoint.client, endpoint.handler.logger
    ensures Loaded(endpoint, lines, lineIdx + 1, nextAttempt, reports + [report], connect,
                   nextId0, registry0, requests0, logs0)
    ensures unchanged(endpoint.handler.recorder)
    ensures endpoint.handler.logger.stop == old(endpoint.handler.logger.stop)
    ensures endpoint.handler.logger.out == old(endpoint.handler.logger.out)
  {
    ghost var before := endpoint.connections;
    ghost var requests := endpoint.client.requests;
    ghost var logs := endpoint.handler.logger.queue;
    ghost var nextId := endpoint.nextId;
    report := LoadLine(lines[lineIdx], lineIdx + 1, attempt, endpoint, connect, reports);
    nextAttempt := if report.Skipped? then attempt else attempt + 1;
    SubscribedSnoc(reports, report);
    TriesSnoc(reports, report);
    LineStep(endpoint.uri, lines, lineIdx, lineIdx + 1, attempt, nextId, connect, report, nextAttempt, endpoint.nextId);
    ExtendsTrans(registry0, before, endpoint.connections, Subscribed(reports),
                 if report.Subscribing? then [report.id] else []);
    Shift(reports + [report], reports, [report], Plan(lines[lineIdx..], lineIdx + 1, attempt, nextId, connect),
          Plan(lines[lineIdx + 1..], lineIdx + 1 + 1, nextAttempt, endpoint.nextId, connect));
    Shift(endpoint.client.requests, requests, LineRequests(endpoint.uri, lines[lineIdx], attempt, connect),
          BulkRequests(endpoint.uri, lines[lineIdx..], attempt, connect),
          BulkRequests(endpoint.uri, lines[lineIdx + 1..], nextAttempt, connect));
    Shift(endpoint.handler.logger.queue, logs, LineLogs(lines[lineIdx], attempt, connect),
          BulkLogs(lines[lineIdx..], attempt, connect), BulkLogs(lines[lineIdx + 1..], nextAttempt, connect));
  }

  /** Reads the lines in order, counting every line from 1. The reports are
      `Plan`'s (see `PlanLines`, `PlanAttempted`, `PlanIds`): a line blank
      once trimmed is skipped and causes no subscription; every other line
      causes exactly one `Subscribe` with its trimmed text, `connect(n)`
      being the transport's answer to the n-th such call, so the transport
      sees exactly `BulkRequests` (see `BulkRequestsOnePerChannel`) and the
      logger gets exactly `BulkLogs` (see `BulkLogsOnePerRefusal`). The
      counter advances once per successful subscription, the registry gains
      exactly the reported ids, every earlier entry stays as it was, and
      every successful subscription is registered under its id as a new
      "openning" connection for its line's channel, on the handle the
      transport granted to it. */
  method LoadBulk(lines: seq<string>, endpoint: WebSocketEndPoint, connect: nat -> Result<Handle>)
    returns (reports: seq<LineReport>)
    requires endpoint.Valid()
    modifies endpoint, endpoint.client, endpoint.handler.logger
    ensures endpoint.Valid()
    ensures reports == Plan(lines, 1, 0, old(endpoint.nextId), connect)
    ensures Registered(endpoint.View(), endpoint.nextId, reports, connect)
    ensures endpoint.client.requests == old(endpoint.client.requests) + BulkRequests(endpoint.uri, lines, 0, connect)
    ensures endpoint.handler.logger.queue == old(endpoint.handler.logger.queue) + BulkLogs(lines, 0, connect)
    ensures unchanged(endpoint.handler.recorder)
    ensures endpoint.handler.logger.stop == old(endpoint.handler.logger.stop)
    ensures endpoint.handler.logger.out == old(endpoint.handler.logger.out)
    ensures endpoint.nextId == old(endpoint.nextId) + |Subscribed(reports)|
    ensures Extends(endpoint.connections, old(endpoint.connections), Subscribed(reports))
  {
    reports := [];
    var lineIdx := 0;
    var attempt: nat := 0;
    ExtendsSame(endpoint.connections);
    while lineIdx < |lines|
      invariant Loaded(endpoint, lines, lineIdx, attempt, reports, connect, old(endpoint.nextId),
                       old(endpoint.connections), old(endpoint.client.requests), old(endpoint.handler.logger.queue))
      invariant unchanged(endpoint.handler.recorder)
      invariant endpoint.handler.logger.stop == old(endpoint.handler.logger.stop)
      invariant endpoint.handler.logger.out == old(endpoint.handler.logger.out)
    {
      var report, nextAttempt := LoadNext(lines, lineIdx, attempt, endpoint, connect, reports, old(endpoint.nextId),
                                          old(endpoint.connections), old(endpoint.client.requests),
                                          old(endpoint.handler.logger.queue));
      reports := reports + [report];
      attempt := nextAttempt;
      lineIdx := lineIdx + 1;
    }
    assert lines[lineIdx..] == [];
  }
}
