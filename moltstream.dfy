/** The bridge process (cmd/moltstream/main.go): it reads one JSON-RPC request per line of its
    standard input, dispatches it over a fixed method table to the gateway client or the session
    manager, and writes responses and notifications to its standard output.

    Decoding is abstracted to an already classified input line. The gateway client is an oracle:
    for each line it says whether it is connected and what Send and Reconnect return. The gateway
    callbacks (`onMessage`, `onError`) are operations of their own: `Run` models the read loop
    alone, and a callback is applied to the bridge's state before or after a run of lines. */
module Moltstream {
  import opened Wrappers
  import opened Protocol
  import Session

  /** One line of standard input, after json.Unmarshal. */
  datatype Input =
    | Blank
      // A line bufio.Scanner cannot deliver (longer than its 1 MiB buffer, or a read error):
      // Scan returns false and the read loop ends.
    | Unreadable
      // A line that does not decode as a Request.
    | Malformed
      // A decoded request; `sendParams` is the content of its params when they decode as
      // SendParams, None when they do not.
    | Req(methodName: string, id: Option<int>, sendParams: Option<string>)

  /** What the gateway client's Send returns. */
  datatype SendOutcome = Accepted | Rejected(message: string)

  /** The answers of the collaborators while one line is handled: the gateway client's
      IsConnected, Send and Reconnect (its error, if any), and the session manager's clock and
      filesystem errors. */
  datatype Env = Env(connected: bool, send: SendOutcome, reconnect: Option<string>,
                     clock: Session.Clock, faults: Session.Faults)

  datatype Line = Line(input: Input, env: Env)

  /** One value written by the output encoder. `EncodedNil` is the `null` line encoder.Encode
      writes for the nil record a failed constructor returns. */
  datatype Output = Reply(response: Response) | Notify(notification: Notification) | EncodedNil

  /** The bridge's state, with what it has written, the contents it has handed to the gateway
      client's Send, and the session files. */
  datatype BridgeState = BridgeState(reqID: int, out: seq<Output>, sendCalls: seq<string>, fs: Session.Fs)

  /** The configuration the bridge uses: the gateway URL and the session manager's settings. */
  datatype Config = Config(gateway: string, session: Session.Settings)

  // ---------------------------------------------------------------------------------------------
  // The payloads the bridge builds (json.Marshal orders a struct's fields as declared and a map's
  // keys alphabetically)

  function StatusResult(connected: bool, gateway: string): Payload
  {
    Encodable(JObject([("connected", JBool(connected)), ("session_id", JString("")), ("gateway", JString(gateway))]))
  }

  function StatusOk(): Payload
  {
    Encodable(JObject([("status", JString("ok"))]))
  }

  function Reconnected(): Payload
  {
    Encodable(JObject([("status", JString("reconnected"))]))
  }

  function Archived(path: string): Payload
  {
    Encodable(JObject([("path", JString(path)), ("status", JString("archived"))]))
  }

  function PathResult(path: string): Payload
  {
    Encodable(JObject([("path", JString(path))]))
  }

  function StreamParams(delta: string, done: bool): Payload
  {
    Encodable(JObject([("delta", JString(delta)), ("done", JBool(done))]))
  }

  function ErrorParams(message: string): Payload
  {
    Encodable(JObject([("message", JString(message))]))
  }

  function ConnectedParams(gateway: string): Payload
  {
    Encodable(JObject([("gateway", JString(gateway))]))
  }

  // ---------------------------------------------------------------------------------------------
  // The bridge as functions of its state

  /** sendResult: the response, or `null` when the result does not marshal. */
  function EmitResult(s: BridgeState, id: int, result: Payload): BridgeState
  {
    var o := match NewResponse(id, result) case Success(r) => Reply(r) case Failure(_) => EncodedNil;
    s.(out := s.out + [o])
  }

  function EmitError(s: BridgeState, id: int, code: int, message: string): BridgeState
  {
    s.(out := s.out + [Reply(NewErrorResponse(id, code, message))])
  }

  function EmitNotification(s: BridgeState, methodName: string, params: Payload): BridgeState
  {
    var o := match NewNotification(methodName, params) case Success(n) => Notify(n) case Failure(_) => EncodedNil;
    s.(out := s.out + [o])
  }

  function OnSend(s: BridgeState, id: int, content: string, connected: bool, outcome: SendOutcome): BridgeState
  {
    if !connected then EmitError(s, id, Code(NotConnected), "not connected to gateway")
    else
      var called := s.(sendCalls := s.sendCalls + [content]);
      match outcome
      case Rejected(m) => EmitError(called, id, Code(GatewayError), m)
      case Accepted => called.(reqID := id)
  }

  function OnStatus(c: Config, s: BridgeState, id: int, connected: bool): BridgeState
  {
    EmitResult(s, id, StatusResult(connected, c.gateway))
  }

  function OnReconnect(s: BridgeState, id: int, outcome: Option<string>): BridgeState
  {
    match outcome
    case Some(e) => EmitError(s, id, Code(GatewayError), e)
    case None => EmitResult(s, id, Reconnected())
  }

  function OnArchive(c: Config, s: BridgeState, id: int, clock: Session.Clock, faults: Session.Faults): BridgeState
  {
    var a := Session.ArchiveLog(c.session, s.fs, clock.stamp, faults);
    if a.err.Some? then EmitError(s.(fs := a.fs), id, Code(Internal), a.err.value)
    else
      var e := Session.EnsureLog(c.session, a.fs, clock, faults);
      EmitResult(s.(fs := e.fs), id, Archived(e.path))
  }

  function OnSessionPath(c: Config, s: BridgeState, id: int, clock: Session.Clock, faults: Session.Faults): BridgeState
  {
    var e := Session.EnsureLog(c.session, s.fs, clock, faults);
    if e.err.Some? then EmitError(s.(fs := e.fs), id, Code(Internal), e.err.value)
    else EmitResult(s.(fs := e.fs), id, PathResult(e.path))
  }

  /** handleRequest: the dispatch table. */
  function OnRequest(c: Config, s: BridgeState, methodName: string, reqId: Option<int>,
                     sendParams: Option<string>, env: Env): BridgeState
  {
    var id := AnswerId(reqId);
    if methodName == "send" then
      match sendParams
      case None => EmitError(s, id, Code(InvalidParams), "invalid params")
      case Some(content) => OnSend(s, id, content, env.connected, env.send)
    else if methodName == "status" then OnStatus(c, s, id, env.connected)
    else if methodName == "reconnect" then OnReconnect(s, id, env.reconnect)
    else if methodName == "archive" then OnArchive(c, s, id, env.clock, env.faults)
    else if methodName == "session_path" then OnSessionPath(c, s, id, env.clock, env.faults)
    else EmitError(s, id, Code(MethodNotFound), "method not found")
  }

  /** One iteration of Run's loop. */
  function OnLine(c: Config, s: BridgeState, input: Input, env: Env): BridgeState
  {
    match input
    case Blank => s
    case Unreadable => s
    case Malformed => EmitError(s, 0, Code(Parse), "parse error")
    case Req(m, id, p) => OnRequest(c, s, m, id, p, env)
  }

  /** Run: the lines in order, until the input ends or a line cannot be read. */
  function OnLines(c: Config, s: BridgeState, lines: seq<Line>): BridgeState
    decreases |lines|
  {
    if lines == [] || lines[0].input.Unreadable? then s
    else OnLines(c, OnLine(c, s, lines[0].input, lines[0].env), lines[1..])
  }

  /** handleGatewayMessage: forward the delta, then answer the deferred send once it is done. */
  function OnGatewayMessage(s: BridgeState, delta: string, done: bool): BridgeState
  {
    var streamed := EmitNotification(s, "stream", StreamParams(delta, done));
    if done && streamed.reqID != 0 then EmitResult(streamed, streamed.reqID, StatusOk()).(reqID := 0)
    else streamed
  }

  /** A series of onMessage callbacks, each a (delta, done) pair. */
  function OnGatewayMessages(s: BridgeState, events: seq<(string, bool)>): BridgeState
    decreases |events|
  {
    if events == [] then s
    else OnGatewayMessages(OnGatewayMessage(s, events[0].0, events[0].1), events[1..])
  }

  function OnGatewayError(s: BridgeState, message: string): BridgeState
  {
    EmitNotification(s, "error", ErrorParams(message))
  }

  /** Connect: on success, announce the gateway. */
  function OnConnect(c: Config, s: BridgeState, outcome: Option<string>): BridgeState
  {
    if outcome.Some? then s else EmitNotification(s, "connected", ConnectedParams(c.gateway))
  }

  // ---------------------------------------------------------------------------------------------
  // Properties of the multiplexer

  /** The response id of a request: its own id, or 0 when it carries none. */
  function AnswerId(id: Option<int>): int
  {
    id.GetOr(0)
  }

  /** A request whose response is deferred: a well-formed send the connected gateway accepted. */
  predicate Defers(methodName: string, sendParams: Option<string>, env: Env)
  {
    methodName == "send" && sendParams.Some? && env.connected && env.send.Accepted?
  }

  /** `t` is `s` with one more value written: a well-formed response under `id`. */
  predicate AnsweredOnce(s: BridgeState, t: BridgeState, id: int)
  {
    |t.out| == |s.out| + 1 && t.out[..|s.out|] == s.out
    && t.out[|s.out|].Reply? && ValidResponse(t.out[|s.out|].response)
    && t.out[|s.out|].response.id == Some(id)
  }

  lemma EmitResultAnswers(s: BridgeState, id: int, result: Payload)
    requires result.Encodable?
    ensures AnsweredOnce(s, EmitResult(s, id, result), id)
  {
    assert EmitResult(s, id, result).out[..|s.out|] == s.out;
  }

  lemma EmitErrorAnswers(s: BridgeState, id: int, code: int, message: string)
    ensures AnsweredOnce(s, EmitError(s, id, code, message), id)
  {
    assert EmitError(s, id, code, message).out[..|s.out|] == s.out;
  }

  /** Exactly one response per handled request, except an accepted send, which is answered later:
      the response is well formed and carries the request's id, or 0 when it has none; only an
      accepted send changes the pending id, and it sets it to the request's. */
  lemma RequestAnsweredOnce(c: Config, s: BridgeState, methodName: string, id: Option<int>,
                            sendParams: Option<string>, env: Env)
    ensures var t := OnRequest(c, s, methodName, id, sendParams, env);
            (Defers(methodName, sendParams, env) ==> t.out == s.out && t.reqID == AnswerId(id))
            && (!Defers(methodName, sendParams, env) ==> AnsweredOnce(s, t, AnswerId(id)) && t.reqID == s.reqID)
  {
    var k := AnswerId(id);
    if methodName == "send" {
      match sendParams
      case None => EmitErrorAnswers(s, k, Code(InvalidParams), "invalid params");
      case Some(content) =>
        if !env.connected {
          EmitErrorAnswers(s, k, Code(NotConnected), "not connected to gateway");
        } else if env.send.Rejected? {
          EmitErrorAnswers(s.(sendCalls := s.sendCalls + [content]), k, Code(GatewayError), env.send.message);
        }
    } else if methodName == "status" {
      EmitResultAnswers(s, k, StatusResult(env.connected, c.gateway));
    } else if methodName == "reconnect" {
      if env.reconnect.Some? {
        EmitErrorAnswers(s, k, Code(GatewayError), env.reconnect.value);
      } else {
        EmitResultAnswers(s, k, Reconnected());
      }
    } else if methodName == "archive" {
      var a := Session.ArchiveLog(c.session, s.fs, env.clock.stamp, env.faults);
      if a.err.Some? {
        EmitErrorAnswers(s.(fs := a.fs), k, Code(Internal), a.err.value);
      } else {
        var e := Session.EnsureLog(c.session, a.fs, env.clock, env.faults);
        EmitResultAnswers(s.(fs := e.fs), k, Archived(e.path));
      }
    } else if methodName == "session_path" {
      var e := Session.EnsureLog(c.session, s.fs, env.clock, env.faults);
      if e.err.Some? {
        EmitErrorAnswers(s.(fs := e.fs), k, Code(Internal), e.err.value);
      } else {
        EmitResultAnswers(s.(fs := e.fs), k, PathResult(e.path));
      }
    } else {
      EmitErrorAnswers(s, k, Code(MethodNotFound), "method not found");
    }
  }

  /** A blank line writes nothing and changes nothing. */
  lemma BlankLineIgnored(c: Config, s: BridgeState, env: Env, rest: seq<Line>)
    ensures OnLine(c, s, Blank, env) == s
    ensures OnLines(c, s, [Line(Blank, env)] + rest) == OnLines(c, s, rest)
  {
    assert ([Line(Blank, env)] + rest)[1..] == rest;
  }

  /** A malformed line is answered by one parse error with id 0, and the loop goes on with the
      next line. */
  lemma MalformedLineAnswered(c: Config, s: BridgeState, env: Env, rest: seq<Line>)
    ensures OnLine(c, s, Malformed, env)
            == s.(out := s.out + [Reply(Response(VERSION, None, Some(RPCError(-32700, "parse error")), Some(0)))])
    ensures OnLines(c, s, [Line(Malformed, env)] + rest) == OnLines(c, OnLine(c, s, Malformed, env), rest)
  {
    assert ([Line(Malformed, env)] + rest)[1..] == rest;
  }

  /** A line that cannot be read ends the loop: nothing after it is handled. */
  lemma UnreadableLineStops(c: Config, s: BridgeState, env: Env, rest: seq<Line>)
    ensures OnLines(c, s, [Line(Unreadable, env)] + rest) == s
  {
  }

  /** A request without an id is answered with id 0. */
  lemma MissingIdAnsweredAsZero(c: Config, s: BridgeState, methodName: string,
                                sendParams: Option<string>, env: Env)
    requires !Defers(methodName, sendParams, env)
    ensures var t := OnRequest(c, s, methodName, None, sendParams, env);
            |t.out| == |s.out| + 1 && t.out[|s.out|].Reply? && t.out[|s.out|].response.id == Some(0)
  {
    RequestAnsweredOnce(c, s, methodName, None, sendParams, env);
  }

  predicate Known(methodName: string)
  {
    methodName in ["send", "status", "reconnect", "archive", "session_path"]
  }

  /** An unknown method gets one "method not found" error under the request's id, and nothing
      else happens. */
  lemma UnknownMethodAnswered(c: Config, s: BridgeState, methodName: string, id: Option<int>,
                              sendParams: Option<string>, env: Env)
    requires !Known(methodName)
    ensures OnRequest(c, s, methodName, id, sendParams, env)
            == s.(out := s.out + [Reply(Response(VERSION, None, Some(RPCError(-32601, "method not found")), Some(AnswerId(id))))])
  {
  }

  /** A send whose params do not decode gets "invalid params", and Send is not called. */
  lemma SendWithInvalidParams(c: Config, s: BridgeState, id: Option<int>, env: Env)
    ensures OnRequest(c, s, "send", id, None, env)
            == s.(out := s.out + [Reply(Response(VERSION, None, Some(RPCError(-32602, "invalid params")), Some(AnswerId(id))))])
  {
  }

  /** A send while disconnected gets "not connected"; Send is not called and no response is
      pending afterwards that was not pending before. */
  lemma SendWhileDisconnected(s: BridgeState, id: int, content: string, outcome: SendOutcome)
    ensures OnSend(s, id, content, false, outcome)
            == s.(out := s.out + [Reply(Response(VERSION, None, Some(RPCError(-32000, "not connected to gateway")), Some(id)))])
  {
  }

  /** A send the gateway rejects gets a gateway error with the error's text. */
  lemma SendRejected(s: BridgeState, id: int, content: string, message: string)
    ensures OnSend(s, id, content, true, Rejected(message))
            == s.(sendCalls := s.sendCalls + [content],
                  out := s.out + [Reply(Response(VERSION, None, Some(RPCError(-32001, message)), Some(id)))])
  {
  }

  /** A send the gateway accepts writes nothing now and records its id as the pending one. */
  lemma SendAcceptedDefers(s: BridgeState, id: int, content: string)
    ensures OnSend(s, id, content, true, Accepted) == s.(sendCalls := s.sendCalls + [content], reqID := id)
  {
  }

  /** The bridge keeps one pending id: a later accepted send replaces an earlier one's. */
  lemma LaterSendOverwritesPending(s: BridgeState, first: int, second: int, a: string, b: string)
    ensures OnSend(OnSend(s, first, a, true, Accepted), second, b, true, Accepted).reqID == second
    ensures OnSend(OnSend(s, first, a, true, Accepted), second, b, true, Accepted).out == s.out
  {
  }

  /** status answers {connected, session_id: "", gateway} and changes nothing else. */
  lemma StatusAnswers(c: Config, s: BridgeState, id: Option<int>, sendParams: Option<string>, env: Env)
    ensures OnRequest(c, s, "status", id, sendParams, env)
            == s.(out := s.out + [Reply(Response(VERSION, Some(JObject([("connected", JBool(env.connected)),
                                                                       ("session_id", JString("")),
                                                                       ("gateway", JString(c.gateway))])),
                                                  None, Some(AnswerId(id))))])
  {
  }

  /** reconnect answers {status: "reconnected"}, or a gateway error with Reconnect's text. */
  lemma ReconnectAnswers(c: Config, s: BridgeState, id: Option<int>, sendParams: Option<string>, env: Env)
    ensures var t := OnRequest(c, s, "reconnect", id, sendParams, env);
            t.out == s.out + [Reply(if env.reconnect.Some?
                                    then Response(VERSION, None, Some(RPCError(-32001, env.reconnect.value)), Some(AnswerId(id)))
                                    else Response(VERSION, Some(JObject([("status", JString("reconnected"))])), None, Some(AnswerId(id))))]
            && t.reqID == s.reqID && t.sendCalls == s.sendCalls && t.fs == s.fs
  {
  }

  /** archive: an archive failure is an internal error; otherwise the session is recreated, that
      step's error is ignored, and the answer is {path, status: "archived"}. */
  lemma ArchiveAnswers(c: Config, s: BridgeState, id: Option<int>, sendParams: Option<string>, env: Env)
    ensures var t := OnRequest(c, s, "archive", id, sendParams, env);
            var a := Session.ArchiveLog(c.session, s.fs, env.clock.stamp, env.faults);
            var e := Session.EnsureLog(c.session, a.fs, env.clock, env.faults);
            t.reqID == s.reqID && t.sendCalls == s.sendCalls
            && (a.err.Some? ==>
                  t.fs == s.fs
                  && t.out == s.out + [Reply(Response(VERSION, None, Some(RPCError(-32603, a.err.value)), Some(AnswerId(id))))])
            && (a.err.None? ==>
                  t.fs == e.fs
                  && t.out == s.out + [Reply(Response(VERSION, Some(JObject([("path", JString(e.path)), ("status", JString("archived"))])),
                                                      None, Some(AnswerId(id))))])
  {
  }

  /** session_path: EnsureSession's path, or an internal error with its text. */
  lemma SessionPathAnswers(c: Config, s: BridgeState, id: Option<int>, sendParams: Option<string>, env: Env)
    ensures var t := OnRequest(c, s, "session_path", id, sendParams, env);
            var e := Session.EnsureLog(c.session, s.fs, env.clock, env.faults);
            t.reqID == s.reqID && t.sendCalls == s.sendCalls && t.fs == e.fs
            && t.out == s.out + [Reply(if e.err.Some?
                                       then Response(VERSION, None, Some(RPCError(-32603, e.err.value)), Some(AnswerId(id)))
                                       else Response(VERSION, Some(JObject([("path", JString(e.path))])), None, Some(AnswerId(id))))]
  {
  }

  function StreamNotice(delta: string, done: bool): Output
  {
    Notify(Notification(VERSION, "stream", Some(JObject([("delta", JString(delta)), ("done", JBool(done))]))))
  }

  function OkReply(id: int): Output
  {
    Reply(Response(VERSION, Some(JObject([("status", JString("ok"))])), None, Some(id)))
  }

  /** A gateway message is first forwarded as one stream notification; the deferred response
      {status: "ok"} follows, under the pending id, exactly when the message is the last one and an
      id is pending, which is then cleared. */
  lemma GatewayMessageRule(s: BridgeState, delta: string, done: bool)
    ensures var t := OnGatewayMessage(s, delta, done);
            t.sendCalls == s.sendCalls && t.fs == s.fs
            && (done && s.reqID != 0 ==> t.out == s.out + [StreamNotice(delta, done), OkReply(s.reqID)] && t.reqID == 0)
            && (!(done && s.reqID != 0) ==> t.out == s.out + [StreamNotice(delta, done)] && t.reqID == s.reqID)
  {
  }

  /** Streamed text that is not the last: one notification each, and the pending id stays. */
  lemma {:induction false} StreamingKeepsPending(s: BridgeState, events: seq<(string, bool)>)
    requires forall i | 0 <= i < |events| :: !events[i].1
    ensures var t := OnGatewayMessages(s, events);
            t.reqID == s.reqID && t.sendCalls == s.sendCalls && t.fs == s.fs
            && t.out == s.out + seq(|events|, i requires 0 <= i < |events| => StreamNotice(events[i].0, false))
    decreases |events|
  {
    if events != [] {
      var s1 := OnGatewayMessage(s, events[0].0, events[0].1);
      GatewayMessageRule(s, events[0].0, events[0].1);
      StreamingKeepsPending(s1, events[1..]);
      var tail := seq(|events| - 1, i requires 0 <= i < |events| - 1 => StreamNotice(events[1..][i].0, false));
      var all := seq(|events|, i requires 0 <= i < |events| => StreamNotice(events[i].0, false));
      assert all == [StreamNotice(events[0].0, false)] + tail;
    }
  }

  /** With no id pending (a send with id 0, or none at all), gateway messages are only forwarded:
      nothing is ever answered. */
  lemma {:induction false} NothingPendingNothingAnswered(s: BridgeState, events: seq<(string, bool)>)
    requires s.reqID == 0
    ensures var t := OnGatewayMessages(s, events);
            t.reqID == 0 && |t.out| == |s.out| + |events| && t.out[..|s.out|] == s.out
            && forall j | |s.out| <= j < |t.out| :: t.out[j].Notify?
    decreases |events|
  {
    if events != [] {
      var s1 := OnGatewayMessage(s, events[0].0, events[0].1);
      GatewayMessageRule(s, events[0].0, events[0].1);
      NothingPendingNothingAnswered(s1, events[1..]);
      var t := OnGatewayMessages(s, events);
      assert t == OnGatewayMessages(s1, events[1..]);
      assert t.out[..|s1.out|] == s1.out;
      forall j | |s.out| <= j < |t.out| ensures t.out[j].Notify? {
        if j < |s1.out| {
          assert t.out[j] == s1.out[j];
        }
      }
      assert t.out[..|s.out|] == s1.out[..|s.out|];
    }
  }

  /** A send with id 0 is never answered: after it is accepted, no gateway message produces a
      response. Since it clears the pending id, a send still pending before it is never answered
      either. */
  lemma SendWithIdZeroNeverAnswered(s: BridgeState, content: string, events: seq<(string, bool)>)
    ensures var t := OnGatewayMessages(OnSend(s, 0, content, true, Accepted), events);
            forall j | |s.out| <= j < |t.out| :: !t.out[j].Reply?
  {
    NothingPendingNothingAnswered(OnSend(s, 0, content, true, Accepted), events);
  }

  /** The deferred-response rule end to end: an accepted send with a non-zero id, then text
      streamed as it arrives, then the final message, writes one stream notification per message
      followed by exactly one response {status: "ok"} under the send's id, and leaves nothing
      pending. */
  lemma SendAnsweredWhenDone(s: BridgeState, id: int, content: string,
                             partial: seq<(string, bool)>, last: string)
    requires id != 0
    requires forall i | 0 <= i < |partial| :: !partial[i].1
    ensures var t := OnGatewayMessages(OnSend(s, id, content, true, Accepted), partial + [(last, true)]);
            t.reqID == 0 && t.sendCalls == s.sendCalls + [content]
            && t.out == s.out + seq(|partial|, i requires 0 <= i < |partial| => StreamNotice(partial[i].0, false))
                        + [StreamNotice(last, true), OkReply(id)]
  {
    var s0 := OnSend(s, id, content, true, Accepted);
    StreamingKeepsPending(s0, partial);
    OnGatewayMessagesAppend(s0, partial, [(last, true)]);
    GatewayMessageRule(OnGatewayMessages(s0, partial), last, true);
  }

  lemma {:induction false} OnGatewayMessagesAppend(s: BridgeState, a: seq<(string, bool)>, b: seq<(string, bool)>)
    ensures OnGatewayMessages(s, a + b) == OnGatewayMessages(OnGatewayMessages(s, a), b)
    decreases |a|
  {
    if a != [] {
      assert (a + b)[0] == a[0];
      assert (a + b)[1..] == a[1..] + b;
      OnGatewayMessagesAppend(OnGatewayMessage(s, a[0].0, a[0].1), a[1..], b);
    } else {
      assert a + b == b;
    }
  }

  /** How many responses Run writes for a sequence of lines: one per malformed line and per
      request, except accepted sends; none for blank lines; nothing after an unreadable line. */
  function Answers(lines: seq<Line>): nat
    decreases |lines|
  {
    if lines == [] || lines[0].input.Unreadable? then 0
    else
      var here := match lines[0].input
                  case Blank => 0
                  case Unreadable => 0
                  case Malformed => 1
                  case Req(m, _, p) => if Defers(m, p, lines[0].env) then 0 else 1;
      here + Answers(lines[1..])
  }

  lemma LineAnswered(c: Config, s: BridgeState, line: Line)
    requires !line.input.Unreadable?
    ensures var t := OnLine(c, s, line.input, line.env);
            |t.out| == |s.out| + Answers([line]) && t.out[..|s.out|] == s.out
            && forall j | |s.out| <= j < |t.out| :: t.out[j].Reply? && ValidResponse(t.out[j].response)
  {
    var t := OnLine(c, s, line.input, line.env);
    assert Answers([line]) == Answers([line][..1]) by { assert [line][1..] == []; }
    match line.input
    case Blank =>
    case Malformed =>
    case Req(m, id, p) =>
      RequestAnsweredOnce(c, s, m, id, p, line.env);
  }

  /** Over a whole run, the number of responses written is the number of lines that call for one,
      every value written is a well-formed response (never a notification, never `null`), and
      nothing written before is changed. */
  lemma {:induction false} RunAnswersEachRequest(c: Config, s: BridgeState, lines: seq<Line>)
    ensures var t := OnLines(c, s, lines);
            |t.out| == |s.out| + Answers(lines) && t.out[..|s.out|] == s.out
            && forall j | |s.out| <= j < |t.out| :: t.out[j].Reply? && ValidResponse(t.out[j].response)
    decreases |lines|
  {
    if lines != [] && !lines[0].input.Unreadable? {
      var s1 := OnLine(c, s, lines[0].input, lines[0].env);
      LineAnswered(c, s, lines[0]);
      assert Answers([lines[0]]) + Answers(lines[1..]) == Answers(lines);
      RunAnswersEachRequest(c, s1, lines[1..]);
      var t := OnLines(c, s, lines);
      assert t == OnLines(c, s1, lines[1..]);
      assert t.out[..|s1.out|] == s1.out;
      forall j | |s.out| <= j < |t.out| ensures t.out[j].Reply? && ValidResponse(t.out[j].response) {
        if j < |s1.out| {
          assert t.out[j] == s1.out[j];
        }
      }
      assert t.out[..|s.out|] == s1.out[..|s.out|];
    }
  }

  /** A gateway error is forwarded as one `error` notification {message}; nothing else changes. */
  lemma GatewayErrorNotifies(s: BridgeState, message: string)
    ensures OnGatewayError(s, message)
            == s.(out := s.out + [Notify(Notification(VERSION, "error", Some(JObject([("message", JString(message))]))))])
  {
  }

  /** Connect announces a successful connection with one `connected` notification {gateway}, and
      writes nothing when the client's Connect fails. */
  lemma ConnectAnnounces(c: Config, s: BridgeState, outcome: Option<string>)
    ensures outcome.None? ==>
              OnConnect(c, s, outcome)
              == s.(out := s.out + [Notify(Notification(VERSION, "connected", Some(JObject([("gateway", JString(c.gateway))]))))])
    ensures outcome.Some? ==> OnConnect(c, s, outcome) == s
  {
  }

  // ---------------------------------------------------------------------------------------------
  // The bridge as an object

  class Bridge {
    /** config.Gateway.URL */
    const gateway: string
    const session: Session.Manager
    /** The id of the send whose response is deferred; 0 when there is none. */
    var reqID: int
    /** Everything written to standard output, in order. */
    var out: seq<Output>
    /** The contents handed to the gateway client's Send, in order. */
    var sendCalls: seq<string>

    constructor (gateway: string, session: Session.Manager)
      ensures this.gateway == gateway && this.session == session
      ensures reqID == 0 && out == [] && sendCalls == []
    {
      this.gateway := gateway;
      this.session := session;
      reqID := 0;
      out := [];
      sendCalls := [];
    }

    function Configuration(): Config
    {
      Config(gateway, session.Config())
    }

    function Model(): BridgeState
      reads this, session.disk
    {
      BridgeState(reqID, out, sendCalls, session.disk.State())
    }

    method SendResult(id: int, result: Payload)
      modifies this
      ensures Model() == EmitResult(old(Model()), id, result)
    {
      var resp := NewResponse(id, result);
      var o := if resp.Success? then Reply(resp.value) else EncodedNil;
      out := out + [o];
    }

    method SendError(id: int, code: int, message: string)
      modifies this
      ensures Model() == EmitError(old(Model()), id, code, message)
    {
      out := out + [Reply(NewErrorResponse(id, code, message))];
    }

    method SendNotification(methodName: string, params: Payload)
      modifies this
      ensures Model() == EmitNotification(old(Model()), methodName, params)
    {
      var n := NewNotification(methodName, params);
      var o := if n.Success? then Notify(n.value) else EncodedNil;
      out := out + [o];
    }

    /** Connect, given what the gateway client's Connect returns. */
    method Connect(outcome: Option<string>) returns (err: Option<string>)
      modifies this
      ensures err == outcome
      ensures Model() == OnConnect(Configuration(), old(Model()), outcome)
    {
      if outcome.Some? {
        return outcome;
      }
      SendNotification("connected", ConnectedParams(gateway));
      return None;
    }

    method Run(lines: seq<Line>)
      modifies this, session.disk
      ensures Model() == OnLines(Configuration(), old(Model()), lines)
    {
      var i := 0;
      while i < |lines| && !lines[i].input.Unreadable?
        invariant 0 <= i <= |lines|
        invariant OnLines(Configuration(), Model(), lines[i..]) == OnLines(Configuration(), old(Model()), lines)
      {
        var line := lines[i];
        ghost var before := Model();
        if line.input.Malformed? {
          SendError(0, Code(Parse), "parse error");
        } else if line.input.Req? {
          HandleRequest(line.input.methodName, line.input.id, line.input.sendParams, line.env);
        }
        assert Model() == OnLine(Configuration(), before, line.input, line.env);
        assert lines[i..][1..] == lines[i + 1..];
        i := i + 1;
      }
    }

    method HandleRequest(methodName: string, reqId: Option<int>, sendParams: Option<string>, env: Env)
      modifies this, session.disk
      ensures Model() == OnRequest(Configuration(), old(Model()), methodName, reqId, sendParams, env)
    {
      var id := 0;
      if reqId.Some? {
        id := reqId.value;
      }
      if methodName == "send" {
        if sendParams.None? {
          SendError(id, Code(InvalidParams), "invalid params");
          return;
        }
        HandleSend(id, sendParams.value, env.connected, env.send);
      } else if methodName == "status" {
        HandleStatus(id, env.connected);
      } else if methodName == "reconnect" {
        HandleReconnect(id, env.reconnect);
      } else if methodName == "archive" {
        HandleArchive(id, env.clock, env.faults);
      } else if methodName == "session_path" {
        HandleSessionPath(id, env.clock, env.faults);
      } else {
        SendError(id, Code(MethodNotFound), "method not found");
      }
    }

    method HandleSend(id: int, content: string, connected: bool, outcome: SendOutcome)
      modifies this
      ensures Model() == OnSend(old(Model()), id, content, connected, outcome)
    {
      if !connected {
        SendError(id, Code(NotConnected), "not connected to gateway");
        return;
      }
      sendCalls := sendCalls + [content];
      if outcome.Rejected? {
        SendError(id, Code(GatewayError), outcome.message);
        return;
      }
      reqID := id;
    }

    method HandleStatus(id: int, connected: bool)
      modifies this
      ensures Model() == OnStatus(Configuration(), old(Model()), id, connected)
    {
      SendResult(id, StatusResult(connected, gateway));
    }

    method HandleReconnect(id: int, outcome: Option<string>)
      modifies this
      ensures Model() == OnReconnect(old(Model()), id, outcome)
    {
      if outcome.Some? {
        SendError(id, Code(GatewayError), outcome.value);
        return;
      }
      SendResult(id, Reconnected());
    }

    method HandleArchive(id: int, clock: Session.Clock, faults: Session.Faults)
      modifies this, session.disk
      ensures Model() == OnArchive(Configuration(), old(Model()), id, clock, faults)
    {
      var err := session.Archive(clock.stamp, faults);
      if err.Some? {
        SendError(id, Code(Internal), err.value);
        return;
      }
      var path, _ := session.EnsureSession(clock, faults);
      SendResult(id, Archived(path));
    }

    method HandleSessionPath(id: int, clock: Session.Clock, faults: Session.Faults)
      modifies this, session.disk
      ensures Model() == OnSessionPath(Configuration(), old(Model()), id, clock, faults)
    {
      var path, err := session.EnsureSession(clock, faults);
      if err.Some? {
        SendError(id, Code(Internal), err.value);
        return;
      }
      SendResult(id, PathResult(path));
    }

    method HandleGatewayMessage(delta: string, done: bool)
      modifies this
      ensures Model() == OnGatewayMessage(old(Model()), delta, done)
    {
      SendNotification("stream", StreamParams(delta, done));
      if done && reqID != 0 {
        SendResult(reqID, StatusOk());
        reqID := 0;
      }
    }

    method HandleGatewayError(message: string)
      modifies this
      ensures Model() == OnGatewayError(old(Model()), message)
    {
      SendNotification("error", ErrorParams(message));
    }
  }

  /** NewBridge: build the session manager from the configuration, then the bridge. */
  method NewBridge(gateway: string, directory: string, maxSizeBytes: int, autoArchive: bool,
                   home: Result<string, string>, mkdir: Session.DirFaults, disk: Session.Disk)
    returns (b: Bridge?, err: Option<string>)
    requires |directory| >= 2
    ensures var r := Session.NewSettings(directory, maxSizeBytes, autoArchive, home, mkdir);
            (r.Success? ==> b != null && fresh(b) && b.Configuration() == Config(gateway, r.value)
                            && b.session.disk == disk && b.Model() == BridgeState(0, [], [], disk.State())
                            && err == None)
            && (r.Failure? ==> b == null && err == Some("session manager: " + r.error))
  {
    var m, e := Session.NewManager(directory, maxSizeBytes, autoArchive, home, mkdir, disk);
    if e.Some? {
      return null, Some("session manager: " + e.value);
    }
    b := new Bridge(gateway, m);
    err := None;
  }
}
