# moltstream bridge: a verified model

moltstream is a local bridge process between a text editor and a chat gateway. The editor writes
JSON-RPC 2.0 requests to the bridge's standard input, one per line. The bridge answers on its
standard output with responses and notifications. It forwards `send` requests to the gateway
client and streams the reply back as `stream` notifications. It also keeps the conversation in a
log file, `session.md`, which it rotates into an `archive/` directory once the file grows past a
size threshold.

This project models three parts of the program: the request multiplexer, the session-log
rotation policy, and the JSON-RPC records the two share. There are four modules.

- `Wrappers` (wrappers.dfy) holds `Option` and `Result`.
- `Protocol` (protocol.dfy) covers internal/protocol/messages.go. It has the Request, Response,
  RPCError and Notification records and their constructors. It also has the error codes, checked
  against section 5.1 of the JSON-RPC 2.0 Specification. Payloads are JSON value trees. A payload
  json.Marshal would reject is a separate variant that carries the marshal error, so a
  constructor's failure path is part of the model.
- `Session` (session.dfy) covers internal/session/manager.go. The filesystem is abstracted to
  the content of `session.md`, if the file exists, and a map from archive file names to their
  contents. With that abstraction come:
  - pure functions (`StatOf`, `CreateLog`, `ArchiveLog`, `EnsureLog`) that specify each operation;
  - lemmas about the rotation policy;
  - a `Manager` class whose methods do the Go steps in order (stat, then rename, then write) on a
    `Disk` object, each proved equal to its function.

  The clock, the generated session id and the operating-system errors are parameters.
- `Moltstream` (moltstream.dfy) covers cmd/moltstream/main.go. The `Bridge` class has the
  deferred-response field `reqID` and the sequence of values written to standard output. It also
  records the contents handed to the gateway client's Send. Each handler is proved equal to a
  function of the abstract state (`OnRequest`, `OnSend`, `OnGatewayMessage`, `OnLines`, ...). The
  lemmas about those functions state the multiplexer's obligations:
  - every handled request gets exactly one well-formed response under its id (0 when it has none),
    except an accepted `send`;
  - each kind of failure gets the right error code;
  - an accepted `send` is answered once, after the gateway's final message, and a `send` with id 0
    is never answered.

Rotation renames the log to `archive/session-<stamp>.md`, where the stamp has one-second
resolution. os.Rename replaces a file of the same name, so the model writes that replacement out
(`archive[name := bytes]`). Because of this, two archive operations in the same second keep only
the later file (`Session.SameSecondArchivesReplaceEarlier`). The no-loss property
(`Session.RotationLosesNothing`) is proved for an archive name not already in use.

Some behaviour of the code worth knowing:
- The gateway client reaches the gateway through a command-line tool. It has no handshake, no
  run tracking and no delta computation.
- `status` always returns an empty `session_id`.
- A second `send` silently replaces the pending id; an earlier send is then never answered.
- `archive` ignores the error of re-creating the log.

## Model

| member | source | states |
|---|---|---|
| `Protocol.Marshal` | internal/protocol/messages.go:56-59 | marshalling succeeds exactly for the values json.Marshal can encode |
| `Protocol.NewRequest` | internal/protocol/messages.go:55-66 | a failed marshal yields no record and the marshal error; otherwise a record with jsonrpc "2.0", the method, the params and the id present |
| `Protocol.NewNotification` | internal/protocol/messages.go:68-78 | a failed marshal yields no record and the marshal error; otherwise jsonrpc "2.0", the method and the params (the record type has no id) |
| `Protocol.NewResponse` | internal/protocol/messages.go:80-90 | a failed marshal yields no record and the error; otherwise a valid response (jsonrpc "2.0", id present, result and no error) under the given id |
| `Protocol.NewErrorResponse` | internal/protocol/messages.go:92-101 | a valid response under the given id with the given code and message and no result |
| `Protocol.Code` | internal/protocol/messages.go:104-112 | every code is negative and in the reserved block -32768..-32000; exactly the two bridge-specific codes lie in the server-error range -32099..-32000, and exactly the other five are predefined JSON-RPC codes |
| `Protocol.StandardCodesMatchSpecification` | internal/protocol/messages.go:105-109 | each of the five standard codes is the one section 5.1 of the JSON-RPC 2.0 Specification gives to the error of that name |
| `Protocol.CodesDistinct` | internal/protocol/messages.go:104-112 | no two error kinds share a code |
| `Session.ExpandHome` | internal/session/manager.go:17-24 | a leading "~/" is replaced by the home directory joined with the rest, a home-directory error is passed on, and any other directory is left unchanged; at least two characters are required because the Go slice `directory[:2]` panics otherwise |
| `Session.NewSettings` | internal/session/manager.go:16-40 | NewManager succeeds exactly when expansion and both directory creations succeed, and then keeps the expanded directory, the threshold and the switch; otherwise the first error, wrapped as in the source |
| `Session.NewManager` | internal/session/manager.go:16-40 | returns a fresh manager with those settings on success and nil with the error otherwise |
| `Session.PathsShareDirectory` | internal/session/manager.go:42-48 | the log is `<dir>/session.md` and the archive directory `<dir>/archive`: siblings in the same directory, and distinct |
| `Session.JoinRootAndCurrent` | internal/session/manager.go:42-48 | as filepath.Join does, the root directory gives `/session.md` (one separator), `.` and `./` give a bare `session.md`, and a trailing '/' is not doubled |
| `Session.ArchiveTargetIsNotLog` | internal/session/manager.go:89-90 | the archive file is `session-<stamp>.md` directly in the archive directory and is never the log's own path |
| `Session.Header` | internal/session/manager.go:73-77 | the header is the type-marker line, the id line and the creation-time line, then a blank line; the id line carries the generated id and the created line the creation time; its length is 62 plus the lengths of the id and the time |
| `Session.EnsureCreatesHeaderOnly` | internal/session/manager.go:53-55 | with no log, EnsureSession writes a log holding exactly the header, touches no archive file, and returns the log path together with the write error, if any |
| `Session.EnsureUnderThresholdChangesNothing` | internal/session/manager.go:57-68 | an existing log with rotation off or a size at most the threshold is left unchanged, and the path is returned without error |
| `Session.EnsureIgnoresStatFailure` | internal/session/manager.go:53-68 | a stat error other than "does not exist" makes EnsureSession change nothing and report success |
| `Session.EnsureIdempotent` | internal/session/manager.go:57-68 | under the threshold, a second call returns the same path and state as the first |
| `Session.EnsureRotatesOverThreshold` | internal/session/manager.go:58-65 | with rotation on and a size strictly over the threshold, the old bytes move unchanged to `session-<stamp>.md` in the archive and the log is replaced by a header-only file |
| `Session.RotationLosesNothing` | internal/session/manager.go:58-65 | under a fresh archive name, every archived file keeps its content and the old log's bytes are stored in the archive |
| `Session.RotationHappensOnce` | internal/session/manager.go:58-68 | after a rotation, when the threshold leaves room for the header, the next EnsureSession changes nothing whatever the clock and errors |
| `Session.AutoArchiveFailureCreatesNothing` | internal/session/manager.go:61-63 | when the rotation's rename fails, EnsureSession returns an empty path and "auto-archive: " plus the error, and creates no new log |
| `Session.ArchiveMissingIsNoop` | internal/session/manager.go:85-87 | Archive with no log changes nothing and succeeds |
| `Session.ArchiveIsMove` | internal/session/manager.go:82-93 | Archive of an existing log is a rename: the log is gone, its bytes are under the stamped name, and the other archive files are untouched |
| `Session.SameSecondArchivesReplaceEarlier` | internal/session/manager.go:89-92 | archive, recreate, then archive again in the same second: the second rename replaces the first archive file, and the first log's bytes are stored nowhere |
| `Session.Disk.constructor` | internal/session/manager.go:53 | the filesystem state the manager finds: the log, if any, and the archive files |
| `Session.Manager.constructor` | internal/session/manager.go:35-39 | the manager keeps its directory, threshold and rotation switch |
| `Session.Manager.SessionPath` | internal/session/manager.go:42-44 | the log path is `DirPrefix(directory) + "session.md"`: the directory and one '/' separator (none after a directory already ending in '/', and no directory at all for `.` or `./`), then `session.md` |
| `Session.Manager.ArchiveDir` | internal/session/manager.go:46-48 | the archive directory is `DirPrefix(directory) + "archive"`, with the same separator rule |
| `Session.Manager.StatSession` | internal/session/manager.go:53 | os.Stat of the log: the stat error, "does not exist", or the log's size |
| `Session.Manager.EnsureSession` | internal/session/manager.go:50-69 | the new filesystem, path and error are those of `EnsureLog`, on which the lemmas above are proved |
| `Session.Manager.CreateSession` | internal/session/manager.go:71-80 | writes the header-only log, or leaves the filesystem as it was and returns the write error |
| `Session.Manager.Archive` | internal/session/manager.go:82-93 | the new filesystem and error are those of `ArchiveLog` |
| `Session.Manager.GetSize` | internal/session/manager.go:95-104 | 0 and no error without a log; the log's size with an existing one; 0 and the error when stat fails otherwise |
| `Moltstream.EmitResultAnswers` | cmd/moltstream/main.go:281-284 | sendResult with a marshalable result writes exactly one well-formed response under the id |
| `Moltstream.EmitErrorAnswers` | cmd/moltstream/main.go:286-289 | sendError writes exactly one well-formed error response under the id |
| `Moltstream.RequestAnsweredOnce` | cmd/moltstream/main.go:181-226 | every request gets exactly one well-formed response under its id (0 when it has none), appended after what was written before; the exception is a well-formed send the connected gateway accepted, which writes nothing and sets the pending id to its own; nothing else changes the pending id |
| `Moltstream.BlankLineIgnored` | cmd/moltstream/main.go:162-165 | a blank line writes nothing and changes nothing, and the loop goes on |
| `Moltstream.MalformedLineAnswered` | cmd/moltstream/main.go:167-171 | a malformed line writes one error response with code -32700 and id 0 and nothing else, and the loop goes on with the next line |
| `Moltstream.UnreadableLineStops` | cmd/moltstream/main.go:158-161 | a line the scanner cannot deliver (over its 1 MiB buffer) ends the loop, so nothing after it is handled |
| `Moltstream.MissingIdAnsweredAsZero` | cmd/moltstream/main.go:182-185 | a request without an id is answered with id 0 |
| `Moltstream.UnknownMethodAnswered` | cmd/moltstream/main.go:208-209 | an unknown method writes one error response with code -32601 under the request's id, and nothing else changes |
| `Moltstream.SendWithInvalidParams` | cmd/moltstream/main.go:189-192 | a send whose params do not decode gets code -32602, and Send is not called |
| `Moltstream.SendWhileDisconnected` | cmd/moltstream/main.go:213-217 | a send while disconnected gets code -32000; Send is not called and the pending id is unchanged |
| `Moltstream.SendRejected` | cmd/moltstream/main.go:219-222 | a send that Send fails gets code -32001 with the error's text, and the pending id is unchanged |
| `Moltstream.SendAcceptedDefers` | cmd/moltstream/main.go:219-225 | an accepted send writes nothing now and makes its id the pending one |
| `Moltstream.LaterSendOverwritesPending` | cmd/moltstream/main.go:225 | a second accepted send replaces the first one's pending id, and neither writes anything |
| `Moltstream.StatusAnswers` | cmd/moltstream/main.go:228-235 | status answers {connected, session_id: "", gateway: URL} and changes nothing else |
| `Moltstream.ReconnectAnswers` | cmd/moltstream/main.go:237-243 | reconnect answers {status: "reconnected"}, or code -32001 with Reconnect's error, and changes nothing else |
| `Moltstream.ArchiveAnswers` | cmd/moltstream/main.go:245-252 | an archive failure gets code -32603 with its text and no further change; otherwise the log is recreated, that step's error is ignored, and the answer is {path, status: "archived"} |
| `Moltstream.SessionPathAnswers` | cmd/moltstream/main.go:254-261 | session_path answers with EnsureSession's path, or code -32603 with its error |
| `Moltstream.GatewayMessageRule` | cmd/moltstream/main.go:263-273 | each gateway message first writes one stream notification {delta, done}; the response {status: "ok"} follows under the pending id exactly when done is true and an id is pending, and the pending id is then reset to 0; otherwise the pending id is untouched |
| `Moltstream.StreamingKeepsPending` | cmd/moltstream/main.go:263-273 | messages that are not final write one stream notification each and keep the pending id |
| `Moltstream.NothingPendingNothingAnswered` | cmd/moltstream/main.go:269-272 | with no id pending, any sequence of gateway messages writes only notifications, one per message |
| `Moltstream.SendWithIdZeroNeverAnswered` | cmd/moltstream/main.go:219-225 | a send accepted with id 0 is never answered, whatever was pending before and whatever the gateway sends, so a send pending before it is never answered either |
| `Moltstream.SendAnsweredWhenDone` | cmd/moltstream/main.go:219-225 | an accepted send with a non-zero id, then streamed text, then the final message: one notification per message, then exactly one {status: "ok"} response under the send's id, and nothing pending afterwards |
| `Moltstream.RunAnswersEachRequest` | cmd/moltstream/main.go:157-179 | over any input, the loop writes one response per malformed line and per request except accepted sends; every value it writes is a well-formed response (never a notification, never `null`), and earlier output is kept |
| `Moltstream.GatewayErrorNotifies` | cmd/moltstream/main.go:275-279 | a gateway error writes exactly one `error` notification {message} with the error's text and changes nothing else |
| `Moltstream.ConnectAnnounces` | cmd/moltstream/main.go:145-152 | a successful Connect writes exactly one `connected` notification {gateway}; a failed one writes nothing and changes nothing |
| `Moltstream.Bridge.constructor` | cmd/moltstream/main.go:132-138 | a new bridge has nothing pending, has written nothing, and has called Send with nothing |
| `Moltstream.Bridge.SendResult` | cmd/moltstream/main.go:281-284 | appends the response, or `null` when the result does not marshal |
| `Moltstream.Bridge.SendError` | cmd/moltstream/main.go:286-289 | appends the error response |
| `Moltstream.Bridge.SendNotification` | cmd/moltstream/main.go:291-294 | appends the notification, or `null` when its params do not marshal |
| `Moltstream.Bridge.Connect` | cmd/moltstream/main.go:141-155 | returns the client's Connect error unchanged; the new state is `OnConnect` of the old, so `ConnectAnnounces` holds of it |
| `Moltstream.Bridge.Run` | cmd/moltstream/main.go:157-179 | the new state is `OnLines` of the old, so `RunAnswersEachRequest` holds of it |
| `Moltstream.Bridge.HandleRequest` | cmd/moltstream/main.go:181-211 | the new state is `OnRequest` of the old, so `RequestAnsweredOnce` holds of it |
| `Moltstream.Bridge.HandleSend` | cmd/moltstream/main.go:213-226 | the new state is `OnSend` of the old |
| `Moltstream.Bridge.HandleStatus` | cmd/moltstream/main.go:228-235 | the new state is `OnStatus` of the old |
| `Moltstream.Bridge.HandleReconnect` | cmd/moltstream/main.go:237-243 | the new state is `OnReconnect` of the old |
| `Moltstream.Bridge.HandleArchive` | cmd/moltstream/main.go:245-252 | the new state, session files included, is `OnArchive` of the old |
| `Moltstream.Bridge.HandleSessionPath` | cmd/moltstream/main.go:254-261 | the new state, session files included, is `OnSessionPath` of the old |
| `Moltstream.Bridge.HandleGatewayMessage` | cmd/moltstream/main.go:263-273 | the new state is `OnGatewayMessage` of the old, so `GatewayMessageRule` holds of it |
| `Moltstream.Bridge.HandleGatewayError` | cmd/moltstream/main.go:275-279 | the new state is `OnGatewayError` of the old, so `GatewayErrorNotifies` holds of it |
| `Moltstream.NewBridge` | cmd/moltstream/main.go:120-139 | a fresh bridge over the new session manager, with nothing pending or written, or nil and "session manager: " plus the manager's error |

## Left out

- The gateway client (internal/gateway/client.go) runs the `openclaw` command and reads its output on goroutines. It is not part of this model. For each line, the bridge sees only the client's IsConnected, Send and Reconnect answers, given as parameters. Its callbacks are the bridge methods `HandleGatewayMessage` and `HandleGatewayError`. `Bridge.Run` models the read loop alone and runs no callback between its lines, so `Moltstream.RunAnswersEachRequest` ("never a notification") is about the loop's own output; the deferred response is stated separately, over a send followed by gateway messages (`Moltstream.SendAnsweredWhenDone`).
- The code has no challenge-response handshake, no run-identifier tracking and no cumulative-delta computation, so the model has none of these.
- Concurrency: Send's goroutines can call `onMessage` before `b.reqID = id` is assigned. The model is sequential, so this race is absent.
- loadConfig (YAML, defaults, os.UserHomeDir), the token environment-variable substitution, signal handling, os.Exit and Close are foreign I/O and are not modelled.
- encoding/json: input lines arrive already classified as blank, unreadable, malformed or a decoded request, and payloads are JSON value trees. JSON ids outside Go's 64-bit `int` fail to decode, and no arithmetic is done on ids, so ids are unbounded integers. The same reasoning covers sizes.
- The real filesystem: os.Stat, os.WriteFile, os.Rename and os.MkdirAll act on the abstract `Fs`, and their errors are parameters.
- `Session.Manager.CreateSession`: a failed write is taken to leave the log as it was. A write that truncates or half-writes the file is not modelled.
- `Session.Join`: filepath.Join also applies filepath.Clean. The model drops a `.` or `./` directory and does not double a trailing '/', but does not remove `.` or `..` elements inside a path, repeated '/', or more than one trailing '/'. Its paths agree with Go's when the expanded directory is clean (`.` and `/` included), or is `./`, or is a clean directory other than `/` followed by one '/'; for `//`, say, the model gives `//session.md` where Go gives `/session.md`.
- time.Now and generateID are caller-supplied strings (`Session.Clock`). Their formats are not checked.
- `Session.ExpandHome` requires at least two characters, where Go requires two bytes. A directory made of one multi-byte character is accepted by Go and excluded here.
- The log.Printf of a standard-input error is logging and is not modelled.
