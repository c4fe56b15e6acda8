/** The JSON-RPC 2.0 records the bridge reads and writes on its standard streams, their
    constructors, and the error codes it uses (internal/protocol/messages.go). */
module Protocol {
  import opened Wrappers

  /** The protocol version every record carries in its "jsonrpc" member. */
  const VERSION := "2.0"

  /** A JSON value: what a record's params or result encodes to. Objects keep their members in the
      order json.Marshal writes them (struct field order; sorted keys for a Go map). */
  datatype Json =
    | JNull
    | JBool(b: bool)
    | JInt(i: int)
    | JString(s: string)
    | JArray(items: seq<Json>)
    | JObject(members: seq<(string, Json)>)

  /** A Go value handed to json.Marshal. Marshalling itself is not modelled: a value it can encode
      is given as the JSON it encodes to, a value it rejects (a channel, a function, a cyclic
      structure) as the error text json.Marshal returns for it. */
  datatype Payload = Encodable(json: Json) | Unencodable(reason: string)

  /** json.Marshal, on the abstraction above. */
  function Marshal(p: Payload): (r: Result<Json, string>)
    ensures r.Success? <==> p.Encodable?
  {
    match p
    case Encodable(j) => Success(j)
    case Unencodable(e) => Failure(e)
  }

  /** Request; `params` and `id` are omitted from the wire form when absent. */
  datatype Request = Request(jsonrpc: string, methodName: string, params: Option<Json>, id: Option<int>)

  datatype RPCError = RPCError(code: int, message: string)

  /** Response; `result`, `error` and `id` are omitted from the wire form when absent. */
  datatype Response = Response(jsonrpc: string, result: Option<Json>, error: Option<RPCError>, id: Option<int>)

  /** Notification: a record with no id member at all. */
  datatype Notification = Notification(jsonrpc: string, methodName: string, params: Option<Json>)

  /** A response as section 5 of the JSON-RPC 2.0 Specification requires it: the version tag, an
      id, and exactly one of a result and an error. */
  predicate ValidResponse(r: Response)
  {
    r.jsonrpc == VERSION && r.id.Some? && (r.result.Some? != r.error.Some?)
  }

  function NewRequest(methodName: string, params: Payload, id: int): (r: Result<Request, string>)
    ensures r.Success? <==> params.Encodable?
    ensures r.Failure? ==> r.error == params.reason
    ensures r.Success? ==> r.value.jsonrpc == VERSION && r.value.methodName == methodName
                           && r.value.id == Some(id) && r.value.params == Some(params.json)
  {
    match Marshal(params)
    case Failure(e) => Failure(e)
    case Success(p) => Success(Request(VERSION, methodName, Some(p), Some(id)))
  }

  function NewNotification(methodName: string, params: Payload): (r: Result<Notification, string>)
    ensures r.Success? <==> params.Encodable?
    ensures r.Failure? ==> r.error == params.reason
    ensures r.Success? ==> r.value.jsonrpc == VERSION && r.value.methodName == methodName
                           && r.value.params == Some(params.json)
  {
    match Marshal(params)
    case Failure(e) => Failure(e)
    case Success(p) => Success(Notification(VERSION, methodName, Some(p)))
  }

  function NewResponse(id: int, result: Payload): (r: Result<Response, string>)
    ensures r.Success? <==> result.Encodable?
    ensures r.Failure? ==> r.error == result.reason
    ensures r.Success? ==> ValidResponse(r.value) && r.value.id == Some(id)
                           && r.value.error == None && r.value.result == Some(result.json)
  {
    match Marshal(result)
    case Failure(e) => Failure(e)
    case Success(j) => Success(Response(VERSION, Some(j), None, Some(id)))
  }

  function NewErrorResponse(id: int, code: int, message: string): (r: Response)
    ensures ValidResponse(r) && r.id == Some(id)
    ensures r.result == None && r.error == Some(RPCError(code, message))
  {
    Response(VERSION, None, Some(RPCError(code, message)), Some(id))
  }

  /** The error codes the bridge reports. */
  datatype ErrorCode =
    | Parse
    | InvalidRequest
    | MethodNotFound
    | InvalidParams
    | Internal
    | NotConnected
    | GatewayError

  /** The codes section 5.1 of the JSON-RPC 2.0 Specification gives a fixed meaning. */
  predicate IsPredefined(c: int)
  {
    c == -32700 || c == -32600 || c == -32601 || c == -32602 || c == -32603
  }

  /** The block section 5.1 leaves to implementation-defined server errors. */
  predicate IsServerError(c: int)
  {
    -32099 <= c <= -32000
  }

  /** The code the JSON-RPC 2.0 Specification, section 5.1, assigns to each of its named errors. */
  function StandardCode(name: string): Option<int>
  {
    if name == "Parse error" then Some(-32700)
    else if name == "Invalid Request" then Some(-32600)
    else if name == "Method not found" then Some(-32601)
    else if name == "Invalid params" then Some(-32602)
    else if name == "Internal error" then Some(-32603)
    else None
  }

  /** The name section 5.1 gives to the error a code stands for, for the five standard ones. */
  function StandardName(e: ErrorCode): Option<string>
  {
    match e
    case Parse => Some("Parse error")
    case InvalidRequest => Some("Invalid Request")
    case MethodNotFound => Some("Method not found")
    case InvalidParams => Some("Invalid params")
    case Internal => Some("Internal error")
    case NotConnected => None
    case GatewayError => None
  }

  function Code(e: ErrorCode): (c: int)
    ensures c < 0
    ensures -32768 <= c <= -32000
    ensures IsServerError(c) <==> e.NotConnected? || e.GatewayError?
    ensures IsPredefined(c) <==> !(e.NotConnected? || e.GatewayError?)
  {
    match e
    case Parse => -32700
    case InvalidRequest => -32600
    case MethodNotFound => -32601
    case InvalidParams => -32602
    case Internal => -32603
    case NotConnected => -32000
    case GatewayError => -32001
  }

  /** The five standard codes are the ones section 5.1 assigns to the errors of the same name. */
  lemma StandardCodesMatchSpecification(e: ErrorCode)
    requires StandardName(e).Some?
    ensures StandardCode(StandardName(e).value) == Some(Code(e))
  {
  }

  /** No two error kinds share a code. */
  lemma CodesDistinct(a: ErrorCode, b: ErrorCode)
    ensures Code(a) == Code(b) ==> a == b
  {
  }
}
