/**
  JSON-RPC 2.0 as the session client speaks it: the request objects it posts
  (section 4 of the JSON-RPC 2.0 specification, always with method "call"), how it
  reads a response object (section 5), and a server-side reading of a request
  object that the client's envelopes are checked against.
 */
module JsonRpc {
  import opened JsValues

  /** An HTTP POST: target URL and JSON body. */
  datatype Post = Post(url: string, body: Js)

  /** How the transport settled a post: with the parsed response body, or
      rejected (network failure, timeout, HTTP error status). */
  datatype Reply = Delivered(data: Js) | Failed

  /** A request object: `{jsonrpc: "2.0", method: "call", params, id}`. */
  function Request(params: Js, id: int): Js {
    Obj(map["jsonrpc" := Str("2.0"), "method" := Str("call"), "params" := params, "id" := Num(id)])
  }

  /** Parameters of the authentication call. */
  function AuthParams(db: Js, login: Js, password: Js): Js {
    Object3("db", db, "login", login, "password", password)
  }

  /** Parameters of an object-service call. */
  function ObjectParams(name: Js, args: seq<Js>, kwargs: Js): Js {
    Obj(map["service" := Str("object"), "method" := name, "args" := Arr(args), "kwargs" := kwargs])
  }

  /** Reading a delivered response body: an `error` member that is truthy fails
      the call with its message (or a fixed text when the message is falsy);
      otherwise the `result` member is returned as it is. */
  function ReadResponse(data: Js): (r: Outcome<Js>)
    ensures r.Return? <==> !data.Nullish() && !Truthy(Field(data, "error"))
    ensures r.Return? ==> r.value == Field(data, "result")
    ensures data.Nullish() ==> r == Throw(TypeError)
    ensures r.Throw? && !data.Nullish() ==> r.exc.Error? && Truthy(r.exc.message)
    ensures !data.Nullish() && Truthy(Field(data, "error")) ==>
              var message := Field(Field(data, "error"), "message");
              r == Throw(Error(if Truthy(message) then message else Str("API request failed")))
  {
    match Get(data, "error")
    case Throw(e) => Throw(e)
    case Return(error) =>
      if Truthy(error) then Throw(Error(Or(Field(error, "message"), Str("API request failed"))))
      else Return(Field(data, "result"))
  }

  /** What a call gives back for a reply: the response read as above, or the
      transport's rejection. */
  function Answer(reply: Reply): (r: Outcome<Js>)
    ensures reply.Failed? ==> r == Throw(NetworkError)
    ensures reply.Delivered? ==> r == ReadResponse(reply.data)
  {
    match reply
    case Failed => Throw(NetworkError)
    case Delivered(data) => ReadResponse(data)
  }

  // ---------------------------------------------------------------------------
  // Response objects a server sends (section 5 of the JSON-RPC 2.0 specification).

  function ResultResponse(result: Js, id: int): Js {
    Object3("jsonrpc", Str("2.0"), "result", result, "id", Num(id))
  }

  /** An error response; `error` is the error object, which holds `code`,
      `message` and, optionally, `data` (section 5.1). */
  function ErrorResponse(error: map<string, Js>, id: int): Js {
    Object3("jsonrpc", Str("2.0"), "error", Obj(error), "id", Num(id))
  }

  /** A success response yields its result unchanged. */
  lemma ReadResultResponse(result: Js, id: int)
    ensures ReadResponse(ResultResponse(result, id)) == Return(result)
  {
  }

  /** An error response fails with the server's message, or with the fixed text
      when the message is absent or empty. */
  lemma ReadErrorResponse(error: map<string, Js>, id: int)
    ensures "message" in error && Truthy(error["message"]) ==>
      ReadResponse(ErrorResponse(error, id)) == Throw(Error(error["message"]))
    ensures "message" !in error || !Truthy(error["message"]) ==>
      ReadResponse(ErrorResponse(error, id)) == Throw(Error(Str("API request failed")))
  {
  }

  // ---------------------------------------------------------------------------
  // The server's view of a request object.

  /** An object-service call as a server reads it from a request object. */
  datatype ObjectCall = ObjectCall(name: Js, args: seq<Js>, kwargs: Js)

  /** An authentication call as a server reads it. */
  datatype AuthCall = AuthCall(db: Js, login: Js, password: Js)

  /** Whether `body` is a JSON-RPC 2.0 request object for method "call" with a
      numeric id. */
  predicate IsCallRequest(body: Js) {
    Field(body, "jsonrpc") == Str("2.0") && Field(body, "method") == Str("call")
    && Field(body, "id").Num?
  }

  /** Decodes an object-service request; `None` if it is not one. */
  function DecodeObjectCall(body: Js): Option<ObjectCall> {
    var params := Field(body, "params");
    if IsCallRequest(body) && Field(params, "service") == Str("object") && Field(params, "args").Arr?
    then Some(ObjectCall(Field(params, "method"), Field(params, "args").items, Field(params, "kwargs")))
    else None
  }

  /** Decodes an authentication request; `None` if it is not one. */
  function DecodeAuthCall(body: Js): Option<AuthCall> {
    var params := Field(body, "params");
    if IsCallRequest(body) && params.Obj?
    then Some(AuthCall(Field(params, "db"), Field(params, "login"), Field(params, "password")))
    else None
  }

  /** An object-service envelope is a well-formed request that carries exactly
      the method, argument list and keyword arguments it was built from. */
  lemma ObjectRequestDecodes(name: Js, args: seq<Js>, kwargs: Js, id: int)
    ensures DecodeObjectCall(Request(ObjectParams(name, args, kwargs), id))
            == Some(ObjectCall(name, args, kwargs))
  {
  }

  /** Likewise for the authentication envelope. */
  lemma AuthRequestDecodes(db: Js, login: Js, password: Js, id: int)
    ensures DecodeAuthCall(Request(AuthParams(db, login, password), id))
            == Some(AuthCall(db, login, password))
  {
  }
}
