/** The response protocol shared by every handler: requests, the values they
    carry, and the two kinds of outgoing message. */
module Protocol {
  import opened Wrappers

  /** A reference to a live service instance, handed out by a connection. */
  type InstanceId = nat

  /** The JSON-like values that travel as call arguments and call results. */
  datatype Value =
    | Undefined
    | Null
    | Bool(b: bool)
    | Num(n: int)
    | Str(s: string)
    | List(items: seq<Value>)
    | Record(fields: map<string, Value>)

  /** A JavaScript error object, seen through its `name` and `message`. */
  datatype JsError = JsError(name: string, message: string)

  /** An incoming request. `tag` is the request's `type` field (the
      operation it asks for) and `methodName` its `method` field, both names
      being reserved words in Dafny; which other fields matter depends on
      the operation. */
  datatype Request = Request(
    id: string,
    tag: string,
    service: string,
    instance: InstanceId,
    methodName: string,
    args: seq<Value>)

  /** What a response may carry as its `result`. */
  datatype Payload =
    | Names(names: seq<string>)
    | Created(instance: InstanceId, exports: Option<seq<string>>)
    | Result(value: Value)

  /** An outgoing message: a response (`connection.send`) or an error
      (`connection.sendError`), the latter with an optional correlation id. */
  datatype Message =
    | Response(id: string, tag: string, result: Option<Payload>)
    | Error(name: string, message: string, correlation: Option<string>)

  const NewInstanceError: string := "NewInstanceError"
  const InstanceNotFound: string := "InstanceNotFound"
  const NoSuchMethod: string := "NoSuchMethod"

  /** `m` is a response that echoes the request's id and type. */
  predicate Echoes(m: Message, req: Request) {
    m.Response? && m.id == req.id && m.tag == req.tag
  }

  /** `m` can be matched to `req` by the client: an echoing response, or an
      error carrying the request's id. */
  predicate AnswersTo(m: Message, req: Request) {
    Echoes(m, req) || (m.Error? && m.correlation == Some(req.id))
  }

  /** The response shell every handler starts from. */
  function CreateResponse(req: Request): (m: Message)
    ensures m.Response? && Echoes(m, req) && m.result == None
  {
    Response(req.id, req.tag, None)
  }
}
