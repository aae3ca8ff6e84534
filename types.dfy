/** The values the core passes around: request and response maps, entities and error codes. */
module Types {
  import opened Wrappers

  /** A runtime exception raised by the JVM itself rather than by a collaborator. */
  datatype Fault = NullPointer | ClassCast | IndexOutOfBounds

  /** The message of a thrown exception; Java allows it to be null. */
  type Message = Option<string>

  /** UserDeclareEntity: one self-declared attribute set of a user. */
  datatype DeclareEntity = DeclareEntity(
    userId: Option<string>,
    orgId: Option<string>,
    persona: Option<string>,
    status: Option<string>,
    errorType: Option<string>,
    createdBy: Option<string>,
    updatedBy: Option<string>)

  /** A value held by a `Map<String, Object>` of the source. */
  datatype Value =
    | Null
    | Str(s: string)
    | Obj(fields: map<string, Value>)
    | List(items: seq<Value>)
    | Entity(entity: DeclareEntity)
    | Other  // any other Java object: a number, a boolean, ...

  /** Map.get: an absent key reads as null. */
  function Get(m: map<string, Value>, key: string): Value {
    if key in m then m[key] else Null
  }

  /** The cast `(String) v`: null passes, anything but a string throws. */
  function AsString(v: Value): Result<Option<string>, Fault> {
    match v
    case Null => Ok(None)
    case Str(s) => Ok(Some(s))
    case _ => Err(ClassCast)
  }

  /** The cast `(Map<String, Object>) v`. */
  function AsMap(v: Value): Result<Option<map<string, Value>>, Fault> {
    match v
    case Null => Ok(None)
    case Obj(m) => Ok(Some(m))
    case _ => Err(ClassCast)
  }

  /** The cast `(List<...>) v`. */
  function AsList(v: Value): Result<Option<seq<Value>>, Fault> {
    match v
    case Null => Ok(None)
    case List(xs) => Ok(Some(xs))
    case _ => Err(ClassCast)
  }

  /** ResponseParams: the status block of a response, as the log sees it. */
  datatype ResponseParams = ResponseParams(
    resmsgid: Option<string>,
    msgid: Option<string>,
    err: Option<string>,
    status: Option<string>,
    errmsg: Option<string>)

  /** Response: its result map and its (nullable) params. */
  datatype Response = Response(result: map<string, Value>, params: Option<ResponseParams>)

  /** `new Response()`: an empty result and no params. */
  function NewResponse(): Response {
    Response(map[], None)
  }

  /** The ResponseCode constants the core names; every other constant is OtherCode. */
  datatype ResponseCode =
    | InternalError
    | ServerError
    | DeclaredUserErrorStatusNotUpdated
    | OtherCode(name: string)

  /** A Java `Map<String, Object>` object, updated in place. */
  class AttributeMap {
    var entries: map<string, Value>

    constructor (entries: map<string, Value>)
      ensures this.entries == entries
    {
      this.entries := entries;
    }
  }

  /**
   * org.sunbird.common.request.Request: the operation name, the context map, the request id
   * of its RequestContext, and the request map, which handlers and loggers update in place.
   */
  class Request {
    const operation: string
    var context: map<string, Value>
    const requestId: string
    const payload: AttributeMap

    constructor (operation: string, context: map<string, Value>, requestId: string, payload: AttributeMap)
      ensures this.operation == operation && this.context == context
      ensures this.requestId == requestId && this.payload == payload
    {
      this.operation := operation;
      this.context := context;
      this.requestId := requestId;
      this.payload := payload;
    }
  }
}
