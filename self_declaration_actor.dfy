/**
 * UserSelfDeclarationManagementActor: routes the three self-declaration operations and runs
 * them against collaborators that are parameters of the model. Each handler yields the calls it
 * made to the outside (store, validation, encryption, reply to the sender, telemetry) in order,
 * and the exception it raised, if any.
 */
module SelfDeclarationActor {
  import opened Wrappers
  import opened JavaText
  import opened Types
  import JsonKey

  const ActorName := "UserSelfDeclarationManagementActor"

  // ---------------------------------------------------------------------------------------------
  // Collaborators, calls and outcomes

  /**
   * The code the actor reaches but this model does not contain: Util.initializeContext,
   * Request.toLower, the UserUtil helpers and UserSelfDeclarationService. A collaborator that may
   * throw returns Err with the exception's message.
   */
  datatype Services = Services(
    initializeContext: map<string, Value> -> map<string, Value>,
    toLower: map<string, Value> -> map<string, Value>,
    validateExternalIds: map<string, Value> -> Result<map<string, Value>, Message>,
    encryptDeclarationFields: (seq<Value>, map<string, Value>) -> Result<seq<Value>, Message>,
    createUserDeclaredObject: (Option<map<string, Value>>, Option<string>) -> Result<DeclareEntity, Message>,
    saveDeclarations: map<string, Value> -> Result<Response, Message>,
    updateSelfDeclaration: DeclareEntity -> Result<(), Message>,
    faultMessage: Fault -> Message)  // the JVM's detail message of its own exceptions

  /** One call from the actor to the outside, with its arguments. */
  datatype Call =
    | Validate(request: map<string, Value>)
    | Encrypt(declarations: seq<Value>, user: map<string, Value>)
    | Save(request: map<string, Value>)
    | UpdateStatus(entity: DeclareEntity)
    | Reply(response: Response)
    | Telemetry(targetId: Option<string>, env: string, action: string,
                request: map<string, Value>, context: map<string, Value>)

  /** An exception a handler lets escape: the sender gets no reply from the handler after it. */
  datatype ActorError =
    | ServerErrorWith(code: ResponseCode, message: Message)  // throwServerErrorException(code, message)
    | ServerErrorOf(code: ResponseCode)                      // throwServerErrorException(code)
    | UnsupportedOperation(actor: string)                    // onReceiveUnsupportedOperation
    | Escaped(message: Message)                              // a collaborator's exception, not caught
    | RuntimeFault(fault: Fault)                             // a JVM exception, not caught

  /** The calls a handler made, in order, and the exception it ended with. */
  datatype Handled = Handled(calls: seq<Call>, raised: Option<ActorError>)

  /** Neither a reply nor a telemetry event among `calls`. */
  predicate Quiet(calls: seq<Call>) {
    forall i :: 0 <= i < |calls| ==> !calls[i].Reply? && !calls[i].Telemetry?
  }

  // ---------------------------------------------------------------------------------------------
  // onReceive

  /** The three handlers of onReceive. */
  datatype Handler = UpdateDeclarations | UpdateErrorType | UpsertDeclarations

  /** The operation name each handler answers to. */
  function OperationName(h: Handler): string {
    match h
    case UpdateDeclarations => "updateUserDeclarations"
    case UpdateErrorType => "updateUserSelfDeclarationsErrorType"
    case UpsertDeclarations => "upsertUserSelfDeclarations"
  }

  /** The switch of onReceive: a name selects the handler answering to it, and no other name
      selects any handler. */
  function Route(operation: string): (h: Option<Handler>)
    ensures h.Some? ==> OperationName(h.value) == operation
    ensures h.None? ==> forall x: Handler :: OperationName(x) != operation
  {
    if operation == "updateUserDeclarations" then Some(UpdateDeclarations)
    else if operation == "updateUserSelfDeclarationsErrorType" then Some(UpdateErrorType)
    else if operation == "upsertUserSelfDeclarations" then Some(UpsertDeclarations)
    else None
  }

  /** Every handler is reached by its own name and by no other. */
  lemma RouteSelectsOwnHandler(h: Handler, operation: string)
    ensures Route(OperationName(h)) == Some(h)
    ensures Route(operation) == Some(h) <==> operation == OperationName(h)
  {
    match h
    case UpdateDeclarations =>
    case UpdateErrorType =>
    case UpsertDeclarations =>
  }

  /**
   * onReceive: each of the three names runs exactly its own handler; any other name raises the
   * unsupported-operation error naming the actor, with no call and no change to the request.
   */
  method OnReceive(request: Request, svc: Services) returns (handled: Handled)
    modifies request, request.payload
    ensures Route(request.operation) == Some(UpdateDeclarations) ==>
      Update(handled, request.payload.entries, request.context) ==
      DeclarationsUpdate(old(request.payload.entries), old(request.context), svc)
    ensures Route(request.operation) == Some(UpdateErrorType) ==>
      handled == ErrorStatusUpdate(old(request.payload.entries), svc)
    ensures Route(request.operation) == Some(UpsertDeclarations) ==>
      handled == DetailsUpsert(old(request.payload.entries), svc)
    ensures Route(request.operation) == None ==>
      handled == Handled([], Some(UnsupportedOperation(ActorName)))
    ensures Route(request.operation) != Some(UpdateDeclarations) ==>
      request.payload.entries == old(request.payload.entries) && request.context == old(request.context)
  {
    match Route(request.operation)
    case Some(UpdateDeclarations) =>
      handled := UpdateUserDeclarations(request, svc);
    case Some(UpdateErrorType) =>
      handled := ErrorStatusUpdate(request.payload.entries, svc);
    case Some(UpsertDeclarations) =>
      handled := DetailsUpsert(request.payload.entries, svc);
    case None =>
      handled := Handled([], Some(UnsupportedOperation(ActorName)));
  }

  // ---------------------------------------------------------------------------------------------
  // updateUserSelfDeclaredErrorStatus

  /** The guard of updateUserSelfDeclaredErrorStatus. */
  predicate AcceptsErrorStatus(e: DeclareEntity) {
    e.status == Some(JsonKey.SelfDeclaredError) && !IsEmpty(e.errorType)
  }

  /** The `{response: SUCCESS}` reply. */
  function SuccessResponse(): Response {
    Response(map[JsonKey.Response := Str(JsonKey.Success)], None)
  }

  /** The entity the request map holds under DECLARATIONS. */
  function DeclaredEntity(payload: map<string, Value>): Option<DeclareEntity> {
    if Get(payload, JsonKey.Declarations).Entity? then Some(Get(payload, JsonKey.Declarations).entity) else None
  }

  /**
   * updateUserSelfDeclaredErrorStatus: the store is updated exactly when the entity's status is
   * SELF_DECLARED_ERROR and its errorType is non-empty, and SUCCESS is replied exactly when that
   * update also returns; an entity failing the guard raises declaredUserErrorStatusNotUpdated
   * with no call at all. A throwing store escapes with its own exception, a null DECLARATIONS is
   * dereferenced and any other value fails the cast to UserDeclareEntity.
   */
  function ErrorStatusUpdate(payload: map<string, Value>, svc: Services): (r: Handled)
    ensures |r.calls| > 0 <==>
      DeclaredEntity(payload).Some? && AcceptsErrorStatus(DeclaredEntity(payload).value)
    ensures |r.calls| > 0 ==> r.calls[0] == UpdateStatus(DeclaredEntity(payload).value)
    ensures r.raised.None? <==>
      && DeclaredEntity(payload).Some? && AcceptsErrorStatus(DeclaredEntity(payload).value)
      && svc.updateSelfDeclaration(DeclaredEntity(payload).value).Ok?
    ensures r.raised.None? ==> r.calls == [UpdateStatus(DeclaredEntity(payload).value), Reply(SuccessResponse())]
    ensures r.raised.Some? ==> Quiet(r.calls)
    ensures DeclaredEntity(payload).Some? && !AcceptsErrorStatus(DeclaredEntity(payload).value) ==>
      r == Handled([], Some(ServerErrorOf(DeclaredUserErrorStatusNotUpdated)))
    ensures DeclaredEntity(payload).Some? && AcceptsErrorStatus(DeclaredEntity(payload).value) &&
            svc.updateSelfDeclaration(DeclaredEntity(payload).value).Err? ==>
      r == Handled([UpdateStatus(DeclaredEntity(payload).value)],
                   Some(Escaped(svc.updateSelfDeclaration(DeclaredEntity(payload).value).error)))
    ensures Get(payload, JsonKey.Declarations) == Null ==> r == Handled([], Some(RuntimeFault(NullPointer)))
    ensures Get(payload, JsonKey.Declarations) != Null && DeclaredEntity(payload).None? ==>
      r == Handled([], Some(RuntimeFault(ClassCast)))
  {
    match Get(payload, JsonKey.Declarations)
    case Null => Handled([], Some(RuntimeFault(NullPointer)))     // getStatus() on null
    case Entity(e) =>
      if AcceptsErrorStatus(e) then
        match svc.updateSelfDeclaration(e)
        case Err(msg) => Handled([UpdateStatus(e)], Some(Escaped(msg)))
        case Ok(_) => Handled([UpdateStatus(e), Reply(SuccessResponse())], None)
      else Handled([], Some(ServerErrorOf(DeclaredUserErrorStatusNotUpdated)))
    case _ => Handled([], Some(RuntimeFault(ClassCast)))          // (UserDeclareEntity) cast
  }

  // ---------------------------------------------------------------------------------------------
  // upsertUserSelfDeclaredDetails

  /** upsertUserSelfDeclaredDetails: the request map goes to the store as it is, and the store's
      response is replied verbatim; a throwing store escapes with no reply. */
  function DetailsUpsert(payload: map<string, Value>, svc: Services): (r: Handled)
    ensures |r.calls| >= 1 && r.calls[0] == Save(payload)
    ensures r.raised.None? <==> svc.saveDeclarations(payload).Ok?
    ensures r.raised.None? ==> r.calls == [Save(payload), Reply(svc.saveDeclarations(payload).value)]
    ensures r.raised.Some? ==> r == Handled([Save(payload)], Some(Escaped(svc.saveDeclarations(payload).error)))
  {
    match svc.saveDeclarations(payload)
    case Err(msg) => Handled([Save(payload)], Some(Escaped(msg)))
    case Ok(response) => Handled([Save(payload), Reply(response)], None)
  }

  // ---------------------------------------------------------------------------------------------
  // updateUserDeclarations

  /** The declarations list of the request map, if it is a list. */
  function DeclarationList(userMap: map<string, Value>): seq<Value> {
    match AsList(Get(userMap, JsonKey.Declarations))
    case Ok(Some(xs)) => xs
    case _ => []
  }

  /**
   * `declarations.get(0)` as a map. It succeeds exactly when the declarations list is a non-empty
   * list whose first element is a map; otherwise the cast of a non-list or of a non-map first
   * element fails, a null list or a null first element is dereferenced, or the empty list is
   * indexed out of bounds.
   */
  function FirstDeclaration(userMap: map<string, Value>): (r: Result<map<string, Value>, Fault>)
    ensures r.Ok? <==> |DeclarationList(userMap)| > 0 && DeclarationList(userMap)[0].Obj?
    ensures r.Ok? ==> DeclarationList(userMap)[0] == Obj(r.value)
    ensures AsList(Get(userMap, JsonKey.Declarations)).Err? ==> r == Err(ClassCast)
    ensures Get(userMap, JsonKey.Declarations) == Null ==> r == Err(NullPointer)
    ensures Get(userMap, JsonKey.Declarations) == List([]) ==> r == Err(IndexOutOfBounds)
    ensures |DeclarationList(userMap)| > 0 && DeclarationList(userMap)[0] == Null ==> r == Err(NullPointer)
    ensures |DeclarationList(userMap)| > 0 && AsMap(DeclarationList(userMap)[0]).Err? ==> r == Err(ClassCast)
  {
    match AsList(Get(userMap, JsonKey.Declarations))
    case Err(f) => Err(f)
    case Ok(None) => Err(NullPointer)
    case Ok(Some(xs)) =>
      if |xs| == 0 then Err(IndexOutOfBounds)
      else match AsMap(xs[0])
        case Err(f) => Err(f)
        case Ok(None) => Err(NullPointer)
        case Ok(Some(first)) => Ok(first)
  }

  /** The request map with USER_ID taken from the first declaration. */
  function Subject(userMap: map<string, Value>, first: map<string, Value>): map<string, Value> {
    userMap[JsonKey.UserId := Get(first, JsonKey.UserId)]
  }

  /** One iteration of the entity loop: the cast to a map and createUserDeclaredObject. */
  function BuildEntity(declaration: Value, callerId: Option<string>, svc: Services): Result<DeclareEntity, Message> {
    match AsMap(declaration)
    case Err(f) => Err(svc.faultMessage(f))
    case Ok(fields) => svc.createUserDeclaredObject(fields, callerId)
  }

  /**
   * The entity loop: it completes exactly when every declaration yields an entity, and then holds
   * one entity per declaration, in order; otherwise it stops with the error of the first failing one.
   */
  function BuildEntities(declarations: seq<Value>, callerId: Option<string>, svc: Services)
    : (r: Result<seq<DeclareEntity>, Message>)
    ensures r.Ok? <==> forall i :: 0 <= i < |declarations| ==> BuildEntity(declarations[i], callerId, svc).Ok?
    ensures r.Ok? ==> (|r.value| == |declarations| &&
      forall i :: 0 <= i < |declarations| ==> r.value[i] == BuildEntity(declarations[i], callerId, svc).value)
    ensures r.Err? ==> (exists j :: (0 <= j < |declarations| &&
      (forall i :: 0 <= i < j ==> BuildEntity(declarations[i], callerId, svc).Ok?) &&
      BuildEntity(declarations[j], callerId, svc) == Err(r.error)))
  {
    if declarations == [] then Ok([])
    else match BuildEntity(declarations[0], callerId, svc)
      case Err(msg) => Err(msg)
      case Ok(e) =>
        match BuildEntities(declarations[1..], callerId, svc)
        case Err(msg) => Err(msg)
        case Ok(rest) => Ok([e] + rest)
  }

  /** The entity list as it is put into the request map. */
  function EntityValues(entities: seq<DeclareEntity>): seq<Value> {
    seq(|entities|, i requires 0 <= i < |entities| => Entity(entities[i]))
  }

  /** The request map, the calls so far, the response and errMsgs at the end of the try block. */
  datatype TryState = TryState(userMap: map<string, Value>, calls: seq<Call>, response: Response, errMsgs: seq<Message>)

  /**
   * The second half of the try block of updateUserDeclarations, once the validated user is known:
   * the declarations are encrypted, one entity is built per encrypted declaration, and the request
   * map with its declarations replaced by those entities is saved; the save is reached exactly when
   * encryption and every entity build succeed. errMsgs is empty exactly when the store returned,
   * in which case the response is the store's; otherwise it holds the message of the encryption,
   * build or store exception, and the request map is as that step left it.
   */
  function SaveBatch(subject: map<string, Value>, declarations: seq<Value>, user: map<string, Value>,
                     callerId: Option<string>, svc: Services): (t: TryState)
    ensures Quiet(t.calls) && 1 <= |t.calls| <= 2 && |t.errMsgs| <= 1
    ensures t.calls[0] == Encrypt(declarations, user)
    ensures |t.calls| == 2 ==>
      var encrypted := svc.encryptDeclarationFields(declarations, user);
      && encrypted.Ok?
      && BuildEntities(encrypted.value, callerId, svc).Ok?
      && t.userMap == subject[JsonKey.Declarations :=
                        List(EntityValues(BuildEntities(encrypted.value, callerId, svc).value))]
      && t.calls[1] == Save(t.userMap)
    ensures
      var encrypted := svc.encryptDeclarationFields(declarations, user);
      encrypted.Ok? && BuildEntities(encrypted.value, callerId, svc).Ok? ==> |t.calls| == 2
    ensures t.errMsgs == [] <==> |t.calls| == 2 && svc.saveDeclarations(t.userMap).Ok?
    ensures t.errMsgs == [] ==> t.response == svc.saveDeclarations(t.userMap).value
    ensures t.errMsgs != [] ==> t.response == NewResponse()
    ensures
      var encrypted := svc.encryptDeclarationFields(declarations, user);
      && (encrypted.Err? ==> t == TryState(subject, t.calls, NewResponse(), [encrypted.error]))
      && (encrypted.Ok? && BuildEntities(encrypted.value, callerId, svc).Err? ==>
            t == TryState(subject[JsonKey.Declarations := List(encrypted.value)], t.calls, NewResponse(),
                          [BuildEntities(encrypted.value, callerId, svc).error]))
    ensures |t.calls| == 2 && svc.saveDeclarations(t.userMap).Err? ==>
      t.errMsgs == [svc.saveDeclarations(t.userMap).error]
    ensures JsonKey.UserId in subject ==>
      JsonKey.UserId in t.userMap && t.userMap[JsonKey.UserId] == subject[JsonKey.UserId]
  {
    var encrypting := [Encrypt(declarations, user)];
    match svc.encryptDeclarationFields(declarations, user)
    case Err(msg) => TryState(subject, encrypting, NewResponse(), [msg])
    case Ok(encrypted) =>
      // the declaration maps are encrypted in place, inside the request map's list
      var withEncrypted := subject[JsonKey.Declarations := List(encrypted)];
      match BuildEntities(encrypted, callerId, svc)
      case Err(msg) => TryState(withEncrypted, encrypting, NewResponse(), [msg])
      case Ok(entities) =>
        var toSave := subject[JsonKey.Declarations := List(EntityValues(entities))];
        var saving := encrypting + [Save(toSave)];
        match svc.saveDeclarations(toSave)
        case Err(msg) => TryState(toSave, saving, NewResponse(), [msg])
        case Ok(response) => TryState(toSave, saving, response, [])
  }

  /**
   * The try block of updateUserDeclarations. A missing, empty or malformed declarations list fails
   * before any call. Otherwise USER_ID is set from the first declaration before validation, and a
   * successful validation is followed by encryption; when encryption and every entity build
   * succeed, the request map with one entity per encrypted declaration in place of the declarations
   * is saved. errMsgs is empty exactly when the store returned, in which case the response is the
   * store's; otherwise it holds the message of the one exception that stopped the block.
   */
  function TryBlock(userMap: map<string, Value>, callerId: Option<string>, svc: Services): (t: TryState)
    ensures Quiet(t.calls) && |t.calls| <= 3 && |t.errMsgs| <= 1
    ensures SavedLast(t, svc)
    ensures FirstDeclaration(userMap).Err? ==>
      t == TryState(userMap, [], NewResponse(), [svc.faultMessage(FirstDeclaration(userMap).error)])
    ensures FirstDeclaration(userMap).Ok? ==>
      && |t.calls| >= 1
      && t.calls[0] == Validate(Subject(userMap, FirstDeclaration(userMap).value))
      && JsonKey.UserId in t.userMap
      && t.userMap[JsonKey.UserId] == Get(FirstDeclaration(userMap).value, JsonKey.UserId)
    ensures (FirstDeclaration(userMap).Ok? &&
             svc.validateExternalIds(Subject(userMap, FirstDeclaration(userMap).value)).Ok?) ==> |t.calls| >= 2
    ensures |t.calls| >= 2 ==>
      && svc.validateExternalIds(t.calls[0].request).Ok?
      && t.calls[1] == Encrypt(DeclarationList(userMap), svc.validateExternalIds(t.calls[0].request).value)
    ensures |t.calls| == 3 ==>
      var encrypted := svc.encryptDeclarationFields(t.calls[1].declarations, t.calls[1].user);
      && encrypted.Ok?
      && BuildEntities(encrypted.value, callerId, svc).Ok?
      && t.userMap == t.calls[0].request[JsonKey.Declarations :=
                        List(EntityValues(BuildEntities(encrypted.value, callerId, svc).value))]
      && t.calls[2] == Save(t.userMap)
    ensures |t.calls| >= 2 ==>
      var encrypted := svc.encryptDeclarationFields(t.calls[1].declarations, t.calls[1].user);
      encrypted.Ok? && BuildEntities(encrypted.value, callerId, svc).Ok? ==> |t.calls| == 3
    ensures t.errMsgs == [] <==> |t.calls| == 3 && svc.saveDeclarations(t.userMap).Ok?
    ensures t.errMsgs == [] ==> t.response == svc.saveDeclarations(t.userMap).value
    ensures t.errMsgs != [] ==> t.response == NewResponse()
    ensures FirstDeclaration(userMap).Ok? ==>
      var subject := Subject(userMap, FirstDeclaration(userMap).value);
      svc.validateExternalIds(subject).Err? ==>
        t == TryState(subject, [Validate(subject)], NewResponse(), [svc.validateExternalIds(subject).error])
    ensures |t.calls| >= 2 ==>
      var encrypted := svc.encryptDeclarationFields(t.calls[1].declarations, t.calls[1].user);
      && (encrypted.Err? ==> t.errMsgs == [encrypted.error])
      && (encrypted.Ok? && BuildEntities(encrypted.value, callerId, svc).Err? ==>
            t.errMsgs == [BuildEntities(encrypted.value, callerId, svc).error])
    ensures |t.calls| == 3 && svc.saveDeclarations(t.userMap).Err? ==>
      t.errMsgs == [svc.saveDeclarations(t.userMap).error]
    ensures |t.calls| == 2 ==>
      var encrypted := svc.encryptDeclarationFields(t.calls[1].declarations, t.calls[1].user);
      t.userMap == if encrypted.Err? then t.calls[0].request
                   else t.calls[0].request[JsonKey.Declarations := List(encrypted.value)]
  {
    match FirstDeclaration(userMap)
    case Err(f) => TryState(userMap, [], NewResponse(), [svc.faultMessage(f)])
    case Ok(first) =>
      var subject := Subject(userMap, first);
      match svc.validateExternalIds(subject)
      case Err(msg) => TryState(subject, [Validate(subject)], NewResponse(), [msg])
      case Ok(user) =>
        var rest := SaveBatch(subject, DeclarationList(userMap), user, callerId, svc);
        TryState(rest.userMap, [Validate(subject)] + rest.calls, rest.response, rest.errMsgs)
  }

  /** The save result carries a non-empty ERROR_MSG list. */
  predicate HasStoreErrors(response: Response) {
    match AsList(Get(response.result, JsonKey.ErrorMsg))
    case Ok(Some(errors)) => |errors| > 0
    case _ => false
  }

  /** CALLER_ID of the initialised context. */
  function CallerIdOf(context: map<string, Value>, svc: Services): Result<Option<string>, Fault> {
    AsString(Get(svc.initializeContext(context), JsonKey.CallerId))
  }

  /** The handler's outcome, the request map and the request context it leaves. */
  datatype Update = Update(handled: Handled, payload: map<string, Value>, context: map<string, Value>)

  /**
   * updateUserDeclarations. Any exception in the try block ends in internalError carrying its
   * message, with no reply and no telemetry; a save result with store errors and no captured
   * exception fails on errMsgs.get(0), again with no reply. A reply is sent only for a store
   * response without store errors, right after the save, and is followed by exactly one telemetry
   * event targeting the request map's USER_ID with action Update. Conversely, a try block that
   * proceeds is always replied to, and with a USER_ID that casts the handler succeeds.
   */
  function DeclarationsUpdate(payload: map<string, Value>, context: map<string, Value>, svc: Services)
    : (r: Update)
    ensures r.context == svc.initializeContext(context)
    ensures CallerIdOf(context, svc).Err? ==>
      r.handled == Handled([], Some(RuntimeFault(ClassCast))) && r.payload == payload
    ensures CallerIdOf(context, svc).Ok? ==>
      var t := TryBlock(svc.toLower(payload), CallerIdOf(context, svc).value, svc);
      r.payload == t.userMap && EndsAfter(t, r.handled, r.context)
    ensures forall i :: 0 <= i < |r.handled.calls| && r.handled.calls[i].Reply? ==>
      && i == 3 && r.handled.calls[2].Save?
      && svc.saveDeclarations(r.handled.calls[2].request) == Ok(r.handled.calls[i].response)
      && !HasStoreErrors(r.handled.calls[i].response)
    ensures forall i :: 0 <= i < |r.handled.calls| && r.handled.calls[i].Telemetry? ==>
      i == 4 && r.handled.calls[3].Reply? && r.handled.raised.None?
    ensures r.handled.raised.None? ==>
      && |r.handled.calls| == 5
      && Quiet(r.handled.calls[..3]) && r.handled.calls[3].Reply?
      && AsString(Get(r.payload, JsonKey.UserId)).Ok?
      && r.handled.calls[4] == TelemetryOf(r.payload, r.context)
  {
    var ctx := svc.initializeContext(context);
    match AsString(Get(ctx, JsonKey.CallerId))
    case Err(f) => Update(Handled([], Some(RuntimeFault(f))), payload, ctx)
    case Ok(callerId) =>
      var t := TryBlock(svc.toLower(payload), callerId, svc);
      ConclusionCalls(t, ctx, svc);
      Conclusion(t, ctx)
  }

  /** The try block ended with its calls quiet, at most three of them, and with the save as its
      last call when no exception was captured. */
  predicate SavedLast(t: TryState, svc: Services) {
    && Quiet(t.calls) && |t.calls| <= 3
    && (t.errMsgs == [] ==>
          |t.calls| == 3 && t.calls[2] == Save(t.userMap) && svc.saveDeclarations(t.userMap) == Ok(t.response))
    && (t.errMsgs != [] ==> t.response == NewResponse())
  }

  /** After such a try block, a reply can only be the fourth call and sends the saved result, a
      telemetry event can only be the fifth, and a handler that ends without an exception made
      exactly five calls. */
  lemma ConclusionCalls(t: TryState, ctx: map<string, Value>, svc: Services)
    requires SavedLast(t, svc)
    ensures EndsAfter(t, Conclusion(t, ctx).handled, ctx)
    ensures var calls := Conclusion(t, ctx).handled.calls;
      forall i :: 0 <= i < |calls| && calls[i].Reply? ==>
        && i == 3 && calls[2].Save?
        && svc.saveDeclarations(calls[2].request) == Ok(calls[i].response)
        && !HasStoreErrors(calls[i].response)
    ensures var r := Conclusion(t, ctx);
      forall i :: 0 <= i < |r.handled.calls| && r.handled.calls[i].Telemetry? ==>
        i == 4 && r.handled.calls[3].Reply? && r.handled.raised.None?
    ensures var r := Conclusion(t, ctx);
      r.handled.raised.None? ==>
        && |r.handled.calls| == 5
        && Quiet(r.handled.calls[..3]) && r.handled.calls[3].Reply?
        && AsString(Get(r.payload, JsonKey.UserId)).Ok?
        && r.handled.calls[4] == TelemetryOf(r.payload, r.context)
  {
  }

  /** The try block ended with no captured exception, and the save result's ERROR_MSG casts to a
      list that is null or empty. */
  predicate Proceeds(t: TryState) {
    t.errMsgs == [] && AsList(Get(t.response.result, JsonKey.ErrorMsg)).Ok? && !HasStoreErrors(t.response)
  }

  /**
   * How updateUserDeclarations ends after a try block that left `t`: a captured exception raises
   * internalError with the first message; otherwise a non-list ERROR_MSG fails its cast and a
   * non-empty one fails on errMsgs.get(0); a try block that proceeds is replied to with the
   * store's response and, when USER_ID is a string or null, ends without an exception after one
   * telemetry event; any other USER_ID fails its cast right after the reply.
   */
  predicate EndsAfter(t: TryState, h: Handled, ctx: map<string, Value>) {
    && (t.errMsgs != [] ==> h == Handled(t.calls, Some(ServerErrorWith(InternalError, t.errMsgs[0]))))
    && (t.errMsgs == [] && HasStoreErrors(t.response) ==> h == Handled(t.calls, Some(RuntimeFault(IndexOutOfBounds))))
    && (t.errMsgs == [] && AsList(Get(t.response.result, JsonKey.ErrorMsg)).Err? ==>
          h == Handled(t.calls, Some(RuntimeFault(ClassCast))))
    && (Proceeds(t) ==> |h.calls| > |t.calls| && h.calls[|t.calls|] == Reply(t.response))
    && (Proceeds(t) && AsString(Get(t.userMap, JsonKey.UserId)).Ok? ==>
          h == Handled(t.calls + [Reply(t.response), TelemetryOf(t.userMap, ctx)], None))
    && (Proceeds(t) && AsString(Get(t.userMap, JsonKey.UserId)).Err? ==>
          h == Handled(t.calls + [Reply(t.response)], Some(RuntimeFault(ClassCast))))
  }

  /** The telemetry event for the request map `userMap`, when its USER_ID casts to a string. */
  function TelemetryOf(userMap: map<string, Value>, context: map<string, Value>): Call
    requires AsString(Get(userMap, JsonKey.UserId)).Ok?
  {
    Telemetry(AsString(Get(userMap, JsonKey.UserId)).value, JsonKey.UserEnv, JsonKey.Update, userMap, context)
  }

  /**
   * The part of updateUserDeclarations after the try block. It adds no call unless the try block
   * proceeds; then it always replies with the store's response and, when USER_ID is a string or
   * null, emits the one telemetry event and ends without an exception, which is the only way to do
   * so; any other USER_ID fails its cast after the reply, with no further call.
   */
  function Conclusion(t: TryState, ctx: map<string, Value>): (r: Update)
    ensures r.payload == t.userMap && r.context == ctx
    ensures t.errMsgs != [] && t.response == NewResponse() ==>
      r.handled == Handled(t.calls, Some(ServerErrorWith(InternalError, t.errMsgs[0])))
    ensures t.errMsgs == [] && HasStoreErrors(t.response) ==>
      r.handled == Handled(t.calls, Some(RuntimeFault(IndexOutOfBounds)))
    ensures t.errMsgs == [] && AsList(Get(t.response.result, JsonKey.ErrorMsg)).Err? ==>
      r.handled == Handled(t.calls, Some(RuntimeFault(ClassCast)))
    ensures Proceeds(t) ==> |r.handled.calls| > |t.calls| && r.handled.calls[|t.calls|] == Reply(t.response)
    ensures Proceeds(t) && AsString(Get(t.userMap, JsonKey.UserId)).Ok? ==>
      r.handled == Handled(t.calls + [Reply(t.response), TelemetryOf(t.userMap, ctx)], None)
    ensures Proceeds(t) && AsString(Get(t.userMap, JsonKey.UserId)).Err? ==>
      r.handled == Handled(t.calls + [Reply(t.response)], Some(RuntimeFault(ClassCast)))
    ensures || (!Proceeds(t) && r.handled.calls == t.calls && r.handled.raised.Some?)
            || (Proceeds(t) && r.handled.calls == t.calls + [Reply(t.response)] && r.handled.raised.Some?)
            || (Proceeds(t) && AsString(Get(t.userMap, JsonKey.UserId)).Ok? && r.handled.raised.None? &&
                r.handled.calls == t.calls + [Reply(t.response), TelemetryOf(t.userMap, ctx)])
  {
    match AsList(Get(t.response.result, JsonKey.ErrorMsg))
    case Err(f) => Update(Handled(t.calls, Some(RuntimeFault(f))), t.userMap, ctx)
    case Ok(storeErrors) =>
      if (storeErrors.Some? && |storeErrors.value| > 0) || |t.errMsgs| > 0 then
        if |t.errMsgs| == 0 then Update(Handled(t.calls, Some(RuntimeFault(IndexOutOfBounds))), t.userMap, ctx)
        else Update(Handled(t.calls, Some(ServerErrorWith(InternalError, t.errMsgs[0]))), t.userMap, ctx)
      else
        var replied := t.calls + [Reply(t.response)];
        match AsString(Get(t.userMap, JsonKey.UserId))
        case Err(f) => Update(Handled(replied, Some(RuntimeFault(f))), t.userMap, ctx)
        case Ok(targetId) =>
          var telemetry := Telemetry(targetId, JsonKey.UserEnv, JsonKey.Update, t.userMap, ctx);
          Update(Handled(replied + [telemetry], None), t.userMap, ctx)
  }

  /**
   * A run in which every collaborator returns, the save result has no store errors and USER_ID
   * casts to a string succeeds: validate, encrypt, save, the reply of the store's response and
   * the one telemetry event, in that order.
   */
  lemma CleanRunSucceeds(payload: map<string, Value>, context: map<string, Value>, svc: Services)
    requires CallerIdOf(context, svc).Ok?
    requires |DeclarationList(svc.toLower(payload))| > 0 && DeclarationList(svc.toLower(payload))[0].Obj?
    requires AsString(Get(DeclarationList(svc.toLower(payload))[0].fields, JsonKey.UserId)).Ok?
    requires var subject := Subject(svc.toLower(payload), DeclarationList(svc.toLower(payload))[0].fields);
      var user := svc.validateExternalIds(subject);
      && user.Ok?
      && var encrypted := svc.encryptDeclarationFields(DeclarationList(svc.toLower(payload)), user.value);
      && encrypted.Ok?
      && var entities := BuildEntities(encrypted.value, CallerIdOf(context, svc).value, svc);
      && entities.Ok?
      && var saved := svc.saveDeclarations(subject[JsonKey.Declarations := List(EntityValues(entities.value))]);
      && saved.Ok?
      && AsList(Get(saved.value.result, JsonKey.ErrorMsg)).Ok? && !HasStoreErrors(saved.value)
    ensures var r := DeclarationsUpdate(payload, context, svc);
      && r.handled.raised.None?
      && |r.handled.calls| == 5
      && r.handled.calls[0].Validate? && r.handled.calls[1].Encrypt? && r.handled.calls[2].Save?
      && r.handled.calls[3] == Reply(svc.saveDeclarations(r.handled.calls[2].request).value)
      && r.handled.calls[4].Telemetry?
  {
    var userMap := svc.toLower(payload);
    var first := FirstDeclaration(userMap).value;
    var t := TryBlock(userMap, CallerIdOf(context, svc).value, svc);
    assert |t.calls| == 3;
    assert Proceeds(t);
    assert t.userMap[JsonKey.UserId] == Get(first, JsonKey.UserId);
    assert Get(t.userMap, JsonKey.UserId) == Get(first, JsonKey.UserId);
  }

  /**
   * A save that throws, after every earlier step returned, ends in internalError carrying the
   * store's own message, after the validate, encrypt and save calls and without a reply.
   */
  lemma StoreFailureReported(payload: map<string, Value>, context: map<string, Value>, svc: Services)
    requires CallerIdOf(context, svc).Ok?
    requires |DeclarationList(svc.toLower(payload))| > 0 && DeclarationList(svc.toLower(payload))[0].Obj?
    requires var subject := Subject(svc.toLower(payload), DeclarationList(svc.toLower(payload))[0].fields);
      var user := svc.validateExternalIds(subject);
      && user.Ok?
      && var encrypted := svc.encryptDeclarationFields(DeclarationList(svc.toLower(payload)), user.value);
      && encrypted.Ok?
      && var entities := BuildEntities(encrypted.value, CallerIdOf(context, svc).value, svc);
      && entities.Ok?
      && svc.saveDeclarations(subject[JsonKey.Declarations := List(EntityValues(entities.value))]).Err?
    ensures var h := DeclarationsUpdate(payload, context, svc).handled;
      && |h.calls| == 3
      && h.calls[0].Validate? && h.calls[1].Encrypt? && h.calls[2].Save?
      && h.raised == Some(ServerErrorWith(InternalError, svc.saveDeclarations(h.calls[2].request).error))
  {
    var t := TryBlock(svc.toLower(payload), CallerIdOf(context, svc).value, svc);
    assert |t.calls| == 3;
  }

  /** An empty declarations list fails on its first element and ends in internalError, before
      any call and without a reply. */
  lemma EmptyDeclarationsFail(payload: map<string, Value>, context: map<string, Value>, svc: Services)
    requires CallerIdOf(context, svc).Ok?
    requires Get(svc.toLower(payload), JsonKey.Declarations) == List([])
    ensures DeclarationsUpdate(payload, context, svc).handled ==
      Handled([], Some(ServerErrorWith(InternalError, svc.faultMessage(IndexOutOfBounds))))
  {
    assert FirstDeclaration(svc.toLower(payload)) == Err(IndexOutOfBounds);
  }

  /** The for-loop of updateUserDeclarations that builds one entity per declaration; it stops at
      the first declaration that throws. */
  method CreateEntities(declarations: seq<Value>, callerId: Option<string>, svc: Services)
    returns (r: Result<seq<DeclareEntity>, Message>)
    ensures r == BuildEntities(declarations, callerId, svc)
  {
    var entityList: seq<DeclareEntity> := [];
    for k := 0 to |declarations|
      invariant |entityList| == k
      invariant forall i :: 0 <= i < k ==>
        BuildEntity(declarations[i], callerId, svc).Ok? &&
        entityList[i] == BuildEntity(declarations[i], callerId, svc).value
    {
      var entity := BuildEntity(declarations[k], callerId, svc);
      if entity.Err? {
        ghost var built := BuildEntities(declarations, callerId, svc);
        ghost var j :| 0 <= j < |declarations| &&
          (forall i :: 0 <= i < j ==> BuildEntity(declarations[i], callerId, svc).Ok?) &&
          BuildEntity(declarations[j], callerId, svc) == Err(built.error);
        assert j == k;
        return Err(entity.error);
      }
      entityList := entityList + [entity.value];
    }
    assert entityList == BuildEntities(declarations, callerId, svc).value;
    r := Ok(entityList);
  }

  /**
   * The try block of updateUserDeclarations on the request map object: each step that throws
   * ends the block with its message as the only entry of errMsgs.
   */
  method TryUpdate(userMap: AttributeMap, callerId: Option<string>, svc: Services)
    returns (calls: seq<Call>, response: Response, errMsgs: seq<Message>)
    modifies userMap
    ensures TryState(userMap.entries, calls, response, errMsgs) == TryBlock(old(userMap.entries), callerId, svc)
  {
    calls, response := [], NewResponse();
    var declarations := AsList(Get(userMap.entries, JsonKey.Declarations));
    if declarations.Err? {
      return calls, response, [svc.faultMessage(declarations.error)];
    }
    if declarations.value.None? {
      return calls, response, [svc.faultMessage(NullPointer)];
    }
    var list := declarations.value.value;
    if |list| == 0 {
      return calls, response, [svc.faultMessage(IndexOutOfBounds)];
    }
    var first := AsMap(list[0]);
    if first.Err? {
      return calls, response, [svc.faultMessage(first.error)];
    }
    if first.value.None? {
      return calls, response, [svc.faultMessage(NullPointer)];
    }
    userMap.entries := userMap.entries[JsonKey.UserId := Get(first.value.value, JsonKey.UserId)];

    calls := calls + [Validate(userMap.entries)];
    var userDbRecord := svc.validateExternalIds(userMap.entries);
    if userDbRecord.Err? {
      return calls, response, [userDbRecord.error];
    }

    var rest;
    rest, response, errMsgs := EncryptAndSave(userMap, list, userDbRecord.value, callerId, svc);
    calls := calls + rest;
  }

  /** The second half of the try block on the request map object. */
  method EncryptAndSave(userMap: AttributeMap, declarations: seq<Value>, user: map<string, Value>,
                        callerId: Option<string>, svc: Services)
    returns (calls: seq<Call>, response: Response, errMsgs: seq<Message>)
    modifies userMap
    ensures TryState(userMap.entries, calls, response, errMsgs) ==
            SaveBatch(old(userMap.entries), declarations, user, callerId, svc)
  {
    calls, response := [Encrypt(declarations, user)], NewResponse();
    var encrypted := svc.encryptDeclarationFields(declarations, user);
    if encrypted.Err? {
      return calls, response, [encrypted.error];
    }
    ghost var subject := userMap.entries;
    userMap.entries := userMap.entries[JsonKey.Declarations := List(encrypted.value)];

    var built := CreateEntities(encrypted.value, callerId, svc);
    if built.Err? {
      return calls, response, [built.error];
    }
    userMap.entries := userMap.entries[JsonKey.Declarations := List(EntityValues(built.value))];
    assert userMap.entries == subject[JsonKey.Declarations := List(EntityValues(built.value))];
    calls := calls + [Save(userMap.entries)];
    var saved := svc.saveDeclarations(userMap.entries);
    if saved.Err? {
      return calls, response, [saved.error];
    }
    response := saved.value;
    errMsgs := [];
  }

  /** updateUserDeclarations on the request object: the context is initialised and the request
      map updated in place. */
  method UpdateUserDeclarations(actorMessage: Request, svc: Services) returns (handled: Handled)
    modifies actorMessage, actorMessage.payload
    ensures Update(handled, actorMessage.payload.entries, actorMessage.context) ==
            DeclarationsUpdate(old(actorMessage.payload.entries), old(actorMessage.context), svc)
  {
    actorMessage.context := svc.initializeContext(actorMessage.context);
    var callerId := AsString(Get(actorMessage.context, JsonKey.CallerId));
    if callerId.Err? {
      return Handled([], Some(RuntimeFault(callerId.error)));
    }
    actorMessage.payload.entries := svc.toLower(actorMessage.payload.entries);
    var userMap := actorMessage.payload;
    var calls, response, errMsgs := TryUpdate(userMap, callerId.value, svc);

    var storeErrors := AsList(Get(response.result, JsonKey.ErrorMsg));
    if storeErrors.Err? {
      return Handled(calls, Some(RuntimeFault(storeErrors.error)));
    }
    if (storeErrors.value.Some? && |storeErrors.value.value| > 0) || |errMsgs| > 0 {
      if |errMsgs| == 0 {
        return Handled(calls, Some(RuntimeFault(IndexOutOfBounds)));  // errMsgs.get(0)
      }
      return Handled(calls, Some(ServerErrorWith(InternalError, errMsgs[0])));
    }

    calls := calls + [Reply(response)];
    var targetId := AsString(Get(userMap.entries, JsonKey.UserId));
    if targetId.Err? {
      return Handled(calls, Some(RuntimeFault(targetId.error)));
    }
    calls := calls + [Telemetry(targetId.value, JsonKey.UserEnv, JsonKey.Update, userMap.entries, actorMessage.context)];
    handled := Handled(calls, None);
  }
}
