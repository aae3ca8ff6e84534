# Self-declaration actor and entry/exit logging, modelled in Dafny

This project models two pieces of the Sunbird user service.

- **`UserSelfDeclarationManagementActor`** handles self-declarations.
  - It routes three operations.
  - `updateUserDeclarations` takes the subject user from the first declaration. It validates the batch, encrypts it, builds one `UserDeclareEntity` per declaration stamped with the caller id, swaps that list into the request map and saves it. Then it replies and emits telemetry.
  - `updateUserSelfDeclarationsErrorType` marks a declaration as erroneous, behind a status guard.
  - `upsertUserSelfDeclarations` passes the request map straight to the store.
- **`PrintEntryExitLog`** builds the entry and exit log events of a request.
  - It masks personal data (phone, email, otp, password) in the request and response maps.
  - It decides which maps reach the event's parameter list.
  - It normalises the exception of a failed request.

The files are:

- `wrappers.dfy`: `Option` and `Result`.
- `java_text.dfy`: the string predicates the source relies on. These are `StringUtils.isBlank` and `isEmpty`, `String.contains` and `String.equalsIgnoreCase`.
- `json_key.dfy`: the `JsonKey` constants the core reads.
- `types.dfy`: request and response maps. A map value is a small `Value` datatype standing for Java's `Object`. The file also holds the Java casts on such values, `UserDeclareEntity`, `Response`, `ResponseParams`, `ResponseCode`, and the request objects. Those are a class `Request` and a class `AttributeMap`, whose `entries` the handlers update in place.
- `entry_exit_log.dfy`: module `EntryExitLog`, the `PrintEntryExitLog` class.
- `self_declaration_actor.dfy`: module `SelfDeclarationActor`, the actor.

**How the outside world is modelled.**

- **Collaborators.** Code the core calls but which is not part of this model becomes a function-typed field of a parameter record: `Services`, `LogMasker` and `ResponseCodes`. This covers `UserUtil`, `UserSelfDeclarationService`, `Util.initializeContext`, `Request.toLower`, `LogMaskServiceImpl` and the `ResponseCode` lookups. A collaborator that can throw returns `Result`, carrying the exception message.
- **The actor's effects.** Each handler returns a `Handled` value. It holds the ordered list of the actor's calls to the outside (validate, encrypt, save, update, reply to the sender, telemetry) and the exception the handler let escape, if any.
- **Java's dynamic typing.** A cast that throws `ClassCastException`, a dereference of null and an access beyond a list's end are modelled where the source performs them, as `Fault` values.

**How each operation is specified.** The imperative operations are methods over the request objects:

- `MaskAttributes`
- `MaskSearchFilters`
- `PrintEntryLog`
- `TryUpdate`
- `CreateEntities`
- `UpdateUserDeclarations`
- `OnReceive`

Each is proved equal to a specification function, and the properties are proved about those functions. The specification functions are:

- `MaskedAttributes`
- `FiltersStage`
- `EntryLogOf`
- `TryBlock`
- `BuildEntities`
- `DeclarationsUpdate`

`PrintExitLogOnSuccess` and `PrintExitLogOnFailure` change nothing, so their properties are stated directly on their results.

**Routing.** `@ActorConfig` lists only `upsertUserSelfDeclarations` and `updateUserSelfDeclarationsErrorType` as task names. `onReceive` also handles `updateUserDeclarations`. The model follows `onReceive`, and message routing to the actor is not modelled.

## Model

In the source column, paths are relative to the repository root.

| member | source | states |
|---|---|---|
| EntryExitLog.MaskId | service/app/util/PrintEntryExitLog.java:152-161 | The type string is compared ignoring case, first against email, then phone, then otp. The result is the matching mask of the value, or `""` for any other type. |
| EntryExitLog.MaskIdSelectsKey | service/app/util/PrintEntryExitLog.java:164-175 | At each of the phone, email and otp keys, maskId applies that key's own mask (`maskPhone`, `maskEmail`, `maskOTP`). |
| EntryExitLog.MaskKey | service/app/util/PrintEntryExitLog.java:164-167 | One step of maskAttributes. No key is added or removed, and every other key is untouched. The step fails exactly when the `(String)` cast throws. Otherwise a non-blank value is replaced and a blank or null one is kept. |
| EntryExitLog.MaskEntry | service/app/util/PrintEntryExitLog.java:164-167 | One cast-and-put step of maskAttributes on the map object. Its new entries, and whether the cast succeeded, are those given by MaskKey. |
| EntryExitLog.FirstCastFailure | service/app/util/PrintEntryExitLog.java:164-176 | Gives the position of the first of phone, email, otp and password whose `(String)` cast throws, or 4 if none throws. Every earlier key casts. |
| EntryExitLog.MaskedAttributes | service/app/util/PrintEntryExitLog.java:163-180 | maskAttributes as a function. The key set is unchanged, and keys other than the four are unchanged. The run completes iff no cast throws. Each sensitive key reached before a failing cast holds its masked value, and later keys are untouched. |
| EntryExitLog.MaskedAttributesEffect | service/app/util/PrintEntryExitLog.java:163-180 | After a complete run, a non-blank password is exactly `"**********"`. Non-blank phone, email and otp values are `maskPhone`, `maskEmail` and `maskOTP` of the old value. Absent, null or blank sensitive values are unchanged. |
| EntryExitLog.PasswordMaskIdempotent | service/app/util/PrintEntryExitLog.java:176-179 | Masking an already masked map again completes and leaves the password as it was. |
| EntryExitLog.MaskAttributes | service/app/util/PrintEntryExitLog.java:163-180 | The in-place method. The map object's new entries, and whether it ran to the end, are those given by MaskedAttributes of its old entries. |
| EntryExitLog.FiltersStage | service/app/util/PrintEntryExitLog.java:43-48 | For a search or lookup url, a non-empty nested filters map is replaced by its masked version. Masking may stop part-way, as maskAttributes leaves it. In every other case the request map is unchanged, and that includes a failing filters cast. The step succeeds exactly when the url is neither search nor lookup, or the filters value is null or a map and, when non-empty, its masking succeeds. |
| EntryExitLog.MaskSearchFilters | service/app/util/PrintEntryExitLog.java:43-48 | The in-place method for the filters step. It masks the nested map object, which the request map shares, and agrees with FiltersStage. |
| EntryExitLog.EntryLogOf | service/app/util/PrintEntryExitLog.java:28-56 | The info event is written exactly when the url is a string, the filters step succeeds and every sensitive top-level key casts to a string. It then holds exactly one parameter, the masked request map. Every sensitive top-level key is masked. Filters is masked iff the url contains "search" or "lookup" and filters is non-empty, and is unchanged otherwise. No other key changes. When the filters step fails, the request map is what that step left, with no top-level key masked. Otherwise it is that map after maskAttributes, which may have stopped part-way. A null or non-string url reaches only the error logger with the map untouched. |
| EntryExitLog.PrintEntryLog | service/app/util/PrintEntryExitLog.java:28-56 | The in-place method on the request object. Its new request map and its log write are those given by EntryLogOf. |
| EntryExitLog.PrintExitLogOnSuccess | service/app/util/PrintEntryExitLog.java:58-100 | The info event is written exactly when the url casts to a string and one of these holds. Either the response is null, or its result is empty, or (with a non-null url) the RESPONSE value casts to a list at the lookup url, or masking the result succeeds at any other url. Everything else reaches the error logger. A null response logs no parameters. An empty result logs only the non-null response params. A non-empty result logs exactly one thing first. At the lookup url (ignoring case) that is the first element of the RESPONSE list, unmasked, and only when that list is non-empty. At any other url it is the masked result map. Then come the non-null response params, and nothing else. |
| EntryExitLog.Normalized | service/app/util/PrintEntryExitLog.java:116-122 | A null exception becomes one with internalError's code and message and SERVER_ERROR's response code. A non-null exception is kept. |
| EntryExitLog.ResolvedCode | service/app/util/PrintEntryExitLog.java:124-127 | An error code that getResponse does not know resolves to SERVER_ERROR. A known code resolves to its ResponseCode. |
| EntryExitLog.PrintExitLogOnFailure | service/app/util/PrintEntryExitLog.java:102-150 | It never reaches the error logger and logs at most one parameter. That parameter has status FAILED. It is logged iff createResponseParamObj built one. A non-blank errmsg containing `{0}` is replaced by the exception message. The other fields are as built. |
| SelfDeclarationActor.Route | actors/sunbird-lms-mw/actors/user/src/main/java/org/sunbird/user/actors/UserSelfDeclarationManagementActor.java:33-45 | A name selects the handler whose name it is. A name equal to no handler's name selects none. |
| SelfDeclarationActor.RouteSelectsOwnHandler | actors/sunbird-lms-mw/actors/user/src/main/java/org/sunbird/user/actors/UserSelfDeclarationManagementActor.java:33-45 | Each handler is reached by its own name and by no other. |
| SelfDeclarationActor.OnReceive | actors/sunbird-lms-mw/actors/user/src/main/java/org/sunbird/user/actors/UserSelfDeclarationManagementActor.java:31-46 | Each of the three operation names runs exactly its own handler. Any other name raises the unsupported-operation error naming the actor, with no call and the request unchanged. |
| SelfDeclarationActor.ErrorStatusUpdate | actors/sunbird-lms-mw/actors/user/src/main/java/org/sunbird/user/actors/UserSelfDeclarationManagementActor.java:127-143 | The store's updateSelfDeclaration is called iff the entity's status is `SELF_DECLARED_ERROR` and its errorType is non-empty. SUCCESS is replied iff that call also returns. A throwing store escapes with its own exception after the one call. An entity failing the guard raises declaredUserErrorStatusNotUpdated with no call and no reply. A null DECLARATIONS is a null dereference, and any other non-entity value fails the cast, both with no call. |
| SelfDeclarationActor.DetailsUpsert | actors/sunbird-lms-mw/actors/user/src/main/java/org/sunbird/user/actors/UserSelfDeclarationManagementActor.java:117-125 | The request map is saved unchanged and the store's response is replied verbatim. A throwing store ends with no reply. |
| SelfDeclarationActor.FirstDeclaration | actors/sunbird-lms-mw/actors/user/src/main/java/org/sunbird/user/actors/UserSelfDeclarationManagementActor.java:66-69 | `declarations.get(0)` as a map. It succeeds exactly when DECLARATIONS is a non-empty list whose first element is a map, and then it is that element. A non-list value or a non-map first element fails its cast. A null list or a null first element is a null dereference. An empty list is an out-of-bounds access. |
| SelfDeclarationActor.BuildEntities | actors/sunbird-lms-mw/actors/user/src/main/java/org/sunbird/user/actors/UserSelfDeclarationManagementActor.java:78-83 | The loop completes iff every declaration yields an entity. It then holds exactly one entity per declaration, in order, each created with the caller id. Otherwise it ends with the error of the first failing declaration. |
| SelfDeclarationActor.CreateEntities | actors/sunbird-lms-mw/actors/user/src/main/java/org/sunbird/user/actors/UserSelfDeclarationManagementActor.java:78-83 | The for-loop as a method. Its result is the one BuildEntities gives. |
| SelfDeclarationActor.SaveBatch | actors/sunbird-lms-mw/actors/user/src/main/java/org/sunbird/user/actors/UserSelfDeclarationManagementActor.java:75-93 | The encrypt-to-save half of the try block. Encryption is called first, with the declarations and the validated user. When encryption returns and every entity is built, the save is reached. The saved map is then the request map with `DECLARATIONS` replaced by one entity per encrypted declaration. USER_ID is kept. errMsgs is empty iff the store returned, and the response is then the store's. Otherwise errMsgs holds exactly the message of the encryption, entity or store exception. The request map is then as that step left it. |
| SelfDeclarationActor.EncryptAndSave | actors/sunbird-lms-mw/actors/user/src/main/java/org/sunbird/user/actors/UserSelfDeclarationManagementActor.java:75-90 | That half on the request map object. Its calls, response, errMsgs and new request map are those given by SaveBatch. |
| SelfDeclarationActor.TryBlock | actors/sunbird-lms-mw/actors/user/src/main/java/org/sunbird/user/actors/UserSelfDeclarationManagementActor.java:65-99 | The try block never replies or emits telemetry and records at most one message. A missing, empty or malformed declaration list fails before any call, with the JVM's message. Otherwise `USER_ID` is set to the first declaration's userId before validation. A throwing validation records its own message and stops. When validation returns, encryption is called with the declarations and the validated user. A throwing encryption leaves the request map as validated, and a failing entity build leaves it with its declarations list replaced by the encrypted one. When encryption returns and every entity is built, the save is called. The saved map is the request map with `DECLARATIONS` replaced by one entity per encrypted declaration. errMsgs is empty iff the save returned, and the response is then the store's. Otherwise errMsgs is exactly the message of the encryption, entity or store exception that stopped the block. |
| SelfDeclarationActor.TryUpdate | actors/sunbird-lms-mw/actors/user/src/main/java/org/sunbird/user/actors/UserSelfDeclarationManagementActor.java:65-99 | The try block on the request map object. It returns the calls, response and errMsgs, and leaves the request map, as TryBlock gives them. |
| SelfDeclarationActor.DeclarationsUpdate | actors/sunbird-lms-mw/actors/user/src/main/java/org/sunbird/user/actors/UserSelfDeclarationManagementActor.java:52-115 | A captured exception ends in internalError with the first captured message, with no reply and no telemetry. With no captured exception, a non-list `ERROR_MSG` fails its cast, and a non-empty one fails on `errMsgs.get(0)`, both with no reply. A reply comes only right after a save whose result has no store errors, and sends that result. When the save returned a result with a list-typed `ERROR_MSG` and no store errors, the reply does follow. If USER_ID is then a string or null, the handler ends without an exception after exactly one telemetry, which targets the request map's `USER_ID` with action Update. Any other USER_ID fails its cast right after the reply, with no further call. |
| SelfDeclarationActor.Conclusion | actors/sunbird-lms-mw/actors/user/src/main/java/org/sunbird/user/actors/UserSelfDeclarationManagementActor.java:101-114 | After the try block, no call is added unless no exception was captured and the save result has no store errors. In that case the store's response is replied. When USER_ID is a string or null, that reply is followed by exactly one telemetry event, targeting USER_ID with action Update, and nothing is raised. Ending without an exception happens only then. Any other USER_ID raises a class-cast fault right after the reply, with no further call. A captured exception raises internalError with the first message. A non-list `ERROR_MSG` fails with a class-cast fault. Store errors with no captured exception fail on `errMsgs.get(0)`. |
| SelfDeclarationActor.ConclusionCalls | actors/sunbird-lms-mw/actors/user/src/main/java/org/sunbird/user/actors/UserSelfDeclarationManagementActor.java:101-114 | After a try block whose calls are quiet and which saved last when nothing was captured, every outcome after the try block is as updateUserDeclarations gives it. A captured exception raises internalError with the first message. A non-list `ERROR_MSG` fails its cast, and store errors fail on `errMsgs.get(0)`, all with no further call. Otherwise the store's response is replied. A string or null USER_ID is then followed by one telemetry event and no exception, and any other USER_ID by a class-cast fault and no further call. A reply can only be the fourth call and sends the saved result. A telemetry event can only be the fifth. An ending without an exception has exactly five calls. |
| SelfDeclarationActor.EmptyDeclarationsFail | actors/sunbird-lms-mw/actors/user/src/main/java/org/sunbird/user/actors/UserSelfDeclarationManagementActor.java:66-104 | An empty declaration list ends in internalError before any call and without a reply. The error carries the message of the JVM's `IndexOutOfBoundsException`. |
| SelfDeclarationActor.CleanRunSucceeds | actors/sunbird-lms-mw/actors/user/src/main/java/org/sunbird/user/actors/UserSelfDeclarationManagementActor.java:65-114 | Suppose DECLARATIONS is a non-empty list whose first element is a map, and the caller id, that element's userId, validation, encryption, every entity, the save and its `ERROR_MSG` list all succeed with no store errors. Then the handler raises nothing. It makes exactly five calls: validate, encrypt, save, a reply carrying the store's result, and telemetry. |
| SelfDeclarationActor.StoreFailureReported | actors/sunbird-lms-mw/actors/user/src/main/java/org/sunbird/user/actors/UserSelfDeclarationManagementActor.java:88-104 | When every step before the save returns and the save throws, the handler makes exactly the validate, encrypt and save calls. It raises internalError carrying the store's own message, with no reply. |
| SelfDeclarationActor.UpdateUserDeclarations | actors/sunbird-lms-mw/actors/user/src/main/java/org/sunbird/user/actors/UserSelfDeclarationManagementActor.java:52-115 | The in-place method on the request object. Its outcome, its updated request map and its initialised context are those given by DeclarationsUpdate. |

## Left out

- Logger output is not modelled: the message strings, `EntryExitLogEvent`'s format and `ObjectMapper` serialisation. A log write is the event's id, request id and parameter list, or the error-logger message.
- The bodies of `maskEmail`, `maskPhone` and `maskOTP` are not known. They are uninterpreted functions `LogMasker`, assumed to return non-null strings, so no format or idempotence is claimed for them.
- `JsonKey` is not part of this model. The key strings in `json_key.dfy` are placeholders, and only their distinctness matters. The same holds for the `ResponseCode` constants, which are a datatype, and for the code, message and HTTP-status lookups, which are the `ResponseCodes` parameter.
- EntryExitLog.PrintExitLogOnSuccess: masks a copy of the response's result map. The source masks the caller's `Response` object in place, and that effect on the caller is not captured.
- EntryExitLog.MaskSearchFilters: the nested filters map is shared with the request map by writing the masked map back under `filters`. Other aliases of that nested map object are not tracked.
- EntryExitLog.MaskId: `equalsIgnoreCase` folds ASCII letters plus the four non-ASCII characters that fold onto ASCII letters (U+0130, U+0131, U+017F, U+212A). This is exact only when one side is an ASCII literal, which is how maskId uses it. Full Unicode case folding is not modelled.
- SelfDeclarationActor.DeclarationsUpdate: `Util.initializeContext` and `Request.toLower` are total functions on the context and request map. Their own failures, and anything else they change, are not modelled.
- SelfDeclarationActor.TryBlock: when `encryptDeclarationFields` throws, the request map is left as it was before that call. Any partial in-place encryption it performed first is not modelled. Its contract asserts nothing about how it rewrites the maps.
- The collaborators (`validateExternalIdsAndReturnActiveUser`, `encryptDeclarationFields`, `createUserDeclaredObject`, the store, `updateSelfDeclaration`) are treated as not mutating their arguments, beyond the encryption result replacing the declaration list.
- Telemetry is one call record. `TelemetryUtil.generateTargetObject` and `telemetryProcessingCall` are merged into it, and the correlated-object list is always empty.
- The JVM's exception messages are not known. The message of a `ClassCastException`, `NullPointerException` or `IndexOutOfBoundsException` raised by the core itself is the uninterpreted `Services.faultMessage`, so no property depends on its text.
- Actor messaging is not modelled: mailboxes, `sender()`, `self()`, asynchrony and concurrency. A reply is a `Reply` call record.
- `Request.getRequestContext()`, `getContext()` and `getRequest()` are assumed to return non-null objects. A null from any of them would throw inside the logging try blocks and reach the error logger. The model cannot express that case, so the claim that PrintExitLogOnFailure never reaches the error logger holds only under this assumption.
- The request context object (`RequestContext`) is not modelled, except its request id. It is only passed along to collaborators and the logger.
- A null operation name is not modelled: a switch on null throws. Neither is a store returning a null `Response`. The model's operation is always a string and the store always returns a response or throws.
- The `@ActorConfig` task registration is not modelled. It omits `updateUserDeclarations`, which `onReceive` handles.
