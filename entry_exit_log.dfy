/**
 * PrintEntryExitLog: PII masking of string-keyed maps and the construction of the parameter
 * list of the entry, exit-on-success and exit-on-failure log events.
 */
module EntryExitLog {
  import opened Wrappers
  import opened JavaText
  import opened Types
  import JsonKey

  /** LogMaskServiceImpl: three mask functions whose definitions are not part of this model. */
  datatype LogMasker = LogMasker(
    maskEmail: string -> string,
    maskPhone: string -> string,
    maskOtp: string -> string)

  /** The fixed replacement of a password. */
  const PasswordMask := "**********"

  /** The keys maskAttributes visits, in the order it visits them. */
  const SensitiveKeys: seq<string> := [JsonKey.Phone, JsonKey.Email, JsonKey.Otp, JsonKey.Password]

  /** One entry of a log event's parameter list. */
  datatype LogParam =
    | Item(value: Value)               // a map (or list element) added as it is
    | Params(params: ResponseParams)   // a ResponseParams object, before serialisation

  /** EntryExitLogEvent with eid "LOG", as far as the core fills it in. */
  datatype LogEvent = LogEvent(eid: string, requestId: string, params: seq<LogParam>)

  /** What a builder writes: an info event, or a line on the error logger after a caught exception. */
  datatype LogWrite = Info(event: LogEvent) | ErrorLogged(message: string)

  const EventId := "LOG"
  const EntryLogFailure := "Exception occurred while logging entry log"
  const ExitLogFailure := "Exception occurred while logging exit log"

  // ---------------------------------------------------------------------------------------------
  // maskId and maskAttributes

  /** The kinds maskId knows, compared ignoring case. */
  predicate IsMaskKind(kind: string) {
    EqualsIgnoreCase(JsonKey.Email, kind) || EqualsIgnoreCase(JsonKey.Phone, kind)
    || EqualsIgnoreCase(JsonKey.Otp, kind)
  }

  /** maskId: the mask matching `kind` (email, then phone, then otp); "" for any other kind. */
  function MaskId(value: string, kind: string, masker: LogMasker): (r: string)
    ensures !IsMaskKind(kind) ==> r == ""
    ensures EqualsIgnoreCase(JsonKey.Email, kind) ==> r == masker.maskEmail(value)
    ensures EqualsIgnoreCase(JsonKey.Phone, kind) && !EqualsIgnoreCase(JsonKey.Email, kind)
      ==> r == masker.maskPhone(value)
    ensures (EqualsIgnoreCase(JsonKey.Otp, kind) && !EqualsIgnoreCase(JsonKey.Email, kind) &&
             !EqualsIgnoreCase(JsonKey.Phone, kind)) ==> r == masker.maskOtp(value)
  {
    if EqualsIgnoreCase(JsonKey.Email, kind) then masker.maskEmail(value)
    else if EqualsIgnoreCase(JsonKey.Phone, kind) then masker.maskPhone(value)
    else if EqualsIgnoreCase(JsonKey.Otp, kind) then masker.maskOtp(value)
    else ""
  }

  /** At each key maskAttributes passes, maskId selects the mask of that very key. */
  lemma MaskIdSelectsKey(value: string, masker: LogMasker)
    ensures MaskId(value, JsonKey.Phone, masker) == masker.maskPhone(value)
    ensures MaskId(value, JsonKey.Email, masker) == masker.maskEmail(value)
    ensures MaskId(value, JsonKey.Otp, masker) == masker.maskOtp(value)
  {
    assert !CharEqualsIgnoreCase(JsonKey.Email[0], JsonKey.Phone[0]);
    assert !EqualsIgnoreCase(JsonKey.Email, JsonKey.Otp);
    assert !EqualsIgnoreCase(JsonKey.Phone, JsonKey.Otp);
    assert EqualsIgnoreCase(JsonKey.Phone, JsonKey.Phone);
    assert EqualsIgnoreCase(JsonKey.Email, JsonKey.Email);
    assert EqualsIgnoreCase(JsonKey.Otp, JsonKey.Otp);
  }

  /** The cast `(String) filters.get(key)` throws: the key holds neither a string nor null. */
  predicate CastFails(m: map<string, Value>, key: string) {
    AsString(Get(m, key)).Err?
  }

  /** The key holds a non-blank string, which maskAttributes replaces. */
  predicate Maskable(m: map<string, Value>, key: string) {
    key in m && m[key].Str? && !IsBlank(Some(m[key].s))
  }

  /** What maskAttributes writes over a non-blank value at `key`. */
  function Replacement(key: string, value: string, masker: LogMasker): string {
    if key == JsonKey.Password then PasswordMask else MaskId(value, key, masker)
  }

  /** The value maskAttributes leaves at `key` once it has visited that key. */
  function MaskedValue(m: map<string, Value>, key: string, masker: LogMasker): Value
    requires key in m
  {
    if Maskable(m, key) then Str(Replacement(key, m[key].s, masker)) else m[key]
  }

  /** The map after maskAttributes, and whether it ran to the end without a cast failure. */
  datatype Masking = Masking(entries: map<string, Value>, ok: bool)

  /** One step of maskAttributes: read `key` as a string and replace it when it is non-blank. */
  function MaskKey(m: map<string, Value>, key: string, masker: LogMasker): (r: Masking)
    ensures r.entries.Keys == m.Keys
    ensures forall k :: k in m && k != key ==> r.entries[k] == m[k]
    ensures r.ok == !CastFails(m, key)
    ensures key in m ==> r.entries[key] == if r.ok then MaskedValue(m, key, masker) else m[key]
    ensures forall k :: k != key ==> CastFails(r.entries, k) == CastFails(m, k)
    ensures forall k :: k in m && k != key ==> MaskedValue(r.entries, k, masker) == MaskedValue(m, k, masker)
  {
    if CastFails(m, key) then Masking(m, false)
    else if Maskable(m, key) then Masking(m[key := MaskedValue(m, key, masker)], true)
    else Masking(m, true)
  }

  /** The position in SensitiveKeys of the first key whose cast fails; |SensitiveKeys| if none. */
  function FirstCastFailure(m: map<string, Value>): (n: nat)
    ensures n <= |SensitiveKeys|
    ensures forall i :: 0 <= i < n ==> !CastFails(m, SensitiveKeys[i])
    ensures n < |SensitiveKeys| ==> CastFails(m, SensitiveKeys[n])
  {
    if CastFails(m, JsonKey.Phone) then 0
    else if CastFails(m, JsonKey.Email) then 1
    else if CastFails(m, JsonKey.Otp) then 2
    else if CastFails(m, JsonKey.Password) then 3
    else 4
  }

  /** Two maps that agree on every sensitive key mask them alike and fail the same cast first. */
  lemma SensitiveAgreement(a: map<string, Value>, b: map<string, Value>, masker: LogMasker)
    requires forall i :: 0 <= i < |SensitiveKeys| ==>
      (SensitiveKeys[i] in a <==> SensitiveKeys[i] in b) &&
      (SensitiveKeys[i] in a ==> a[SensitiveKeys[i]] == b[SensitiveKeys[i]])
    ensures FirstCastFailure(a) == FirstCastFailure(b)
    ensures forall i :: 0 <= i < |SensitiveKeys| && SensitiveKeys[i] in a ==>
      SensitiveKeys[i] in b && MaskedValue(a, SensitiveKeys[i], masker) == MaskedValue(b, SensitiveKeys[i], masker)
  {
    forall i | 0 <= i < |SensitiveKeys| && SensitiveKeys[i] in a
      ensures SensitiveKeys[i] in b && MaskedValue(a, SensitiveKeys[i], masker) == MaskedValue(b, SensitiveKeys[i], masker)
    {
      assert Get(a, SensitiveKeys[i]) == Get(b, SensitiveKeys[i]);
    }
  }

  /**
   * maskAttributes on the map `m`: no key is added or removed, keys outside SensitiveKeys keep
   * their values, and each sensitive key reached before the first failing cast holds its masked
   * value; the keys from the failing one on are untouched.
   */
  function MaskedAttributes(m: map<string, Value>, masker: LogMasker): (r: Masking)
    ensures r.entries.Keys == m.Keys
    ensures forall k :: k in m && k !in SensitiveKeys ==> r.entries[k] == m[k]
    ensures r.ok <==> FirstCastFailure(m) == |SensitiveKeys|
    ensures forall i :: 0 <= i < |SensitiveKeys| && SensitiveKeys[i] in m ==>
      r.entries[SensitiveKeys[i]] ==
        if i < FirstCastFailure(m) then MaskedValue(m, SensitiveKeys[i], masker) else m[SensitiveKeys[i]]
  {
    var phone := MaskKey(m, JsonKey.Phone, masker);
    if !phone.ok then phone else
    var email := MaskKey(phone.entries, JsonKey.Email, masker);
    if !email.ok then email else
    var otp := MaskKey(email.entries, JsonKey.Otp, masker);
    if !otp.ok then otp else
    MaskKey(otp.entries, JsonKey.Password, masker)
  }

  /**
   * When maskAttributes runs to the end: a non-blank password becomes exactly PasswordMask, a
   * non-blank phone, email or otp becomes its mask, and an absent, null or blank one is kept.
   */
  lemma MaskedAttributesEffect(m: map<string, Value>, masker: LogMasker)
    requires MaskedAttributes(m, masker).ok
    ensures var r := MaskedAttributes(m, masker).entries;
      && (Maskable(m, JsonKey.Password) ==> r[JsonKey.Password] == Str(PasswordMask))
      && (Maskable(m, JsonKey.Phone) ==> r[JsonKey.Phone] == Str(masker.maskPhone(m[JsonKey.Phone].s)))
      && (Maskable(m, JsonKey.Email) ==> r[JsonKey.Email] == Str(masker.maskEmail(m[JsonKey.Email].s)))
      && (Maskable(m, JsonKey.Otp) ==> r[JsonKey.Otp] == Str(masker.maskOtp(m[JsonKey.Otp].s)))
      && (forall k :: k in m && k in SensitiveKeys && !Maskable(m, k) ==> r[k] == m[k])
  {
    var r := MaskedAttributes(m, masker).entries;
    forall i | 0 <= i < |SensitiveKeys| && SensitiveKeys[i] in m
      ensures r[SensitiveKeys[i]] == MaskedValue(m, SensitiveKeys[i], masker)
    {
    }
    if Maskable(m, JsonKey.Phone) {
      MaskIdSelectsKey(m[JsonKey.Phone].s, masker);
      assert r[SensitiveKeys[0]] == MaskedValue(m, SensitiveKeys[0], masker);
    }
    if Maskable(m, JsonKey.Email) {
      MaskIdSelectsKey(m[JsonKey.Email].s, masker);
      assert r[SensitiveKeys[1]] == MaskedValue(m, SensitiveKeys[1], masker);
    }
    if Maskable(m, JsonKey.Otp) {
      MaskIdSelectsKey(m[JsonKey.Otp].s, masker);
      assert r[SensitiveKeys[2]] == MaskedValue(m, SensitiveKeys[2], masker);
    }
    if Maskable(m, JsonKey.Password) {
      assert r[SensitiveKeys[3]] == MaskedValue(m, SensitiveKeys[3], masker);
    }
  }

  /** Masking a masked map again succeeds and leaves the password as it was. */
  lemma PasswordMaskIdempotent(m: map<string, Value>, masker: LogMasker)
    requires MaskedAttributes(m, masker).ok
    ensures var once := MaskedAttributes(m, masker).entries;
      var twice := MaskedAttributes(once, masker);
      twice.ok && (JsonKey.Password in m ==> twice.entries[JsonKey.Password] == once[JsonKey.Password])
  {
    var once := MaskedAttributes(m, masker).entries;
    forall i | 0 <= i < |SensitiveKeys|
      ensures !CastFails(once, SensitiveKeys[i])
    {
      if SensitiveKeys[i] in m {
        assert once[SensitiveKeys[i]] == MaskedValue(m, SensitiveKeys[i], masker);
      }
    }
    assert FirstCastFailure(once) == |SensitiveKeys|;
    if JsonKey.Password in m {
      assert once[SensitiveKeys[3]] == MaskedValue(m, SensitiveKeys[3], masker);
      if Maskable(m, JsonKey.Password) {
        assert PasswordMask[0] == '*';
        assert Maskable(once, JsonKey.Password);
      }
      assert MaskedAttributes(once, masker).entries[SensitiveKeys[3]] == MaskedValue(once, SensitiveKeys[3], masker);
    }
  }

  /** One `(String) filters.get(key)` and, for a non-blank value, its `filters.put`. */
  method MaskEntry(filters: AttributeMap, key: string, masker: LogMasker) returns (ok: bool)
    modifies filters
    ensures Masking(filters.entries, ok) == MaskKey(old(filters.entries), key, masker)
  {
    var value := AsString(Get(filters.entries, key));
    if value.Err? {
      return false;
    }
    if !IsBlank(value.value) {
      filters.entries := filters.entries[key := Str(Replacement(key, value.value.value, masker))];
    }
    return true;
  }

  /** maskAttributes: updates the map object in place; on a failing cast it stops part-way. */
  method MaskAttributes(filters: AttributeMap, masker: LogMasker) returns (ok: bool)
    modifies filters
    ensures Masking(filters.entries, ok) == MaskedAttributes(old(filters.entries), masker)
  {
    ok := MaskEntry(filters, JsonKey.Phone, masker);
    if !ok {
      return;
    }
    ok := MaskEntry(filters, JsonKey.Email, masker);
    if !ok {
      return;
    }
    ok := MaskEntry(filters, JsonKey.Otp, masker);
    if !ok {
      return;
    }
    ok := MaskEntry(filters, JsonKey.Password, masker);
  }

  // ---------------------------------------------------------------------------------------------
  // printEntryLog

  /** The url test of printEntryLog: a search or lookup url also has its filters masked. */
  predicate IsSearchUrl(url: string) {
    Contains(url, "search") || Contains(url, "lookup")
  }

  /** The `(String) context.get(URL)` of the builders, when it yields a non-null string. */
  function UrlText(context: map<string, Value>): Option<string> {
    match AsString(Get(context, JsonKey.Url))
    case Ok(Some(url)) => Some(url)
    case _ => None
  }

  /** printEntryLog masks the nested filters map: the url is a search or lookup url and the
      request map holds a non-empty filters map. */
  predicate MasksFilters(context: map<string, Value>, payload: map<string, Value>) {
    UrlText(context).Some? && IsSearchUrl(UrlText(context).value) && HasFilters(payload)
  }

  /** The request map holds a non-empty filters map. */
  predicate HasFilters(payload: map<string, Value>) {
    JsonKey.Filters in payload && payload[JsonKey.Filters].Obj? && |payload[JsonKey.Filters].fields| > 0
  }

  /** The request map after printEntryLog and what it wrote. */
  datatype EntryLog = EntryLog(payload: map<string, Value>, write: LogWrite)

  /**
   * printEntryLog on the request map `payload`: on success the event holds exactly the masked
   * request map, every sensitive top-level key is masked, and the nested filters map is masked
   * exactly when MasksFilters holds; no key other than the sensitive ones and filters changes.
   * A url that is not a string, or is null, ends on the error logger with the map untouched. The
   * event is written exactly when the url is a string, the filters step succeeds and every
   * sensitive top-level key casts to a string. When the filters step fails, the request map is
   * what that step left and the top-level keys are not touched; otherwise it is the step's map
   * with maskAttributes applied.
   */
  function EntryLogOf(payload: map<string, Value>, context: map<string, Value>, requestId: string,
                      masker: LogMasker): (r: EntryLog)
    ensures r.write.Info? ==> r.write.event == LogEvent(EventId, requestId, [Item(Obj(r.payload))])
    ensures r.write.ErrorLogged? ==> r.write.message == EntryLogFailure
    ensures r.payload.Keys == payload.Keys
    ensures forall k :: k in payload && k !in SensitiveKeys && k != JsonKey.Filters ==> r.payload[k] == payload[k]
    ensures r.write.Info? ==>
      forall i :: 0 <= i < |SensitiveKeys| && SensitiveKeys[i] in payload ==>
        r.payload[SensitiveKeys[i]] == MaskedValue(payload, SensitiveKeys[i], masker)
    ensures r.write.Info? && MasksFilters(context, payload) ==>
      r.payload[JsonKey.Filters] == Obj(MaskedAttributes(payload[JsonKey.Filters].fields, masker).entries)
    ensures r.write.Info? && JsonKey.Filters in payload && !MasksFilters(context, payload) ==>
      r.payload[JsonKey.Filters] == payload[JsonKey.Filters]
    ensures UrlText(context).None? ==>
      r == EntryLog(payload, ErrorLogged(EntryLogFailure))
    ensures UrlText(context).Some? && !FiltersStage(payload, UrlText(context).value, masker).ok ==>
      r.payload == FiltersStage(payload, UrlText(context).value, masker).entries
    ensures UrlText(context).Some? && FiltersStage(payload, UrlText(context).value, masker).ok ==>
      r.payload == MaskedAttributes(FiltersStage(payload, UrlText(context).value, masker).entries, masker).entries
    ensures r.write.Info? <==>
      && UrlText(context).Some?
      && FiltersStage(payload, UrlText(context).value, masker).ok
      && FirstCastFailure(payload) == |SensitiveKeys|
  {
    match AsString(Get(context, JsonKey.Url))
    case Err(_) => EntryLog(payload, ErrorLogged(EntryLogFailure))      // (String) cast
    case Ok(None) => EntryLog(payload, ErrorLogged(EntryLogFailure))    // url.contains on null
    case Ok(Some(url)) =>
      assert JsonKey.Filters !in SensitiveKeys;
      var staged := FiltersStage(payload, url, masker);
      SensitiveAgreement(payload, staged.entries, masker);
      if !staged.ok then EntryLog(staged.entries, ErrorLogged(EntryLogFailure)) else
      var top := MaskedAttributes(staged.entries, masker);
      if !top.ok then EntryLog(top.entries, ErrorLogged(EntryLogFailure))
      else EntryLog(top.entries, Info(LogEvent(EventId, requestId, [Item(Obj(top.entries))])))
  }

  /**
   * The first half of printEntryLog: for a search url the nested filters map is masked in place.
   * It fails exactly when, for a search url, filters is neither a map nor null, or masking a
   * non-empty filters map fails. A failing cast leaves the request map as it was; a failing mask
   * leaves the nested map masked up to the key whose cast failed.
   */
  function FiltersStage(payload: map<string, Value>, url: string, masker: LogMasker): (r: Masking)
    ensures r.entries.Keys == payload.Keys
    ensures forall k :: k in payload && k != JsonKey.Filters ==> r.entries[k] == payload[k]
    ensures r.ok <==>
      || !IsSearchUrl(url)
      || (AsMap(Get(payload, JsonKey.Filters)).Ok? &&
          (HasFilters(payload) ==> MaskedAttributes(payload[JsonKey.Filters].fields, masker).ok))
    ensures r.ok && IsSearchUrl(url) && HasFilters(payload) ==>
      r.entries[JsonKey.Filters] == Obj(MaskedAttributes(payload[JsonKey.Filters].fields, masker).entries)
    ensures r.ok && JsonKey.Filters in payload && !(IsSearchUrl(url) && HasFilters(payload)) ==>
      r.entries[JsonKey.Filters] == payload[JsonKey.Filters]
    ensures !(IsSearchUrl(url) && HasFilters(payload)) ==> r.entries == payload
    ensures IsSearchUrl(url) && HasFilters(payload) ==>
      var masked := MaskedAttributes(payload[JsonKey.Filters].fields, masker);
      r == Masking(payload[JsonKey.Filters := Obj(masked.entries)], masked.ok)
  {
    if !IsSearchUrl(url) then Masking(payload, true) else
    match AsMap(Get(payload, JsonKey.Filters))
    case Err(_) => Masking(payload, false)
    case Ok(None) => Masking(payload, true)
    case Ok(Some(filters)) =>
      if |filters| == 0 then Masking(payload, true) else
      var masked := MaskedAttributes(filters, masker);
      Masking(payload[JsonKey.Filters := Obj(masked.entries)], masked.ok)
  }

  /** The filters part of printEntryLog: for a search url, the nested filters map of the request
      map is masked in place. */
  method MaskSearchFilters(reqMap: AttributeMap, url: string, masker: LogMasker) returns (ok: bool)
    modifies reqMap
    ensures Masking(reqMap.entries, ok) == FiltersStage(old(reqMap.entries), url, masker)
  {
    if Contains(url, "search") || Contains(url, "lookup") {
      var filters := AsMap(Get(reqMap.entries, JsonKey.Filters));
      if filters.Err? {
        return false;
      }
      if filters.value.Some? && |filters.value.value| > 0 {
        var nested := new AttributeMap(filters.value.value);
        ok := MaskAttributes(nested, masker);
        // the nested map object is shared with the request map
        reqMap.entries := reqMap.entries[JsonKey.Filters := Obj(nested.entries)];
        return ok;
      }
    }
    return true;
  }

  /** printEntryLog: masks the request map in place (and, for a search url, its filters map)
      and logs it. */
  method PrintEntryLog(request: Request, masker: LogMasker) returns (write: LogWrite)
    modifies request.payload
    ensures EntryLog(request.payload.entries, write) ==
            EntryLogOf(old(request.payload.entries), request.context, request.requestId, masker)
  {
    var url := AsString(Get(request.context, JsonKey.Url));
    if url.Err? || url.value.None? {
      return ErrorLogged(EntryLogFailure);
    }
    var reqMap := request.payload;
    var ok := MaskSearchFilters(reqMap, url.value.value, masker);
    if !ok {
      return ErrorLogged(EntryLogFailure);
    }
    ok := MaskAttributes(reqMap, masker);
    if !ok {
      return ErrorLogged(EntryLogFailure);
    }
    var params := [];
    params := params + [Item(Obj(reqMap.entries))];
    write := Info(LogEvent(EventId, request.requestId, params));
  }

  // ---------------------------------------------------------------------------------------------
  // printExitLogOnSuccessResponse

  /** The one url whose result printExitLogOnSuccessResponse logs as a list head. */
  const LookupUrl := "/private/user/v1/lookup"

  /** The result's RESPONSE entry is a non-empty list, and its first element. */
  function FirstListed(result: map<string, Value>): Option<Value> {
    match AsList(Get(result, JsonKey.Response))
    case Ok(Some(xs)) => if |xs| > 0 then Some(xs[0]) else None
    case _ => None
  }

  /**
   * printExitLogOnSuccessResponse. A null response logs nothing. A non-empty result adds, for the
   * lookup url (ignoring case), only the first element of its RESPONSE list, unmasked, and only
   * when that list is non-empty; for any other url, the masked result map. Non-null response params
   * come last, and nothing else is logged, so at most two parameters are. A url that is not a string, a null url met
   * on a non-empty result, a RESPONSE entry that is not a list at the lookup url, or a failing mask
   * ends on the error logger, and nothing else does.
   */
  method PrintExitLogOnSuccess(request: Request, response: Option<Response>, masker: LogMasker)
    returns (write: LogWrite)
    ensures write.ErrorLogged? ==> write.message == ExitLogFailure
    ensures write.Info? ==> write.event.eid == EventId && write.event.requestId == request.requestId
    ensures write.Info? ==> |write.event.params| <= 2
    ensures AsString(Get(request.context, JsonKey.Url)).Err? ==> write == ErrorLogged(ExitLogFailure)
    ensures AsString(Get(request.context, JsonKey.Url)).Ok? && response.None? ==>
      write == Info(LogEvent(EventId, request.requestId, []))
    ensures AsString(Get(request.context, JsonKey.Url)).Ok? && response.Some? && |response.value.result| == 0 ==>
      write == Info(LogEvent(EventId, request.requestId,
                             if response.value.params.Some? then [Params(response.value.params.value)] else []))
    ensures write.Info? <==>
      && AsString(Get(request.context, JsonKey.Url)).Ok?
      && (|| response.None?
          || |response.value.result| == 0
          || (&& UrlText(request.context).Some?
              && if EqualsIgnoreCase(UrlText(request.context).value, LookupUrl)
                 then AsList(Get(response.value.result, JsonKey.Response)).Ok?
                 else MaskedAttributes(response.value.result, masker).ok))
    ensures response.Some? && response.value.params.Some? && write.Info? ==>
      |write.event.params| > 0 && write.event.params[|write.event.params| - 1] == Params(response.value.params.value)
    ensures response.Some? && response.value.params.None? && write.Info? ==>
      forall p :: p in write.event.params ==> p.Item?
    ensures response.Some? && |response.value.result| == 0 && write.Info? ==>
      forall p :: p in write.event.params ==> p.Params?
    ensures response.Some? && |response.value.result| > 0 && write.Info? ==>
      var url := AsString(Get(request.context, JsonKey.Url)).value;
      var result := response.value.result;
      && url.Some?
      && (EqualsIgnoreCase(url.value, LookupUrl) ==>
            (FirstListed(result).Some? <==> |write.event.params| > 0 && write.event.params[0].Item?) &&
            (FirstListed(result).Some? ==> write.event.params[0] == Item(FirstListed(result).value)))
      && (!EqualsIgnoreCase(url.value, LookupUrl) ==>
            MaskedAttributes(result, masker).ok && |write.event.params| > 0 &&
            write.event.params[0] == Item(Obj(MaskedAttributes(result, masker).entries)))
    ensures response.Some? && |response.value.result| > 0 && write.Info? ==>
      var result := response.value.result;
      write.event.params ==
        (if EqualsIgnoreCase(UrlText(request.context).value, LookupUrl)
         then (if FirstListed(result).Some? then [Item(FirstListed(result).value)] else [])
         else [Item(Obj(MaskedAttributes(result, masker).entries))]) +
        (if response.value.params.Some? then [Params(response.value.params.value)] else [])
    ensures response.Some? && |response.value.result| > 0 && write.ErrorLogged? &&
            UrlText(request.context).Some? ==>
      if EqualsIgnoreCase(UrlText(request.context).value, LookupUrl) then AsList(Get(response.value.result, JsonKey.Response)).Err?
      else !MaskedAttributes(response.value.result, masker).ok
  {
    var url := AsString(Get(request.context, JsonKey.Url));
    if url.Err? {
      return ErrorLogged(ExitLogFailure);
    }
    var params: seq<LogParam> := [];
    if response.Some? {
      var result := response.value.result;
      if |result| > 0 {
        if url.value.None? {
          return ErrorLogged(ExitLogFailure);  // url.equalsIgnoreCase on null
        }
        if EqualsIgnoreCase(url.value.value, LookupUrl) {
          var resList := AsList(Get(result, JsonKey.Response));
          if resList.Err? {
            return ErrorLogged(ExitLogFailure);
          }
          if resList.value.Some? && |resList.value.value| > 0 {
            params := params + [Item(resList.value.value[0])];
          }
        } else {
          var resMap := new AttributeMap(result);
          var ok := MaskAttributes(resMap, masker);
          if !ok {
            return ErrorLogged(ExitLogFailure);
          }
          params := params + [Item(Obj(resMap.entries))];
        }
      }
      if response.value.params.Some? {
        params := params + [Params(response.value.params.value)];
      }
    }
    write := Info(LogEvent(EventId, request.requestId, params));
  }

  // ---------------------------------------------------------------------------------------------
  // printExitLogOnFailure

  /** ProjectCommonException: its error code, message and HTTP response code. */
  datatype ProjectException = ProjectException(code: Option<string>, message: Message, responseCode: int)

  /** The response-code lookups printExitLogOnFailure uses; none of them is part of this model. */
  datatype ResponseCodes = ResponseCodes(
    getResponse: Option<string> -> Option<ResponseCode>,
    errorCode: ResponseCode -> string,
    errorMessage: ResponseCode -> string,
    responseCode: ResponseCode -> int,
    createResponseParamObj: (ResponseCode, Message, string) -> Option<ResponseParams>)

  /** A null exception is replaced by a generic internal error. */
  function Normalized(exception: Option<ProjectException>, codes: ResponseCodes): (e: ProjectException)
    ensures exception.Some? ==> e == exception.value
    ensures exception.None? ==>
      && e.code == Some(codes.errorCode(InternalError))
      && e.message == Some(codes.errorMessage(InternalError))
      && e.responseCode == codes.responseCode(ServerError)
  {
    if exception.Some? then exception.value
    else ProjectException(Some(codes.errorCode(InternalError)), Some(codes.errorMessage(InternalError)),
                          codes.responseCode(ServerError))
  }

  /** The code looked up from the exception's error code; SERVER_ERROR when it is unknown. */
  function ResolvedCode(e: ProjectException, codes: ResponseCodes): (c: ResponseCode)
    ensures codes.getResponse(e.code).None? ==> c == ServerError
    ensures codes.getResponse(e.code).Some? ==> c == codes.getResponse(e.code).value
  {
    if codes.getResponse(e.code).Some? then codes.getResponse(e.code).value else ServerError
  }

  /** An error message carrying the placeholder "{0}", which the exception's message replaces. */
  predicate HasPlaceholder(errmsg: Option<string>) {
    !IsBlank(errmsg) && Contains(errmsg.value, "{0}")
  }

  /**
   * printExitLogOnFailure: it never reaches the error logger, logs at most one parameter, and that
   * parameter is the ResponseParams built for the normalised exception with status FAILED, its
   * placeholder message replaced by the exception's message, and every other field as built.
   */
  method PrintExitLogOnFailure(request: Request, exception: Option<ProjectException>, codes: ResponseCodes)
    returns (write: LogWrite)
    ensures write.Info?
    ensures write.event.eid == EventId && write.event.requestId == request.requestId
    ensures |write.event.params| <= 1
    ensures forall p :: p in write.event.params ==> p.Params? && p.params.status == Some(JsonKey.Failed)
    ensures var e := Normalized(exception, codes);
      var built := codes.createResponseParamObj(ResolvedCode(e, codes), e.message, request.requestId);
      && (built.None? <==> write.event.params == [])
      && (built.Some? ==>
            var p := write.event.params[0].params;
            && p.resmsgid == built.value.resmsgid && p.msgid == built.value.msgid && p.err == built.value.err
            && p.errmsg == if HasPlaceholder(built.value.errmsg) then e.message else built.value.errmsg)
  {
    var e := exception;
    if e.None? {
      e := Some(ProjectException(Some(codes.errorCode(InternalError)), Some(codes.errorMessage(InternalError)),
                                 codes.responseCode(ServerError)));
    }
    var code := codes.getResponse(e.value.code);
    if code.None? {
      code := Some(ServerError);
    }
    var responseParams := codes.createResponseParamObj(code.value, e.value.message, request.requestId);
    if responseParams.Some? {
      responseParams := Some(responseParams.value.(status := Some(JsonKey.Failed)));
      if HasPlaceholder(responseParams.value.errmsg) {
        responseParams := Some(responseParams.value.(errmsg := e.value.message));
      }
    }
    var params: seq<LogParam> := [];
    if responseParams.Some? {
      params := params + [Params(responseParams.value)];
    }
    write := Info(LogEvent(EventId, request.requestId, params));
  }
}
