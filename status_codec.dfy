/**
 * The pure decisions of `RoboVac` (src/api/robovac-api.ts): how a reported
 * dps value is decoded through the model's specs, which status a push or a
 * fetch leaves behind, when the cached status may be served, how `set`
 * validates a value, how the setters find the raw token of a mapping, and
 * when a late accessor fires its update callback.
 */
module StatusCodec {
  import opened Wrappers
  import opened JsText
  import opened JsEntries
  import opened RobovacCommand
  import opened RobovacModelDetails

  /** `RobovacStatus`: one possibly undefined value per command. */
  type Status = map<Command, Option<JsValue>>

  /** The `dps` record of a device message, keyed by the numeric code of each entry. */
  type Dps = map<int, JsValue>

  /** What a call of the plugin's API can throw. */
  datatype ApiError =
    | PlainError(message: string)         // `new Error(...)`, thrown by `set`
    | ValueNotSupported(message: string)   // `ValueNotSupportedError`, thrown by the setters
    | TypeError                            // raised by the JavaScript runtime
    | TransportFailure                     // the rejection of a TuyAPI call

  /** The status a new `RoboVac` starts with: every command present and undefined. */
  function InitialStatus(): (r: Status)
    ensures r.Keys == AllCommands && forall c :: c in r ==> r[c].None?
  {
    map c | c in AllCommands :: None
  }

  // ---------------------------------------------------------------------------
  // Decoding (`dataReceived`)
  // ---------------------------------------------------------------------------

  /**
   * A STRING spec with a table calls `toLowerCase` on the raw value, which
   * only a string has; the model leaves what the runtime then throws out and
   * asks of the device that it send strings there.
   */
  predicate Decodable(spec: CommandSpec, raw: JsValue) {
    spec.valueType == String && spec.stringValues.Some? ==> raw.JsString?
  }

  predicate DpsDecodable(d: ModelDetails, dps: Dps) {
    forall k :: k in dps && k in d.byCode ==> Decodable(d.byCode[k], dps[k])
  }

  /**
   * The properties with lower-case names that every plain object inherits
   * from `Object.prototype`; a table built by `Object.fromEntries` has them
   * too, unless an own key of the same name hides them.
   */
  function InheritedProperty(key: string): Option<JsValue> {
    if key == "constructor" then Some(JsObjectFunction)
    else if key == "__proto__" then Some(JsObjectPrototype)
    else None
  }

  /**
   * The value `dataReceived` stores for a raw dps value at a code with this
   * spec: `stringValues[token] ?? raw` reads an own entry first, then an
   * inherited property, and falls back to the raw value on undefined.
   */
  function Decode(spec: CommandSpec, raw: JsValue): JsValue
    requires Decodable(spec, raw)
  {
    match spec.valueType
    case Boolean => raw
    case Number => raw
    case String =>
      if spec.stringValues.Some? then
        var key := Lower(raw.s);
        var entry: Option<Option<TableValue>> := Get(spec.stringValues.value, key);
        if entry.Some? then
          if entry.value.Some? then ToJs(entry.value.value) else raw
        else if InheritedProperty(key).Some? then InheritedProperty(key).value
        else raw
      else raw
  }

  /** BOOLEAN and NUMBER values, and strings at a code without a table, are stored as they came, whatever their host type. */
  lemma DecodeVerbatim(spec: CommandSpec, raw: JsValue)
    requires spec.valueType != String || spec.stringValues.None?
    ensures Decodable(spec, raw) && Decode(spec, raw) == raw
  {
  }

  /**
   * What is stored is the raw value itself, a value defined in the spec's
   * table, or a property inherited from `Object.prototype` under a name the
   * table does not define.
   */
  lemma DecodeRange(spec: CommandSpec, raw: JsValue)
    requires Decodable(spec, raw)
    ensures Decode(spec, raw) == raw ||
      (spec.stringValues.Some? &&
       exists i :: 0 <= i < |spec.stringValues.value| && spec.stringValues.value[i].1.Some? &&
         Decode(spec, raw) == ToJs(spec.stringValues.value[i].1.value)) ||
      (spec.stringValues.Some? && raw.JsString? && !HasKey(spec.stringValues.value, Lower(raw.s)) &&
       Some(Decode(spec, raw)) == InheritedProperty(Lower(raw.s)))
  {
    if spec.valueType == String && spec.stringValues.Some? {
      var t := spec.stringValues.value;
      var g := Get(t, Lower(raw.s));
      if g.Some? && g.value.Some? {
        var i := IndexOfKey(t, Lower(raw.s)).value;
        assert t[i].1 == g.value;
      }
    }
  }

  /**
   * In a stored table, a token that matches a source key up to case decodes to
   * that key's value, or to the raw token itself when the value is undefined
   * (the later of two keys equal up to case wins).
   */
  lemma DecodeStored(spec: CommandSpec, i: nat, token: string)
    requires spec.valueType == String && spec.stringValues.Some?
    requires i < |spec.stringValues.value|
    requires Lower(token) == Lower(spec.stringValues.value[i].0)
    requires forall j :: i < j < |spec.stringValues.value| ==>
      Lower(spec.stringValues.value[j].0) != Lower(spec.stringValues.value[i].0)
    ensures Decodable(Normalize(spec), JsString(token))
    ensures spec.stringValues.value[i].1.Some? ==>
      Decode(Normalize(spec), JsString(token)) == ToJs(spec.stringValues.value[i].1.value)
    ensures spec.stringValues.value[i].1.None? ==> Decode(Normalize(spec), JsString(token)) == JsString(token)
  {
    NormalizeTableLookup(spec.stringValues.value, i);
  }

  /**
   * In a stored table, a token that matches no source key up to case is
   * stored as it came, except "constructor" and "__proto__" in any case,
   * which read the properties inherited from `Object.prototype`.
   */
  lemma DecodeStoredMiss(spec: CommandSpec, token: string)
    requires spec.valueType == String && spec.stringValues.Some?
    requires forall j :: 0 <= j < |spec.stringValues.value| ==> Lower(spec.stringValues.value[j].0) != Lower(token)
    ensures Decodable(Normalize(spec), JsString(token))
    ensures Lower(token) == "constructor" ==> Decode(Normalize(spec), JsString(token)) == JsObjectFunction
    ensures Lower(token) == "__proto__" ==> Decode(Normalize(spec), JsString(token)) == JsObjectPrototype
    ensures Lower(token) != "constructor" && Lower(token) != "__proto__" ==>
      Decode(Normalize(spec), JsString(token)) == JsString(token)
  {
    NormalizeTableKeys(spec.stringValues.value, Lower(token));
  }

  /** In a table with distinct keys, the entry whose key is the token's lower-case form decides what is stored. */
  lemma DecodeAt(spec: CommandSpec, i: nat, token: string)
    requires spec.valueType == String && spec.stringValues.Some? && DistinctKeys(spec.stringValues.value)
    requires i < |spec.stringValues.value| && Lower(token) == spec.stringValues.value[i].0
    ensures Decodable(spec, JsString(token))
    ensures spec.stringValues.value[i].1.Some? ==> Decode(spec, JsString(token)) == ToJs(spec.stringValues.value[i].1.value)
    ensures spec.stringValues.value[i].1.None? ==> Decode(spec, JsString(token)) == JsString(token)
  {
    GetDistinct(spec.stringValues.value, i);
  }

  /** Tokens equal up to case decode alike once one of them is defined in the stored table. */
  lemma DecodeCaseInsensitive(spec: CommandSpec, a: string, b: string)
    requires spec.valueType == String && spec.stringValues.Some?
    requires Lower(a) == Lower(b)
    requires Get(spec.stringValues.value, Lower(a)).Some? && Get(spec.stringValues.value, Lower(a)).value.Some?
    ensures Decode(spec, JsString(a)) == Decode(spec, JsString(b))
  {
  }

  /**
   * The status after `dataReceived(dps)`: a command whose spec's code occurs in
   * the message gets the decoded value, every other command keeps its value.
   */
  function Ingest(d: ModelDetails, status: Status, dps: Dps): Status
    requires WellFormed(d) && DpsDecodable(d, dps)
  {
    map c | c in status ::
      if c in d.byCommand && d.byCommand[c].code in dps
      then Some(Decode(d.byCommand[c], dps[d.byCommand[c].code]))
      else status[c]
  }

  /** One entry of the message, decoded at its code's spec, on top of the entries already taken in. */
  lemma IngestStep(d: ModelDetails, status: Status, dps: Dps, done: set<int>, k: int)
    requires WellFormed(d) && DpsDecodable(d, dps)
    requires k in dps && k !in done && done <= dps.Keys
    ensures var before := Ingest(d, status, dps - (dps.Keys - done));
      var after := Ingest(d, status, dps - (dps.Keys - (done + {k})));
      (k in d.byCode && d.byCode[k].command in status ==> after == before[d.byCode[k].command := Some(Decode(d.byCode[k], dps[k]))]) &&
      (k !in d.byCode ==> after == before)
  {
    var before := Ingest(d, status, dps - (dps.Keys - done));
    var after := Ingest(d, status, dps - (dps.Keys - (done + {k})));
    if k in d.byCode && d.byCode[k].command in status {
      var c := d.byCode[k].command;
      assert after == before[c := Some(Decode(d.byCode[k], dps[k]))];
    }
  }

  /** Codes without a spec for this model are skipped. */
  lemma IngestSkipsUnknownCodes(d: ModelDetails, status: Status, dps: Dps, k: int)
    requires WellFormed(d) && DpsDecodable(d, dps)
    requires k !in d.byCode
    ensures Ingest(d, status, dps - {k}) == Ingest(d, status, dps)
  {
  }

  /** Commands whose code the message does not carry, and commands without a spec, keep their value. */
  lemma IngestKeepsAbsent(d: ModelDetails, status: Status, dps: Dps, c: Command)
    requires WellFormed(d) && DpsDecodable(d, dps)
    requires c in status
    requires forall k :: k in dps && k in d.byCode ==> d.byCode[k].command != c
    ensures Ingest(d, status, dps).Keys == status.Keys
    ensures Ingest(d, status, dps)[c] == status[c]
  {
  }

  /** Every entry of the message with a spec is stored, decoded, under its spec's command. */
  lemma IngestStores(d: ModelDetails, status: Status, dps: Dps, k: int)
    requires WellFormed(d) && DpsDecodable(d, dps)
    requires k in dps && k in d.byCode && d.byCode[k].command in status
    ensures Ingest(d, status, dps)[d.byCode[k].command] == Some(Decode(d.byCode[k], dps[k]))
  {
  }

  /** Taking in the same message twice leaves the status of taking it in once. */
  lemma IngestIdempotent(d: ModelDetails, status: Status, dps: Dps)
    requires WellFormed(d) && DpsDecodable(d, dps)
    ensures Ingest(d, Ingest(d, status, dps), dps) == Ingest(d, status, dps)
  {
  }

  // ---------------------------------------------------------------------------
  // Serving the status (`getStatus`, `getXCached`)
  // ---------------------------------------------------------------------------

  /** `getStatus` goes to the device unless the cached status is valid and at most `cachingDuration` ms old, either way. */
  predicate NeedsFetch(valid: bool, now: int, lastUpdate: int, cachingDuration: int) {
    !valid || (if now >= lastUpdate then now - lastUpdate else lastUpdate - now) > cachingDuration
  }

  lemma NeedsFetchWindow(valid: bool, now: int, lastUpdate: int, cachingDuration: int)
    ensures !NeedsFetch(valid, now, lastUpdate, cachingDuration) <==>
      valid && lastUpdate - cachingDuration <= now <= lastUpdate + cachingDuration
  {
  }

  // ---------------------------------------------------------------------------
  // Writing (`set` and the setters)
  // ---------------------------------------------------------------------------

  /** The upper-case name the `set` error message uses for a kind. */
  function KindLabel(t: ValueType): string {
    match t
    case Boolean => "BOOLEAN"
    case Number => "NUMBER"
    case String => "STRING"
  }

  /** The checks `set` makes before it touches the transport: the spec to write to, or the error thrown. */
  function ValidateSet(d: ModelDetails, command: Command, newValue: JsValue): (r: Result<CommandSpec, ApiError>)
    ensures r.Success? <==> command in d.byCommand && HasKind(newValue, d.byCommand[command].valueType)
    ensures r.Success? ==> r.value == d.byCommand[command]
    ensures command !in d.byCommand ==>
      r == Failure(PlainError("Robovac command " + CommandName(command) + " is not supported by model " + d.modelId))
    ensures command in d.byCommand && !HasKind(newValue, d.byCommand[command].valueType) ==>
      r == Failure(PlainError("Invalid value type for command " + CommandName(d.byCommand[command].command) + ": expected " +
        KindLabel(d.byCommand[command].valueType) + ", got " + TypeOf(newValue)))
  {
    match GetCommandSpecByCommand(d, command)
    case None => Failure(PlainError("Robovac command " + CommandName(command) + " is not supported by model " + d.modelId))
    case Some(spec) =>
      if HasKind(newValue, spec.valueType) then Success(spec)
      else Failure(PlainError("Invalid value type for command " + CommandName(spec.command) + ": expected " +
        KindLabel(spec.valueType) + ", got " + TypeOf(newValue)))
  }

  /** The entry's value is a mapping with this id. */
  predicate MatchesId(v: Option<TableValue>, id: int) {
    v.Some? && v.value.Mapped? && v.value.mapping.id == id
  }

  /** `find` reads the entry's `id` without throwing and moves on. */
  predicate PassesOver(v: Option<TableValue>, id: int) {
    v.Some? && !MatchesId(v, id)
  }

  /**
   * `Object.entries(t).find(([, value]) => value.id === id)?.[0]`: the key of
   * the first entry mapped to `id`, or undefined; reading `id` of an
   * undefined entry throws a TypeError, and a plain string has no `id`.
   */
  function FindToken(t: StringTable, id: int): Result<Option<string>, ApiError> {
    if t == [] then Success(None)
    else
      match t[0].1
      case None => Failure(TypeError)
      case Some(Plain(_)) => FindToken(t[1..], id)
      case Some(Mapped(m)) => if m.id == id then Success(Some(t[0].0)) else FindToken(t[1..], id)
  }

  /** The search yields the key of the first entry mapped to `id` when every entry before it is defined and different. */
  lemma {:induction false} FindTokenFound(t: StringTable, id: int, i: nat)
    requires i < |t| && MatchesId(t[i].1, id)
    requires forall j :: 0 <= j < i ==> PassesOver(t[j].1, id)
    ensures FindToken(t, id) == Success(Some(t[i].0))
  {
    if i > 0 {
      assert PassesOver(t[0].1, id);
      FindTokenFound(t[1..], id, i - 1);
    }
  }

  /** The search throws on the first undefined entry it reaches. */
  lemma {:induction false} FindTokenUndefined(t: StringTable, id: int, i: nat)
    requires i < |t| && t[i].1.None?
    requires forall j :: 0 <= j < i ==> PassesOver(t[j].1, id)
    ensures FindToken(t, id) == Failure(TypeError)
  {
    if i > 0 {
      assert PassesOver(t[0].1, id);
      FindTokenUndefined(t[1..], id, i - 1);
    }
  }

  /** The search finds nothing exactly when it passes over every entry. */
  lemma {:induction false} FindTokenNone(t: StringTable, id: int)
    ensures FindToken(t, id) == Success(None) <==> forall j :: 0 <= j < |t| ==> PassesOver(t[j].1, id)
  {
    if t != [] {
      FindTokenNone(t[1..], id);
      if forall j :: 0 <= j < |t| ==> PassesOver(t[j].1, id) {
        assert forall j :: 0 <= j < |t| - 1 ==> PassesOver(t[1..][j].1, id) by {
          forall j | 0 <= j < |t| - 1 ensures PassesOver(t[1..][j].1, id) {
            assert t[1..][j] == t[j + 1];
          }
        }
      }
      if PassesOver(t[0].1, id) && forall j :: 0 <= j < |t| - 1 ==> PassesOver(t[1..][j].1, id) {
        forall j | 0 <= j < |t| ensures PassesOver(t[j].1, id) {
          if j > 0 {
            assert t[j] == t[1..][j - 1];
          }
        }
      }
    }
  }

  /** A key the search returns belongs to an entry mapped to `id`. */
  lemma {:induction false} FindTokenSound(t: StringTable, id: int)
    requires FindToken(t, id).Success? && FindToken(t, id).value.Some?
    ensures exists i :: 0 <= i < |t| && t[i].0 == FindToken(t, id).value.value && MatchesId(t[i].1, id)
  {
    if t[0].1.Some? && t[0].1.value.Mapped? && t[0].1.value.mapping.id == id {
      assert MatchesId(t[0].1, id);
    } else {
      FindTokenSound(t[1..], id);
      var i :| 0 <= i < |t| - 1 && t[1..][i].0 == FindToken(t[1..], id).value.value && MatchesId(t[1..][i].1, id);
      assert t[i + 1] == t[1..][i];
    }
  }

  /**
   * The raw token `setDirection`, `setWorkMode` and `setFanSpeed` send for a
   * mapping: without a spec or a table for the command, `Object.entries`
   * throws a TypeError; when no entry has the mapping's id, a
   * `ValueNotSupportedError` is thrown.
   */
  function SetterToken(d: ModelDetails, command: Command, newValue: ValueMapping): Result<string, ApiError> {
    match GetCommandSpecByCommand(d, command)
    case None => Failure(TypeError)
    case Some(spec) =>
      match spec.stringValues
      case None => Failure(TypeError)
      case Some(t) =>
        match FindToken(t, newValue.id)
        case Failure(e) => Failure(e)
        case Success(None) => Failure(ValueNotSupported(ValueNotSupportedMessage(Some(JsMapping(newValue)), command, Some(d.modelId))))
        case Success(Some(k)) => Success(k)
  }

  /** A token the setters send is a key of the command's stored table whose entry has the mapping's id. */
  lemma SetterTokenSound(d: ModelDetails, command: Command, newValue: ValueMapping)
    requires SetterToken(d, command, newValue).Success?
    ensures command in d.byCommand && d.byCommand[command].stringValues.Some?
    ensures var t := d.byCommand[command].stringValues.value;
      exists i :: 0 <= i < |t| && t[i].0 == SetterToken(d, command, newValue).value && MatchesId(t[i].1, newValue.id)
  {
    FindTokenSound(d.byCommand[command].stringValues.value, newValue.id);
  }

  /** A model without a spec, or without a table, for the command makes the setter throw a TypeError. */
  lemma SetterTokenNoTable(d: ModelDetails, command: Command, newValue: ValueMapping)
    requires command !in d.byCommand || d.byCommand[command].stringValues.None?
    ensures SetterToken(d, command, newValue) == Failure(TypeError)
  {
  }

  // ---------------------------------------------------------------------------
  // Late accessors (`getX(raceStatus)`)
  // ---------------------------------------------------------------------------

  /** The commands that have a `getX` accessor and an update callback. */
  predicate HasAccessor(c: Command) {
    c != Default && c != SpecialCommand
  }

  /**
   * A `getX(raceStatus)` accessor calls its update callback iff a race status
   * was passed, that race is over, the callback is registered and the value
   * it returns is truthy.
   */
  predicate LateToTheParty(raceGiven: bool, raceRunning: bool, callbackRegistered: bool, value: Option<JsValue>) {
    raceGiven && !raceRunning && callbackRegistered && Truthy(value)
  }

  /** An accessor whose race is still running, or that has no race, never calls back. */
  lemma NoCallbackWhileRacing(raceGiven: bool, raceRunning: bool, callbackRegistered: bool, value: Option<JsValue>)
    requires !raceGiven || raceRunning
    ensures !LateToTheParty(raceGiven, raceRunning, callbackRegistered, value)
  {
  }

  /** Falsy values (undefined, false, 0, the empty string) are never called back, so a battery level of 0 is not reported late. */
  lemma NoCallbackForFalsy(raceGiven: bool, raceRunning: bool, callbackRegistered: bool)
    ensures !LateToTheParty(raceGiven, raceRunning, callbackRegistered, None)
    ensures !LateToTheParty(raceGiven, raceRunning, callbackRegistered, Some(JsBoolean(false)))
    ensures !LateToTheParty(raceGiven, raceRunning, callbackRegistered, Some(JsNumber(0)))
    ensures !LateToTheParty(raceGiven, raceRunning, callbackRegistered, Some(JsString("")))
  {
  }
}
