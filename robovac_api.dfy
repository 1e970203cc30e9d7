/**
 * `RoboVac` (src/api/robovac-api.ts): the status cache of one vacuum and the
 * requests it makes of its TuyAPI device connection.
 *
 * The asynchronous code is a sequential state machine here. A call runs
 * up to its first `await` and returns; each awaited transport call is
 * settled later by a method of its own, whose parameters are the device's
 * answer. Every running `getStatusFromDevice` has a ticket, and
 * `ongoingStatusUpdate` holds the ticket of the promise it stores (the
 * identity of that promise).
 */
module RobovacApi {
  import opened Wrappers
  import opened RobovacCommand
  import opened RobovacModelDetails
  import opened StatusCodec
  import opened Race

  /** A non-empty set of dps codes has a member. */
  lemma NonEmptyCodes(codes: set<int>)
    requires codes != {}
    ensures exists k :: k in codes
  {
    if forall k :: k !in codes {
      assert false;
    }
  }

  /** `RobovacResponse`, a device message; the `dps` of a push may be missing. */
  datatype Message = Message(devId: string, dps: Option<Dps>)

  /** What a caller of `getStatus` ends up with: the cached status at once, or the promise of a fetch. */
  datatype StatusRequest = Served | Awaiting(ticket: nat)

  /** Where a running `getStatusFromDevice` waits: on `connect()` or on `get({schema: true})`. */
  datatype FetchPhase = Connecting | Fetching

  /** How a fetch's promise settled. */
  datatype Settled = Resolved | Rejected(error: ApiError)

  /** A call of one of the callbacks the plugin was given. */
  datatype Notification =
    | DataReceivedCallback(message: Message)
    | UpdateCallback(command: Command, value: JsValue)

  /**
   * The TuyAPI device connection, seen from the plugin: whether it is
   * connected, and the requests made of it.
   */
  class Transport {
    var connected: bool
    var connects: nat                    // `connect()` calls made (each preceded by `find()` without a device ip)
    var gets: nat                        // `get({schema: true})` calls made
    var writes: seq<(int, JsValue)>      // `set({dps, set})` calls made, in order
    var disconnects: nat                 // `disconnect()` calls made

    constructor()
      ensures !connected && connects == 0 && gets == 0 && writes == [] && disconnects == 0
    {
      connected := false;
      connects := 0;
      gets := 0;
      writes := [];
      disconnects := 0;
    }

    /** The connection came up or went down on the device's side (the initial connect settling, a drop). */
    method ConnectionChanged(up: bool)
      modifies this
      ensures connected == up
      ensures connects == old(connects) && gets == old(gets) && writes == old(writes) && disconnects == old(disconnects)
    {
      connected := up;
    }
  }

  class RoboVac {
    const modelDetails: ModelDetails
    const cachingDuration: int
    const callbacks: set<Command>           // the commands whose update callback was given
    const hasDataReceivedCallback: bool
    const api: Transport

    var lastResponse: Message
    var lastStatus: Status
    var lastStatusUpdate: int               // milliseconds
    var lastStatusValid: bool
    var ongoingStatusUpdate: Option<nat>
    var fetches: map<nat, FetchPhase>       // the `getStatusFromDevice` calls still running
    var outcomes: map<nat, Settled>         // the ones that have settled
    var nextTicket: nat
    var notifications: seq<Notification>    // the callbacks called, in order

    ghost predicate Valid()
      reads this
    {
      WellFormed(modelDetails) &&
      (forall c: Command :: c in lastStatus) &&
      (ongoingStatusUpdate.Some? ==> ongoingStatusUpdate.value in fetches) &&
      (forall t :: t in fetches ==> t < nextTicket && t !in outcomes) &&
      (forall t :: t in outcomes ==> t < nextTicket)
    }

    /** Everything but the connection state (`ongoingStatusUpdate`, `lastStatusValid`) is as it was. */
    twostate predicate KeepsStatus()
      reads this
    {
      lastResponse == old(lastResponse) && lastStatus == old(lastStatus) &&
      lastStatusUpdate == old(lastStatusUpdate) && fetches == old(fetches) && outcomes == old(outcomes) &&
      nextTicket == old(nextTicket) && notifications == old(notifications)
    }

    /**
     * The constructor, given the model details `createModelDetailsFromModelId`
     * built; it starts the initial `connect()`, whose settling is
     * `Transport.ConnectionChanged`.
     */
    constructor(modelDetails: ModelDetails, cachingDuration: int, callbacks: set<Command>, hasDataReceivedCallback: bool, api: Transport)
      requires WellFormed(modelDetails)
      modifies api
      ensures Valid()
      ensures this.modelDetails == modelDetails && this.cachingDuration == cachingDuration && this.api == api
      ensures this.callbacks == callbacks && this.hasDataReceivedCallback == hasDataReceivedCallback
      ensures lastResponse == Message("default - invalid", Some(map[]))
      ensures lastStatus == InitialStatus() && lastStatusUpdate == 0 && !lastStatusValid
      ensures ongoingStatusUpdate.None? && fetches == map[] && outcomes == map[] && nextTicket == 0 && notifications == []
      ensures api.connects == old(api.connects) + 1 && api.connected == old(api.connected)
      ensures api.gets == old(api.gets) && api.writes == old(api.writes) && api.disconnects == old(api.disconnects)
    {
      this.modelDetails := modelDetails;
      this.cachingDuration := cachingDuration;
      this.callbacks := callbacks;
      this.hasDataReceivedCallback := hasDataReceivedCallback;
      this.api := api;
      lastResponse := Message("default - invalid", Some(map[]));
      lastStatus := InitialStatus();
      lastStatusUpdate := 0;
      lastStatusValid := false;
      ongoingStatusUpdate := None;
      fetches := map[];
      outcomes := map[];
      nextTicket := 0;
      notifications := [];
      new;
      CommandVocabulary();
      api.connects := api.connects + 1;
    }

    /** `dataReceived(data)`: the message's entries are taken in one after another, in whatever order. */
    method DataReceived(data: Message)
      requires Valid() && data.dps.Some? && DpsDecodable(modelDetails, data.dps.value)
      modifies this
      ensures Valid() && lastResponse == data
      ensures lastStatus == Ingest(modelDetails, old(lastStatus), data.dps.value)
      ensures lastStatusUpdate == old(lastStatusUpdate) && lastStatusValid == old(lastStatusValid)
      ensures ongoingStatusUpdate == old(ongoingStatusUpdate) && fetches == old(fetches) && outcomes == old(outcomes)
      ensures nextTicket == old(nextTicket) && notifications == old(notifications)
    {
      lastResponse := data;
      var dps := data.dps.value;
      var rest := dps.Keys;
      assert dps - (dps.Keys - {}) == map[];
      while rest != {}
        invariant rest <= dps.Keys && (forall c: Command :: c in lastStatus)
        invariant lastStatus == Ingest(modelDetails, old(lastStatus), dps - rest)
        invariant lastResponse == data
        invariant ongoingStatusUpdate == old(ongoingStatusUpdate) && fetches == old(fetches) && outcomes == old(outcomes)
        invariant lastStatusUpdate == old(lastStatusUpdate) && lastStatusValid == old(lastStatusValid)
        invariant nextTicket == old(nextTicket) && notifications == old(notifications)
        decreases rest
      {
        NonEmptyCodes(rest);
        var dpsCode :| dpsCode in rest;   // the order the codes are visited in is not modelled
        var done := dps.Keys - rest;
        assert dps - rest == dps - (dps.Keys - done);
        IngestStep(modelDetails, old(lastStatus), dps, done, dpsCode);
        assert dps - (rest - {dpsCode}) == dps - (dps.Keys - (done + {dpsCode}));
        var commandSpec := GetCommandSpecByCode(modelDetails, dpsCode);
        if commandSpec.Some? {
          lastStatus := lastStatus[commandSpec.value.command := Some(Decode(commandSpec.value, dps[dpsCode]))];
        }
        rest := rest - {dpsCode};
      }
      assert dps - {} == dps;
    }

    /** `disconnect()`: forget the promise in flight, invalidate the cache, and close the connection if open. */
    method Disconnect()
      requires Valid()
      modifies this, api
      ensures Valid() && KeepsStatus()
      ensures ongoingStatusUpdate.None? && !lastStatusValid && forall c :: GetCached(c).None?
      ensures !api.connected && api.disconnects == old(api.disconnects) + (if old(api.connected) then 1 else 0)
      ensures api.connects == old(api.connects) && api.gets == old(api.gets) && api.writes == old(api.writes)
    {
      ongoingStatusUpdate := None;
      lastStatusValid := false;
      if api.connected {
        api.disconnects := api.disconnects + 1;
        api.connected := false;
      }
    }

    /** `getStatus()`: serve the cache while it is valid and fresh, otherwise go through the synchronized fetch. */
    method GetStatus(now: int) returns (req: StatusRequest)
      requires Valid()
      modifies this, api
      ensures Valid()
      ensures !NeedsFetch(old(lastStatusValid), now, old(lastStatusUpdate), cachingDuration) ==>
        req == Served && unchanged(this) && unchanged(api)
      ensures NeedsFetch(old(lastStatusValid), now, old(lastStatusUpdate), cachingDuration) ==> SynchronizedFetch(req)
    {
      if NeedsFetch(lastStatusValid, now, lastStatusUpdate, cachingDuration) {
        req := GetStatusFromDeviceSynchronized();
      } else {
        req := Served;
      }
    }

    /**
     * What `getStatusFromDeviceSynchronized` does: join the promise in flight,
     * or start a fetch and make it the one in flight. A new fetch connects
     * first when the transport is not connected, and asks for the schema
     * otherwise.
     */
    twostate predicate SynchronizedFetch(req: StatusRequest)
      reads this, api
    {
      if old(ongoingStatusUpdate).Some? then
        req == Awaiting(old(ongoingStatusUpdate).value) && unchanged(this) && unchanged(api)
      else
        var t := old(nextTicket);
        req == Awaiting(t) && ongoingStatusUpdate == Some(t) && nextTicket == t + 1 &&
        fetches == old(fetches)[t := if old(api.connected) then Fetching else Connecting] &&
        lastResponse == old(lastResponse) && lastStatus == old(lastStatus) && lastStatusUpdate == old(lastStatusUpdate) &&
        lastStatusValid == old(lastStatusValid) && outcomes == old(outcomes) && notifications == old(notifications) &&
        api.connects == old(api.connects) + (if old(api.connected) then 0 else 1) &&
        api.gets == old(api.gets) + (if old(api.connected) then 1 else 0) &&
        api.connected == old(api.connected) && api.writes == old(api.writes) && api.disconnects == old(api.disconnects)
    }

    method GetStatusFromDeviceSynchronized() returns (req: StatusRequest)
      requires Valid()
      modifies this, api
      ensures Valid() && SynchronizedFetch(req)
    {
      if ongoingStatusUpdate.Some? {
        return Awaiting(ongoingStatusUpdate.value);
      }
      var t := GetStatusFromDevice();
      ongoingStatusUpdate := Some(t);
      req := Awaiting(t);
    }

    /** `getStatusFromDevice()` up to its first `await`. */
    method GetStatusFromDevice() returns (t: nat)
      requires Valid()
      modifies this, api
      ensures Valid() && t == old(nextTicket) && nextTicket == t + 1
      ensures fetches == old(fetches)[t := if old(api.connected) then Fetching else Connecting]
      ensures ongoingStatusUpdate == old(ongoingStatusUpdate) && outcomes == old(outcomes)
      ensures lastResponse == old(lastResponse) && lastStatus == old(lastStatus) && lastStatusUpdate == old(lastStatusUpdate)
      ensures lastStatusValid == old(lastStatusValid) && notifications == old(notifications)
      ensures api.connects == old(api.connects) + (if old(api.connected) then 0 else 1)
      ensures api.gets == old(api.gets) + (if old(api.connected) then 1 else 0)
      ensures api.connected == old(api.connected) && api.writes == old(api.writes) && api.disconnects == old(api.disconnects)
    {
      t := nextTicket;
      nextTicket := nextTicket + 1;
      if !api.connected {
        api.connects := api.connects + 1;
        fetches := fetches[t := Connecting];
      } else {
        api.gets := api.gets + 1;
        fetches := fetches[t := Fetching];
      }
    }

    /** The fetch failed: `disconnect()`, and its promise rejects with the error. */
    method FailFetch(t: nat, e: ApiError)
      requires Valid() && t in fetches
      modifies this, api
      ensures Valid()
      ensures fetches == old(fetches) - {t} && outcomes == old(outcomes)[t := Rejected(e)]
      ensures ongoingStatusUpdate.None? && !lastStatusValid
      ensures lastResponse == old(lastResponse) && lastStatus == old(lastStatus) && lastStatusUpdate == old(lastStatusUpdate)
      ensures nextTicket == old(nextTicket) && notifications == old(notifications)
      ensures !api.connected && api.disconnects == old(api.disconnects) + (if old(api.connected) then 1 else 0)
      ensures api.connects == old(api.connects) && api.gets == old(api.gets) && api.writes == old(api.writes)
    {
      Disconnect();
      fetches := fetches - {t};
      outcomes := outcomes[t := Rejected(e)];
    }

    /** The `connect()` fetch `t` awaits settles: on success the fetch asks for the schema. */
    method FetchConnected(t: nat, ok: bool)
      requires Valid() && t in fetches && fetches[t] == Connecting
      modifies this, api
      ensures Valid()
      ensures ok ==> fetches == old(fetches)[t := Fetching] && outcomes == old(outcomes) && unchanged(this`ongoingStatusUpdate, this`lastStatusValid)
      ensures ok ==> api.connected && api.gets == old(api.gets) + 1 && api.disconnects == old(api.disconnects)
      ensures !ok ==> fetches == old(fetches) - {t} && outcomes == old(outcomes)[t := Rejected(TransportFailure)]
      ensures !ok ==> ongoingStatusUpdate.None? && !lastStatusValid && !api.connected
      ensures !ok ==> api.disconnects == old(api.disconnects) + (if old(api.connected) then 1 else 0) && api.gets == old(api.gets)
      ensures lastResponse == old(lastResponse) && lastStatus == old(lastStatus) && lastStatusUpdate == old(lastStatusUpdate)
      ensures nextTicket == old(nextTicket) && notifications == old(notifications)
      ensures api.connects == old(api.connects) && api.writes == old(api.writes)
    {
      if ok {
        api.connected := true;
        api.gets := api.gets + 1;
        fetches := fetches[t := Fetching];
      } else {
        FailFetch(t, TransportFailure);
      }
    }

    /**
     * The `get({schema: true})` fetch `t` awaits settles with the device's
     * message, or fails (None). A message is taken in; the cache becomes valid
     * as of `now` and nothing is in flight any more, whichever promise
     * `ongoingStatusUpdate` held. A message without `dps` makes `dataReceived`
     * throw a TypeError, which fails the fetch.
     */
    method FetchAnswered(t: nat, answer: Option<Message>, now: int)
      requires Valid() && t in fetches && fetches[t] == Fetching
      requires answer.Some? && answer.value.dps.Some? ==> DpsDecodable(modelDetails, answer.value.dps.value)
      modifies this, api
      ensures Valid()
      ensures answer.Some? && answer.value.dps.Some? ==>
        lastResponse == answer.value && lastStatus == Ingest(modelDetails, old(lastStatus), answer.value.dps.value) &&
        lastStatusUpdate == now && lastStatusValid && ongoingStatusUpdate.None? &&
        fetches == old(fetches) - {t} && outcomes == old(outcomes)[t := Resolved] && unchanged(api) &&
        forall c :: GetCached(c) == Ingest(modelDetails, old(lastStatus), answer.value.dps.value)[c]
      ensures answer.Some? && answer.value.dps.None? ==>
        lastResponse == answer.value && outcomes == old(outcomes)[t := Rejected(TypeError)]
      ensures answer.None? ==>
        lastResponse == old(lastResponse) && outcomes == old(outcomes)[t := Rejected(TransportFailure)]
      ensures !(answer.Some? && answer.value.dps.Some?) ==>
        lastStatus == old(lastStatus) && lastStatusUpdate == old(lastStatusUpdate) &&
        fetches == old(fetches) - {t} && ongoingStatusUpdate.None? && !lastStatusValid && !api.connected &&
        (forall c :: GetCached(c).None?) &&
        api.disconnects == old(api.disconnects) + (if old(api.connected) then 1 else 0) &&
        api.connects == old(api.connects) && api.gets == old(api.gets) && api.writes == old(api.writes)
      ensures nextTicket == old(nextTicket) && notifications == old(notifications)
    {
      if answer.None? {
        FailFetch(t, TransportFailure);
      } else if answer.value.dps.None? {
        lastResponse := answer.value;
        FailFetch(t, TypeError);
      } else {
        DataReceived(answer.value);
        lastStatusUpdate := now;
        lastStatusValid := true;
        ongoingStatusUpdate := None;
        fetches := fetches - {t};
        outcomes := outcomes[t := Resolved];
      }
    }

    /** The `data` event: take in the message, and if there is a data callback, call it and mark the cache valid as of `now`. */
    method OnData(data: Message, now: int)
      requires Valid() && (data.dps.Some? ==> DpsDecodable(modelDetails, data.dps.value))
      modifies this
      ensures Valid()
      ensures data.dps.None? ==> unchanged(this)
      ensures data.dps.Some? ==>
        lastResponse == data && lastStatus == Ingest(modelDetails, old(lastStatus), data.dps.value) &&
        ongoingStatusUpdate == old(ongoingStatusUpdate) && fetches == old(fetches) && outcomes == old(outcomes) &&
        nextTicket == old(nextTicket)
      ensures data.dps.Some? && hasDataReceivedCallback ==>
        notifications == old(notifications) + [DataReceivedCallback(data)] && lastStatusUpdate == now && lastStatusValid
      ensures data.dps.Some? && !hasDataReceivedCallback ==>
        notifications == old(notifications) && lastStatusUpdate == old(lastStatusUpdate) && lastStatusValid == old(lastStatusValid)
    {
      if data.dps.Some? {
        DataReceived(data);
        if hasDataReceivedCallback {
          notifications := notifications + [DataReceivedCallback(data)];
          lastStatusUpdate := now;
          lastStatusValid := true;
        }
      }
    }

    /** The `dp-refresh` event: take in the message and call the data callback; validity and age stay as they were. */
    method OnDpRefresh(data: Message)
      requires Valid() && (data.dps.Some? ==> DpsDecodable(modelDetails, data.dps.value))
      modifies this
      ensures Valid()
      ensures data.dps.None? ==> unchanged(this)
      ensures data.dps.Some? ==>
        lastResponse == data && lastStatus == Ingest(modelDetails, old(lastStatus), data.dps.value) &&
        lastStatusUpdate == old(lastStatusUpdate) && lastStatusValid == old(lastStatusValid) &&
        ongoingStatusUpdate == old(ongoingStatusUpdate) && fetches == old(fetches) && outcomes == old(outcomes) &&
        nextTicket == old(nextTicket) &&
        notifications == old(notifications) + (if hasDataReceivedCallback then [DataReceivedCallback(data)] else [])
    {
      if data.dps.Some? {
        DataReceived(data);
        if hasDataReceivedCallback {
          notifications := notifications + [DataReceivedCallback(data)];
        }
      }
    }

    /** The `error` event. */
    method OnError()
      requires Valid()
      modifies this, api
      ensures Valid() && KeepsStatus()
      ensures ongoingStatusUpdate.None? && !lastStatusValid
      ensures !api.connected && api.disconnects == old(api.disconnects) + (if old(api.connected) then 1 else 0)
      ensures api.connects == old(api.connects) && api.gets == old(api.gets) && api.writes == old(api.writes)
    {
      Disconnect();
    }

    /** A `getXCached()` getter: the stored value while the status is valid, undefined otherwise. */
    function GetCached(c: Command): (r: Option<JsValue>)
      reads this
      requires Valid()
      ensures !lastStatusValid ==> r.None?
      ensures lastStatusValid ==> r == lastStatus[c]
    {
      if lastStatusValid then lastStatus[c] else None
    }

    /**
     * A `getX(raceStatus)` accessor once its `getStatus()` has settled: it
     * rethrows a failed fetch, and otherwise returns the command's current
     * value and, when it is late to the party, calls the update callback.
     */
    method Accessor(c: Command, raceStatus: RaceStatus?, req: StatusRequest) returns (r: Result<Option<JsValue>, ApiError>)
      requires Valid() && HasAccessor(c)
      requires req.Awaiting? ==> req.ticket in outcomes
      modifies this
      ensures Valid()
      ensures req.Awaiting? && old(outcomes)[req.ticket].Rejected? ==>
        r == Failure(old(outcomes)[req.ticket].error) && unchanged(this)
      ensures !(req.Awaiting? && old(outcomes)[req.ticket].Rejected?) ==>
        r == Success(lastStatus[c]) &&
        notifications == old(notifications) +
          (if LateToTheParty(raceStatus != null, raceStatus != null && raceStatus.running, c in callbacks, lastStatus[c])
           then [UpdateCallback(c, lastStatus[c].value)] else [])
      ensures lastResponse == old(lastResponse) && lastStatus == old(lastStatus) && lastStatusUpdate == old(lastStatusUpdate)
      ensures lastStatusValid == old(lastStatusValid) && ongoingStatusUpdate == old(ongoingStatusUpdate)
      ensures fetches == old(fetches) && outcomes == old(outcomes) && nextTicket == old(nextTicket)
    {
      if req.Awaiting? && outcomes[req.ticket].Rejected? {
        return Failure(outcomes[req.ticket].error);
      }
      var value := lastStatus[c];
      if raceStatus != null && !raceStatus.IsRunning() && c in callbacks && Truthy(value) {
        notifications := notifications + [UpdateCallback(c, value.value)];
      }
      r := Success(value);
    }

    /**
     * What `set(command, newValue)` does, the connect and the write settling
     * as `connectOk` and `writeOk` say: a value the checks refuse throws
     * before the transport is touched; otherwise the transport connects when
     * it is not connected and writes `{dps: code, set: newValue}`, and a
     * failure of either disconnects and rethrows.
     */
    twostate predicate SetDone(command: Command, newValue: JsValue, connectOk: bool, writeOk: bool, new r: Result<(), ApiError>)
      reads this, api
    {
      match ValidateSet(modelDetails, command, newValue)
      case Failure(e) => r == Failure(e) && unchanged(this) && unchanged(api)
      case Success(spec) =>
        var reached := old(api.connected) || connectOk;
        var ok := reached && writeOk;
        r == (if ok then Success(()) else Failure(TransportFailure)) &&
        api.connects == old(api.connects) + (if old(api.connected) then 0 else 1) && api.gets == old(api.gets) &&
        api.writes == old(api.writes) + (if reached then [(spec.code, newValue)] else []) &&
        KeepsStatus() &&
        (ok ==> api.connected && api.disconnects == old(api.disconnects) &&
                ongoingStatusUpdate == old(ongoingStatusUpdate) && lastStatusValid == old(lastStatusValid)) &&
        (!ok ==> !api.connected && api.disconnects == old(api.disconnects) + (if reached then 1 else 0) &&
                 ongoingStatusUpdate.None? && !lastStatusValid)
    }

    method Set(command: Command, newValue: JsValue, connectOk: bool, writeOk: bool) returns (r: Result<(), ApiError>)
      requires Valid()
      modifies this, api
      ensures Valid() && SetDone(command, newValue, connectOk, writeOk, r)
    {
      var checked := ValidateSet(modelDetails, command, newValue);
      if checked.Failure? {
        return Failure(checked.error);
      }
      var commandSpec := checked.value;
      if !api.connected {
        api.connects := api.connects + 1;
        if !connectOk {
          Disconnect();
          return Failure(TransportFailure);
        }
        api.connected := true;
      }
      api.writes := api.writes + [(commandSpec.code, newValue)];
      if !writeOk {
        Disconnect();
        return Failure(TransportFailure);
      }
      r := Success(());
    }

    /** `setDirection`, `setWorkMode` and `setFanSpeed`: find the raw token of the mapping, then `set` it. */
    method SetMapped(command: Command, newValue: ValueMapping, connectOk: bool, writeOk: bool) returns (r: Result<(), ApiError>)
      requires Valid()
      modifies this, api
      ensures Valid()
      ensures SetterToken(modelDetails, command, newValue).Failure? ==>
        r == Failure(SetterToken(modelDetails, command, newValue).error) && unchanged(this) && unchanged(api)
      ensures SetterToken(modelDetails, command, newValue).Success? ==>
        SetDone(command, JsString(SetterToken(modelDetails, command, newValue).value), connectOk, writeOk, r)
    {
      var entry := SetterToken(modelDetails, command, newValue);
      if entry.Failure? {
        return Failure(entry.error);
      }
      r := Set(command, JsString(entry.value), connectOk, writeOk);
    }

    method SetDirection(newValue: ValueMapping, connectOk: bool, writeOk: bool) returns (r: Result<(), ApiError>)
      requires Valid()
      modifies this, api
      ensures Valid()
      ensures SetterToken(modelDetails, Direction, newValue).Failure? ==>
        r == Failure(SetterToken(modelDetails, Direction, newValue).error) && unchanged(this) && unchanged(api)
      ensures SetterToken(modelDetails, Direction, newValue).Success? ==>
        SetDone(Direction, JsString(SetterToken(modelDetails, Direction, newValue).value), connectOk, writeOk, r)
    {
      r := SetMapped(Direction, newValue, connectOk, writeOk);
    }

    method SetWorkMode(newValue: ValueMapping, connectOk: bool, writeOk: bool) returns (r: Result<(), ApiError>)
      requires Valid()
      modifies this, api
      ensures Valid()
      ensures SetterToken(modelDetails, WorkMode, newValue).Failure? ==>
        r == Failure(SetterToken(modelDetails, WorkMode, newValue).error) && unchanged(this) && unchanged(api)
      ensures SetterToken(modelDetails, WorkMode, newValue).Success? ==>
        SetDone(WorkMode, JsString(SetterToken(modelDetails, WorkMode, newValue).value), connectOk, writeOk, r)
    {
      r := SetMapped(WorkMode, newValue, connectOk, writeOk);
    }

    method SetFanSpeed(newValue: ValueMapping, connectOk: bool, writeOk: bool) returns (r: Result<(), ApiError>)
      requires Valid()
      modifies this, api
      ensures Valid()
      ensures SetterToken(modelDetails, FanSpeed, newValue).Failure? ==>
        r == Failure(SetterToken(modelDetails, FanSpeed, newValue).error) && unchanged(this) && unchanged(api)
      ensures SetterToken(modelDetails, FanSpeed, newValue).Success? ==>
        SetDone(FanSpeed, JsString(SetterToken(modelDetails, FanSpeed, newValue).value), connectOk, writeOk, r)
    {
      r := SetMapped(FanSpeed, newValue, connectOk, writeOk);
    }

    method SetPlayPause(newValue: bool, connectOk: bool, writeOk: bool) returns (r: Result<(), ApiError>)
      requires Valid()
      modifies this, api
      ensures Valid() && SetDone(Running, JsBoolean(newValue), connectOk, writeOk, r)
    {
      r := Set(Running, JsBoolean(newValue), connectOk, writeOk);
    }

    method SetGoHome(newValue: bool, connectOk: bool, writeOk: bool) returns (r: Result<(), ApiError>)
      requires Valid()
      modifies this, api
      ensures Valid() && SetDone(ReturnHome, JsBoolean(newValue), connectOk, writeOk, r)
    {
      r := Set(ReturnHome, JsBoolean(newValue), connectOk, writeOk);
    }

    method SetFindRobot(newValue: bool, connectOk: bool, writeOk: bool) returns (r: Result<(), ApiError>)
      requires Valid()
      modifies this, api
      ensures Valid() && SetDone(FindRobot, JsBoolean(newValue), connectOk, writeOk, r)
    {
      r := Set(FindRobot, JsBoolean(newValue), connectOk, writeOk);
    }
  }

  // ---------------------------------------------------------------------------
  // Runs of the state machine that show what the class promises across calls.

  /**
   * Two `getStatus()` calls while the cache is invalid share one promise:
   * the device is asked for its schema once.
   */
  method CoalescedFetch(d: ModelDetails, cachingDuration: int, now: int) returns (first: StatusRequest, second: StatusRequest, gets: nat)
    requires WellFormed(d)
    ensures first == second == Awaiting(0)
    ensures gets == 1
  {
    var api := new Transport();
    var vac := new RoboVac(d, cachingDuration, {}, false, api);
    api.ConnectionChanged(true);
    first := vac.GetStatus(now);
    second := vac.GetStatus(now);
    gets := api.gets;
  }

  /**
   * A fetch that has answered makes the cache serve calls for
   * `cachingDuration` milliseconds; one past it fetches again.
   */
  method CacheWindow(d: ModelDetails, cachingDuration: nat, now: int) returns (inside: StatusRequest, outside: StatusRequest, gets: nat)
    requires WellFormed(d)
    ensures inside == Served
    ensures outside == Awaiting(1)
    ensures gets == 2
  {
    var api := new Transport();
    var vac := new RoboVac(d, cachingDuration, {}, false, api);
    api.ConnectionChanged(true);
    var req := vac.GetStatus(now);
    vac.FetchAnswered(0, Some(Message("device", Some(map[]))), now);
    inside := vac.GetStatus(now + cachingDuration);
    outside := vac.GetStatus(now + cachingDuration + 1);
    gets := api.gets;
  }

  /**
   * The `getXCached()` getters: undefined before the first status, the
   * decoded value once a fetch has answered, and undefined again after a
   * disconnect, although `lastStatus` still holds the value.
   */
  method CachedGetters(d: ModelDetails, k: int, raw: JsValue, cachingDuration: int, now: int)
    returns (before: Option<JsValue>, answered: Option<JsValue>, afterDisconnect: Option<JsValue>, kept: Option<JsValue>)
    requires WellFormed(d) && k in d.byCode && Decodable(d.byCode[k], raw)
    ensures before.None? && afterDisconnect.None?
    ensures answered == Some(Decode(d.byCode[k], raw)) && kept == answered
  {
    var c := d.byCode[k].command;
    var api := new Transport();
    var vac := new RoboVac(d, cachingDuration, {}, false, api);
    api.ConnectionChanged(true);
    before := vac.GetCached(c);
    var req := vac.GetStatus(now);
    var dps := map[k := raw];
    vac.FetchAnswered(0, Some(Message("device", Some(dps))), now);
    IngestStores(d, InitialStatus(), dps, k);
    answered := vac.GetCached(c);
    vac.Disconnect();
    afterDisconnect := vac.GetCached(c);
    kept := vac.lastStatus[c];
  }

  /**
   * An `error` event while a fetch runs lets the next `getStatus()` start a
   * second one; when the first then answers, nothing is recorded as in
   * flight although the second is still running, so a third call would not
   * join it.
   */
  method DisconnectDuringFetch(d: ModelDetails, cachingDuration: int, now: int)
    returns (second: StatusRequest, ongoingAfterFirst: Option<nat>, secondStillRunning: bool, connects: nat)
    requires WellFormed(d)
    ensures second == Awaiting(1)
    ensures ongoingAfterFirst.None? && secondStillRunning
    ensures connects == 2
  {
    var api := new Transport();
    var vac := new RoboVac(d, cachingDuration, {}, false, api);
    api.ConnectionChanged(true);
    var first := vac.GetStatus(now);
    vac.OnError();
    second := vac.GetStatus(now);
    connects := api.connects;
    vac.FetchAnswered(0, Some(Message("device", Some(map[]))), now);
    ongoingAfterFirst := vac.ongoingStatusUpdate;
    secondStillRunning := 1 in vac.fetches;
  }

  /** A value `set` refuses never reaches the device, and the connection is left as it was. */
  method RefusedSet(d: ModelDetails, command: Command, newValue: JsValue) returns (r: Result<(), ApiError>, writes: nat, connects: nat)
    requires WellFormed(d) && ValidateSet(d, command, newValue).Failure?
    ensures r == Failure(ValidateSet(d, command, newValue).error)
    ensures writes == 0 && connects == 1
  {
    var api := new Transport();
    var vac := new RoboVac(d, 0, {}, false, api);
    r := vac.Set(command, newValue, true, true);
    writes := |api.writes|;
    connects := api.connects;
  }

  /**
   * An accepted `set` on a disconnected transport connects first and writes
   * the spec's code with the value as given.
   */
  method AcceptedSet(d: ModelDetails, command: Command, newValue: JsValue) returns (r: Result<(), ApiError>, writes: seq<(int, JsValue)>, connects: nat)
    requires WellFormed(d) && ValidateSet(d, command, newValue).Success?
    ensures r == Success(())
    ensures writes == [(d.byCommand[command].code, newValue)]
    ensures connects == 2
  {
    var api := new Transport();
    var vac := new RoboVac(d, 0, {}, false, api);
    r := vac.Set(command, newValue, true, true);
    writes := api.writes;
    connects := api.connects;
  }

  /**
   * An accessor given a race that is still running never calls the update
   * callback; once the race is over it calls it with a truthy value.
   */
  method LateAccessor(d: ModelDetails, c: Command, code: int, value: JsValue, first: nat, second: nat)
    returns (whileRacing: seq<Notification>, afterRace: seq<Notification>)
    requires WellFormed(d) && HasAccessor(c) && first < 36 && second < 36
    requires c in d.byCommand && d.byCommand[c].code == code && DpsDecodable(d, map[code := value])
    requires Truthy(Some(Decode(d.byCommand[c], value)))
    ensures whileRacing == []
    ensures afterRace == [UpdateCallback(c, Decode(d.byCommand[c], value))]
  {
    var api := new Transport();
    var vac := new RoboVac(d, 0, {c}, false, api);
    vac.OnDpRefresh(Message("device", Some(map[code := value])));
    assert vac.lastStatus[c] == Some(Decode(d.byCommand[c], value));
    var race := new RaceStatus(first, second);
    var v1 := vac.Accessor(c, race, Served);
    whileRacing := vac.notifications;
    race.SetRaceOver();
    var v2 := vac.Accessor(c, race, Served);
    afterRace := vac.notifications;
  }
}
