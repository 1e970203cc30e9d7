# Eufy RoboVac plugin core, in Dafny

This project models the core of the Homebridge plugin for Eufy RoboVac
vacuums (hov3rcraft/homebridge-eufy-robovac) and proves properties of that
model. The core has two halves.

- **The command registry.** `RobovacModelDetails` is built from a list of
  command specs. A spec names a command, its data-point code, the kind of
  its value and, for string commands, a table from raw device tokens to
  values. The constructor lower-cases every table key and throws on a
  repeated command or a repeated code. The object then looks specs up by
  command and by code. The module also holds the per-model spec lists
  (the default table, T2080, T2267, T2275, T2277, T2320), the value
  records (`WorkStatus`, `WorkMode`, `FanSpeed`, `Direction`,
  `DeviceError`, `SpecialCommand`) and `createModelDetailsFromModelId`,
  which resolves a model id through `SUPPORTED_MODELS_BY_ID`.
- **The status cache.** `RoboVac` keeps the last known status of one
  vacuum. It decodes device messages through the registry. It serves
  `getStatus()` from the cache while the cache is valid and fresh. It
  shares one fetch among concurrent callers, takes in pushed `data` and
  `dp-refresh` messages, and checks values before `set` writes them. Its
  `getX(raceStatus)` accessors call an update callback when they are
  "late to the party", that is, when the `RaceStatus` they were given has
  already ended.

## Layout

| file | module | models |
|---|---|---|
| wrappers.dfy | `Wrappers` | `Option` and `Result` |
| js_text.dfy | `JsText` | `toLowerCase` (ASCII letters) and `Array.join` |
| js_entries.dfy | `JsEntries` | insertion-ordered dictionaries: `Object.fromEntries`, `new Map`, `obj[k]`, `obj[k] = v` |
| robovac_command.dfy | `RobovacCommand` | src/api/robovac-command.ts: the command enum, specs, host values, `typeof`, truthiness, the two error messages |
| device_errors.dfy, directions.dfy, fan_speeds.dfy, special_commands.dfy, work_modes.dfy, work_statuses.dfy | `DeviceErrors` … `WorkStatuses` | the six constant value records |
| robovac_model_details.dfy | `RobovacModelDetails` | the registry: normalisation, the constructor's loop (a method proved against the fold `BuildIndices`), the lookups |
| status_codec.dfy | `StatusCodec` | `RoboVac`'s pure decisions: decoding and `dataReceived`, cache freshness, `set` validation, the setters' token search, "late to the party" |
| default_model.dfy, t2080.dfy, t2267.dfy, t2275.dfy, t2277.dfy, t2320.dfy | `DefaultModel`, `T2080Model` … | each model's spec list, its stored tables and worked examples |
| supported_models.dfy | `SupportedModels` | `SUPPORTED_ROBOVAC_MODELS`, `SUPPORTED_MODELS_BY_ID`, `createModelDetailsFromModelId` |
| robovac_api.dfy | `RobovacApi` | the `RoboVac` class and its `Transport`, with scenario methods |
| race_status.dfy | `Race` | `RaceStatus` |

### How the model is built

- **Immutable values are datatypes.** `RobovacModelDetails` never changes
  after construction, so it is a datatype value. Its constructor's loop
  is the method `NewModelDetails`. That method is proved equal to the
  recursive function `BuildIndices`, and the properties of the registry
  are lemmas about that function.
- **JavaScript objects are ordered lists.** A plain object or `Map` is a
  list of (key, value) entries in insertion order. Building one from a
  list keeps the last value of a repeated key, in that key's first
  position, as `Object.fromEntries` and `new Map` do. This is why the
  second "T2275" entry of the supported-models list replaces the first.
- **`RoboVac` and the connection are classes.** `RoboVac` is a class with
  the fields of the source. The device connection is a class `Transport`
  that records the requests made of it.
- **Async code is a state machine.** Each `async` method runs up to its
  first `await`. The awaited call settles in a method of its own, whose
  parameters are the device's answer. A call of `getStatusFromDevice`
  gets a ticket. `ongoingStatusUpdate` holds the ticket of the promise it
  stores, which stands for the promise's identity.
- **Times are parameters.** `new Date()` is an integer parameter `now` in
  milliseconds, and `new Date(0)` is 0.
- **Random draws are parameters.** The two `Math.random()` draws of a
  `RaceStatus` are constructor parameters below 36.

### Behaviour of the code worth knowing

- `dataReceivedCallback` is declared to take a `RobovacStatus`
  (src/api/robovac-api.ts:28, 53), but the `data` and `dp-refresh`
  handlers pass it the raw device message (src/api/robovac-api.ts:109, 124).
- A fetch started by `getStatus()` stores the status it gets
  (src/api/robovac-api.ts:231-246) and never calls `dataReceivedCallback`.
- `CommandNotSupportedError` is declared at src/api/robovac-command.ts:36-44,
  but the core never throws it. `set` on a command without a spec throws a
  plain `Error` whose message is "Robovac command … is not supported by
  model …" (src/api/robovac-api.ts:300). The message of
  `CommandNotSupportedError` is still modelled.
- `setDirection`, `setWorkMode` and `setFanSpeed` call
  `Object.entries(stringValues)` (src/api/robovac-api.ts:469, 479, 493). On
  a model without that spec, or without its table, that call throws a
  `TypeError`, not `ValueNotSupportedError`. The search also throws a
  `TypeError` when it reaches an undefined table value.
- `disconnect()` clears `ongoingStatusUpdate` (src/api/robovac-api.ts:201)
  even while a fetch is running. An `error` event or a failed `set` during a
  fetch therefore lets the next `getStatus()` start a second fetch, so two
  requests reach the device (`RobovacApi.DisconnectDuringFetch`).
- The freshness test takes the absolute value of the age
  (`Math.abs`, src/api/robovac-api.ts:213). A last update in the future
  counts as fresh within `cachingDuration` too.
- `dataReceived` looks a token up with `stringValues[token]` on an object
  built by `Object.fromEntries` (src/api/robovac-api.ts:181). The tokens
  "constructor" and "__proto__", in any case, therefore store the `Object`
  function and `Object.prototype` that the table inherits
  (`DefaultModel.DecodeInherited`).
- The T2320 spec list gives RETURN_HOME and FIND_ROBOT the same code 152
  (src/api/model_details/t2320.ts:24, 32), so its constructor always
  throws. No entry of the supported-models list uses that class.

## Model

| member | source | states |
|---|---|---|
| DefaultModel.StoredDirection | src/api/model_details/default-robovac-model-details.ts:21-26 | Lower-casing the keys of the DIRECTION table merges none of them: the stored table is the lower-cased entries in their order. |
| DefaultModel.StoredWorkStatus | src/api/model_details/default-robovac-model-details.ts:32-40 | Lower-casing the keys of the WORK_STATUS table merges none of them: the stored table is the lower-cased entries in their order. |
| DefaultModel.StoredError | src/api/model_details/default-robovac-model-details.ts:61-71 | Lower-casing the keys of the ERROR table merges none of them: the stored table is the lower-cased entries in their order. |
| DefaultModel.RecordDistinct | src/api/model_details/default-robovac-model-details.ts:75 | No two pairs share a key, since no two array entries share a command. |
| DefaultModel.DefaultFor | src/api/model_details/default-robovac-model-details.ts:75-78 | `ROBOVAC_COMMAND_DEFAULTS` gives each array entry for its own command. |
| DefaultModel.DefaultsLookup | src/api/model_details/default-robovac-model-details.ts:75-78 | Every command of the array finds an entry of the array with that command. |
| DefaultModel.DefaultsMissing | src/api/model_details/default-robovac-model-details.ts:6-78 | WORK_MODE, FAN_SPEED and SPECIAL_COMMAND are not in the array, and the record has nothing for them. |
| DefaultModel.Constructs | src/api/model_details/default-robovac-model-details.ts:6-73 | No two specs of the list share a command or a code, so `new DefaultRobovacModelDetails(...)` does not throw. |
| DefaultModel.Details | src/api/model_details/default-robovac-model-details.ts:80-84 | `new DefaultRobovacModelDetails(modelId, modelName)` is the object the constructor builds from the list, and it is well formed. |
| DefaultModel.LayoutKeys | src/api/model_details/default-robovac-model-details.ts:6-73 | The object keeps id and name and has specs for exactly the commands DEFAULT, RUNNING, DIRECTION, WORK_STATUS, RETURN_HOME, FIND_ROBOT, BATTERY_LEVEL, ERROR and exactly their codes. |
| DefaultModel.Misses | src/api/model_details/default-robovac-model-details.ts:6-73 | A command the list leaves out is looked up as undefined. |
| DefaultModel.LayoutPlainSpecs0 | src/api/model_details/default-robovac-model-details.ts:7-16 | The DEFAULT and RUNNING specs, which have no table, are filed unchanged under their commands and their codes. |
| DefaultModel.LayoutPlainSpecs1 | src/api/model_details/default-robovac-model-details.ts:42-51 | The RETURN_HOME and FIND_ROBOT specs, which have no table, are filed unchanged under their commands and their codes. |
| DefaultModel.LayoutPlainSpecs2 | src/api/model_details/default-robovac-model-details.ts:52-56 | The BATTERY_LEVEL specs, which have no table, are filed unchanged under their commands and their codes. |
| DefaultModel.LayoutDirectionSpec | src/api/model_details/default-robovac-model-details.ts:17-27 | The DIRECTION spec is filed with its table under lower-case keys, the same object under its command and under its code. |
| DefaultModel.LayoutWorkStatusSpec | src/api/model_details/default-robovac-model-details.ts:28-41 | The WORK_STATUS spec is filed with its table under lower-case keys, the same object under its command and under its code. |
| DefaultModel.LayoutErrorSpec | src/api/model_details/default-robovac-model-details.ts:57-72 | The ERROR spec is filed with its table under lower-case keys, the same object under its command and under its code. |
| DefaultModel.DecodeStuck | src/api/model_details/default-robovac-model-details.ts:57-72 | "Stuck_5_min" at code 106, in any case, is stored as `DeviceError.STUCK_5_MIN`. |
| DefaultModel.DecodeBrushRaw | src/api/model_details/default-robovac-model-details.ts:57-72 | The tokens "S_brush_stuck" and "R_brush_stuck" have undefined values, so they are stored as the raw string. |
| DefaultModel.DecodeInherited | src/api/robovac-api.ts:180-181 | At code 106 the tokens "constructor" and "__proto__", in any case, name no ERROR key, so the status stores the `Object` function and `Object.prototype` inherited by the table. |
| DefaultModel.DecodeWorkStatusCharging | src/api/model_details/default-robovac-model-details.ts:28-41 | At code 15, "charging" in any case is stored as the plain string "Charging". |
| DefaultModel.DecodeWorkStatusCompleted | src/api/model_details/default-robovac-model-details.ts:28-41 | At code 15, "completed" in any case is stored as "Charging completed". |
| DefaultModel.DirectionTokens | src/api/model_details/default-robovac-model-details.ts:17-27 | `setDirection` sends "forward", "left", "right" and "back" for the four directions the table has. |
| DefaultModel.DirectionBrakeRefused | src/api/model_details/default-robovac-model-details.ts:17-27 | No DIRECTION entry has BRAKE's id 4, so `setDirection(Direction.BRAKE)` throws `ValueNotSupportedError` naming BRAKE, the command and the model. |
| DefaultModel.NoWorkModeOrFanSpeed | src/api/model_details/default-robovac-model-details.ts:6-73 | Without WORK_MODE and FAN_SPEED specs `set` refuses both before any transport call, and `setWorkMode` and `setFanSpeed` throw a TypeError. |
| DeviceErrors.Field | src/api/device-errors.ts:3-40 | `DeviceError[name]` is the mapping of the property of that name, and undefined exactly when the record has no such property. |
| DeviceErrors.TableShape | src/api/device-errors.ts:3-40 | The record has 9 entries with ids 0 and 101 to 108, in the order of the source, and no two entries share an id. |
| DeviceErrors.TableMessages | src/api/device-errors.ts:3-40 | The friendly messages of the entries, in order, are those of the source. |
| DeviceErrors.NamesDistinct | src/api/device-errors.ts:3-40 | No two properties of `DeviceError` share a name, so each name looks up its own entry. |
| DeviceErrors.MissingBrushKeys | src/api/device-errors.ts:28-35 | The brush errors are named S_BRUSH_STUCK and R_BRUSH_STUCK; `DeviceError.SIDE_BRUSH_STUCK` and `DeviceError.ROLLER_BRUSH_STUCK` read as undefined. |
| Directions.TableShape | src/api/direction.ts:3-24 | The record has 5 entries with ids 0 to 4, in the order of the source, and no two entries share an id. |
| Directions.TableMessages | src/api/direction.ts:3-24 | The friendly messages of the entries, in order, are those of the source. |
| Directions.NamesDistinct | src/api/direction.ts:3-24 | No two properties of `Direction` share a name, so each name looks up its own entry. |
| FanSpeeds.TableShape | src/api/fan-speed.ts:3-28 | The record has 6 entries with ids 0 to 5, in the order of the source, and no two entries share an id. |
| FanSpeeds.TableMessages | src/api/fan-speed.ts:3-28 | The friendly messages of the entries, in order, are those of the source. |
| FanSpeeds.NamesDistinct | src/api/fan-speed.ts:3-28 | No two properties of `FanSpeed` share a name, so each name looks up its own entry. |
| JsEntries.IndexOfKey | src/api/model_details/supported-models.ts:216 | The position of the first entry with key `k`: that entry has the key and no earlier one does. |
| JsEntries.Get | src/api/model_details/supported-models.ts:216 | `Map.get(k)`, and the own-property part of `t[k]`, are undefined exactly when no entry has key `k`. |
| JsEntries.GetDistinct | src/api/model_details/supported-models.ts:216 | In a dictionary with distinct keys, looking up an entry's key yields that entry's value. |
| JsEntries.Put | src/api/model_details/robovac-model-details.ts:39-40 | `dict[k] = v` replaces the entry with key `k` in place, or appends one when there is none; after it `k` maps to `v`. |
| JsEntries.PutKeys | src/api/model_details/robovac-model-details.ts:39-40 | After `dict[k] = v` the keys are the old keys plus `k`. |
| JsEntries.PutDistinct | src/api/model_details/robovac-model-details.ts:39-40 | Assigning a key keeps the keys of the dictionary distinct. |
| JsEntries.PutGet | src/api/model_details/robovac-model-details.ts:39-40 | After `dict[k] = v`, `k` looks up `v` and every other key looks up what it did before. |
| JsEntries.LastValueAt | src/api/model_details/supported-models.ts:210 | When no later entry repeats the key of entry `i`, entry `i` holds the last value of that key. |
| JsEntries.LastValueEntry | src/api/model_details/supported-models.ts:210 | A last value of a key is the value of some entry with that key. |
| JsEntries.FromEntriesGet | src/api/model_details/supported-models.ts:210 | `Object.fromEntries` and `new Map` keep, for every key, the value of its last entry: later entries win. |
| JsEntries.FromEntriesDistinct | src/api/model_details/supported-models.ts:210 | The dictionary built from any list of entries has one entry per key. |
| JsEntries.FromEntriesKeys | src/api/model_details/supported-models.ts:210 | The dictionary has a key exactly when some entry has it. |
| JsEntries.FromEntriesOfDistinct | src/api/model_details/robovac-model-details.ts:20 | Entries with distinct keys are stored as they are, in their order. |
| JsEntries.DistinctPrefix | src/api/model_details/supported-models.ts:210 | A prefix of a list with distinct keys has distinct keys, none of them the key of a later entry. |
| JsEntries.FromEntriesExtend | src/api/model_details/supported-models.ts:210 | Entries whose keys are new to the dictionary built so far are appended in their order. |
| JsEntries.DistinctWithout | src/api/model_details/supported-models.ts:210 | Entries whose only shared key is at positions `i` and `j` have distinct keys once `j` is left out. |
| JsEntries.DistinctBefore | src/api/model_details/supported-models.ts:210 | When the entries around position `j` have distinct keys, so do those before it. |
| JsEntries.FromEntriesRepeatStep | src/api/model_details/supported-models.ts:210 | An entry that repeats the key of an earlier entry replaces that entry in its place, so the key keeps its first position and takes the new value. |
| JsEntries.DistinctReplaced | src/api/model_details/supported-models.ts:210 | Replacing an entry by one with the same key keeps the keys distinct. |
| JsEntries.FromEntriesOneRepeat | src/api/model_details/supported-models.ts:210 | With one key repeated once, the later entry takes the earlier one's place and every other entry keeps its own: the dictionary is one entry shorter than the list. |
| JsText.Lower | src/api/model_details/robovac-model-details.ts:20 | The lower-case form has the length of the input, applies `LowerChar` position by position and contains no upper-case letter. |
| JsText.LowerIdempotent | src/api/model_details/robovac-model-details.ts:20 | Lower-casing twice gives the same as lower-casing once. |
| JsText.LowerOfLower | src/api/model_details/robovac-model-details.ts:20 | A string without upper-case letters is its own lower-case form. |
| JsText.JoinContains | src/api/model_details/supported-models.ts:218 | Every joined part occurs in the joined text. |
| JsText.SubstringAfterPrefix | src/api/model_details/supported-models.ts:218 | A part that occurs in a text still occurs once a prefix is put before the text. |
| Race.RaceStatus.constructor | src/race-status.ts:4-5 | A new race is running and its id is the two characters of the alphabet at the two draws. |
| Race.RaceStatus.SetRaceOver | src/race-status.ts:11-13 | After `setRaceOver()` the race is not running. |
| Race.AlphabetLayout | src/race-status.ts:2 | The alphabet is the 26 capital letters followed by the 10 digits. |
| Race.RaceIdAlphabet | src/race-status.ts:5 | Every race id has two characters, and two ids are equal exactly when both draws are. |
| Race.RaceLifecycle | src/race-status.ts:4-13 | A race runs until it is ended, then stays over when ended again; `isRunning()` changes nothing. |
| RobovacApi.Transport.constructor | src/api/robovac-api.ts:77-83 | A new transport is disconnected and has made no calls. |
| RobovacApi.Transport.ConnectionChanged | src/api/robovac-api.ts:86-92 | The connection goes up or down on the device's side; the call counters do not change. |
| RobovacApi.RoboVac.constructor | src/api/robovac-api.ts:39-156 | All fields get the initial values of the source (invalid cache, update time 0, all commands undefined, nothing in flight); the initial `connect()` is the only transport call. It takes the registry already built: the source calls `createModelDetailsFromModelId(model)` at line 73, whose unknown-id throw is `SupportedModels.CreateModelDetailsFromModelId`. |
| RobovacApi.RoboVac.DataReceived | src/api/robovac-api.ts:158-188 | `lastResponse` becomes the message and `lastStatus` becomes `Ingest` of the old status; validity, update time and everything else stay. |
| RobovacApi.RoboVac.Disconnect | src/api/robovac-api.ts:200-206 | Nothing is in flight and the cache is invalid afterwards, so every cached getter gives undefined; the status itself is kept; the transport is closed, with one disconnect call exactly when it was connected. |
| RobovacApi.RoboVac.GetStatus | src/api/robovac-api.ts:212-219 | A valid and fresh cache is served with nothing changed; otherwise the request goes through the synchronized fetch. |
| RobovacApi.RoboVac.GetStatusFromDeviceSynchronized | src/api/robovac-api.ts:221-229 | With a fetch in flight the caller awaits that same fetch; otherwise a new fetch is started and recorded as in flight. |
| RobovacApi.RoboVac.GetStatusFromDevice | src/api/robovac-api.ts:231-238 | A new fetch gets the next ticket; it connects first when the transport is down, and otherwise asks for the schema at once. |
| RobovacApi.RoboVac.FailFetch | src/api/robovac-api.ts:245-251 | A failed fetch rejects with its error, disconnects (clearing the marker and the cache) and leaves the status as it was. |
| RobovacApi.RoboVac.FetchConnected | src/api/robovac-api.ts:234-238 | A successful connect moves the fetch on to the schema request; a failed one rejects it and disconnects. |
| RobovacApi.RoboVac.FetchAnswered | src/api/robovac-api.ts:238-251 | A schema answer is taken in, the cache becomes valid as of `now`, every cached getter gives the value just taken in, and nothing is in flight; an answer without `dps` throws a TypeError and a transport failure rejects, both disconnecting so the getters give undefined. |
| RobovacApi.RoboVac.OnData | src/api/robovac-api.ts:114-129 | A message with `dps` is taken in; with a data callback the raw message is passed to it and the cache becomes valid as of `now`; without one validity and age stay. |
| RobovacApi.RoboVac.OnDpRefresh | src/api/robovac-api.ts:99-112 | A message with `dps` is taken in and passed to the data callback if there is one; validity and age never change. |
| RobovacApi.RoboVac.OnError | src/api/robovac-api.ts:94-97 | The error event disconnects: nothing in flight, cache invalid, transport closed. |
| RobovacApi.RoboVac.Accessor | src/api/robovac-api.ts:337-425 | An accessor rethrows a failed fetch; otherwise it returns the command's current value and calls the update callback exactly when it is late to the party (race given and over, callback registered, value truthy). |
| RobovacApi.RoboVac.Set | src/api/robovac-api.ts:295-335 | A refused value throws the `ValidateSet` error before the transport is touched; an accepted one connects if needed, then writes (code, value) once; a transport failure disconnects and rethrows. |
| RobovacApi.RoboVac.SetMapped | src/api/robovac-api.ts:467-499 | The setters throw what the token search throws, touching nothing; otherwise they `set` the found token. |
| RobovacApi.RoboVac.SetDirection | src/api/robovac-api.ts:467-475 | `setDirection` is `SetMapped` for DIRECTION. |
| RobovacApi.RoboVac.SetWorkMode | src/api/robovac-api.ts:477-485 | `setWorkMode` is `SetMapped` for WORK_MODE. |
| RobovacApi.RoboVac.SetFanSpeed | src/api/robovac-api.ts:491-499 | `setFanSpeed` is `SetMapped` for FAN_SPEED. |
| RobovacApi.RoboVac.SetPlayPause | src/api/robovac-api.ts:463-465 | `setPlayPause(b)` is `set(RUNNING, b)`. |
| RobovacApi.RoboVac.SetGoHome | src/api/robovac-api.ts:487-489 | `setGoHome(b)` is `set(RETURN_HOME, b)`. |
| RobovacApi.RoboVac.SetFindRobot | src/api/robovac-api.ts:501-503 | `setFindRobot(b)` is `set(FIND_ROBOT, b)`. |
| RobovacApi.CoalescedFetch | src/api/robovac-api.ts:221-229 | Two `getStatus()` calls on an invalid cache share one fetch, and the device is asked for its schema once. |
| RobovacApi.CacheWindow | src/api/robovac-api.ts:213 | After a fetch has answered, a call within `cachingDuration` is served from the cache and one a millisecond past it fetches again. |
| RobovacApi.CachedGetters | src/api/robovac-api.ts:427-461 | The `getXCached()` getters give undefined before the first status, the decoded value once a fetch has answered, and undefined again after a disconnect, although the status still holds the value. |
| RobovacApi.DisconnectDuringFetch | src/api/robovac-api.ts:200-202 | An error event during a fetch lets the next `getStatus()` start a second fetch; when the first then answers, nothing is marked as in flight although the second still runs. |
| RobovacApi.RefusedSet | src/api/robovac-api.ts:298-319 | A value `set` refuses never reaches the device and causes no connect beyond the constructor's. |
| RobovacApi.AcceptedSet | src/api/robovac-api.ts:321-326 | An accepted value on a disconnected transport connects first and writes the spec's code with the value as given. |
| RobovacApi.LateAccessor | src/api/robovac-api.ts:337-345 | While the race runs an accessor calls nothing back; once it is over it calls the callback with the truthy value it returns. |
| RobovacCommand.CommandVocabulary | src/api/robovac-command.ts:4-16 | The enum has exactly the eleven members of the source, and their string values are pairwise distinct, so a status keyed by the string value has one slot per command. |
| RobovacCommand.ValueTypeOrdinals | src/api/robovac-command.ts:25-29 | The numeric enum numbers its three kinds BOOLEAN = 0, NUMBER = 1 and STRING = 2. |
| RobovacCommand.HasKindIsTypeOf | src/api/robovac-api.ts:303-319 | A value passes the check for a kind exactly when `typeof` gives that kind's name ("boolean", "number", "string"). |
| RobovacCommand.NatText | src/api/robovac-command.ts:49 | The decimal text of a natural number is non-empty and made of digits only. |
| RobovacCommand.NumberText | src/api/robovac-command.ts:49 | The JSON text of an integer is non-empty, starts with a minus sign exactly when the integer is negative, and is digits after that; the digits are the `NatText` of its magnitude, which `NatTextRoundTrip` reads back. |
| RobovacCommand.NatTextRoundTrip | src/api/robovac-command.ts:49 | Reading the decimal text back gives the number it was made from, so different numbers have different texts. |
| RobovacCommand.CommandNotSupportedMessage | src/api/robovac-command.ts:36-44 | The message starts with "Command " and ends with "RoboVac model <id>." for a non-empty id and with "this model." otherwise. |
| RobovacCommand.ValueNotSupportedNames | src/api/robovac-command.ts:46-58 | The message of `ValueNotSupportedError` contains the value's text right after "Value ", the command's string value right after " for command ", and a non-empty model id just before the closing period. |
| RobovacModelDetails.Normalize | src/api/model_details/robovac-model-details.ts:18-21 | The stored copy of a spec keeps its command, code and kind, and has a table exactly when the source spec has one. |
| RobovacModelDetails.NormalizeTableKeys | src/api/model_details/robovac-model-details.ts:20 | The stored table has key `k` exactly when some source key lower-cases to `k`. |
| RobovacModelDetails.NormalizeTableLower | src/api/model_details/robovac-model-details.ts:20 | Every stored key is in lower case, and the stored table has one entry per key. |
| RobovacModelDetails.NormalizeTableLookup | src/api/model_details/robovac-model-details.ts:20 | A source key is found under its lower-case form with its own value unless a later key equal to it up to case overwrites it. |
| RobovacModelDetails.NormalizeTableOfDistinct | src/api/model_details/robovac-model-details.ts:20 | A table whose lower-cased keys are distinct is stored as its lower-cased entries, in order. |
| RobovacModelDetails.NormalizeIdempotent | src/api/model_details/robovac-model-details.ts:18-21 | Storing an already stored spec changes nothing. |
| RobovacModelDetails.NewModelDetails | src/api/model_details/robovac-model-details.ts:9-42 | The loop over the specs, with its early throws, returns exactly `Construct`: the first duplicate command or code as an error, or the object with both indices. |
| RobovacModelDetails.GetCommandSpecByCommand | src/api/model_details/robovac-model-details.ts:44-46 | Defined exactly for the commands the object has a spec for. |
| RobovacModelDetails.GetCommandSpecByCode | src/api/model_details/robovac-model-details.ts:48-50 | Defined exactly for the codes the object has a spec for. |
| RobovacModelDetails.DuplicateMessage | src/api/model_details/robovac-model-details.ts:23-37 | The command error ends with the two codes ("Existing code=..., duplicate code=..."), the code error with the two commands. |
| RobovacModelDetails.FailurePersists | src/api/model_details/robovac-model-details.ts:16-41 | Once a spec has thrown, the specs after it change nothing: the first duplicate decides the error. |
| RobovacModelDetails.BuildKeys | src/api/model_details/robovac-model-details.ts:39-40 | After a successful loop the command index holds exactly the specs' commands and the code index exactly their codes. |
| RobovacModelDetails.BuildColumns | src/api/model_details/robovac-model-details.ts:39-40 | The keys of the two indices are the command column and the code column of the spec list. |
| RobovacModelDetails.BuildContents | src/api/model_details/robovac-model-details.ts:18-40 | After a successful loop every spec's command and code both map to the stored copy of that spec. |
| RobovacModelDetails.BuildSucceeds | src/api/model_details/robovac-model-details.ts:23-37 | The constructor returns (does not throw) if and only if no two specs share a command and no two share a code. |
| RobovacModelDetails.DuplicateCommandAt | src/api/model_details/robovac-model-details.ts:23-29 | The first spec whose command was already indexed throws the command error with the earlier spec's code and its own. |
| RobovacModelDetails.DuplicateCodeAt | src/api/model_details/robovac-model-details.ts:31-37 | The first spec with a new command but an indexed code throws the code error with the earlier spec's command and its own; the command check comes first. |
| RobovacModelDetails.BuildContentsAt | src/api/model_details/robovac-model-details.ts:18-40 | The stored copy of spec `i` is filed under its command and under its code. |
| RobovacModelDetails.BuildPlainAt | src/api/model_details/robovac-model-details.ts:18-40 | A spec without a table is filed unchanged under its command and under its code. |
| RobovacModelDetails.BuildTableAt | src/api/model_details/robovac-model-details.ts:18-40 | A spec with a table is filed with the lower-cased table under its command, and the same object under its code. |
| RobovacModelDetails.ConstructLookups | src/api/model_details/robovac-model-details.ts:9-50 | A constructed object keeps its id and name and looks every spec up, by command and by code, as its stored copy. |
| RobovacModelDetails.ConstructMisses | src/api/model_details/robovac-model-details.ts:44-50 | A command or code is looked up as undefined exactly when no spec names it. |
| RobovacModelDetails.LookupsInverse | src/api/model_details/robovac-model-details.ts:39-50 | Code `k` gives a spec for command `c` if and only if command `c` gives a spec with code `k`. |
| RobovacModelDetails.ConstructWellFormed | src/api/model_details/robovac-model-details.ts:39-40 | Every constructed object files each spec under its own command and its own code, and the two indices hold the same specs. |
| SpecialCommands.TableShape | src/api/special-command.ts:3-12 | The record has 2 entries with ids 0 and 1, in the order of the source, and no two entries share an id. |
| SpecialCommands.TableMessages | src/api/special-command.ts:3-12 | The friendly messages of the entries, in order, are those of the source. |
| SpecialCommands.NamesDistinct | src/api/special-command.ts:3-12 | No two properties of `SpecialCommand` share a name, so each name looks up its own entry. |
| StatusCodec.DecodeVerbatim | src/api/robovac-api.ts:163-175 | BOOLEAN and NUMBER values, and STRING values at a spec without a table, are stored as they came, whatever their host type. |
| StatusCodec.DecodeRange | src/api/robovac-api.ts:163-185 | What is stored is the raw value itself, a value defined in the spec's table, or the property inherited from `Object.prototype` (`constructor` or `__proto__`) under a name the table does not define. |
| StatusCodec.DecodeStored | src/api/robovac-api.ts:180-181 | In a stored table a token equal up to case to a source key decodes to that key's value, or to the raw token when the value is undefined (`?? dps_value`); the last of keys equal up to case wins. |
| StatusCodec.DecodeStoredMiss | src/api/robovac-api.ts:180-181 | A token that matches no source key up to case is stored as it came, except "constructor" and "__proto__" in any case, which store the `Object` function and `Object.prototype`. |
| StatusCodec.DecodeAt | src/api/robovac-api.ts:180-181 | In a table with distinct keys, the entry whose key is the token's lower-case form decides what is stored. |
| StatusCodec.DecodeCaseInsensitive | src/api/robovac-api.ts:181 | Two tokens equal up to case decode alike when their lower-case form has a defined value. |
| StatusCodec.IngestStep | src/api/robovac-api.ts:160-187 | Taking in one more entry of the message stores its decoded value under its code's command and changes nothing else, or changes nothing when the code has no spec. |
| StatusCodec.IngestSkipsUnknownCodes | src/api/robovac-api.ts:161-162 | An entry whose code has no spec for this model changes nothing. |
| StatusCodec.IngestKeepsAbsent | src/api/robovac-api.ts:160-187 | The status keeps its keys, and a command whose code the message does not carry keeps its value. |
| StatusCodec.IngestStores | src/api/robovac-api.ts:160-187 | Every entry of the message with a spec is stored, decoded, under that spec's command, whatever the order of the entries. |
| StatusCodec.IngestIdempotent | src/api/robovac-api.ts:158-188 | Taking in the same message twice leaves the status of taking it in once. |
| StatusCodec.NeedsFetchWindow | src/api/robovac-api.ts:213 | The cache is served exactly when it is valid and `now` lies within `cachingDuration` of the last update on either side (`Math.abs`). |
| StatusCodec.ValidateSet | src/api/robovac-api.ts:298-319 | A set passes exactly when the model has a spec for the command and `typeof` the value matches its kind, and then writes to that spec; otherwise it throws the exact "not supported by model" or "Invalid value type ... expected X, got y" error. |
| StatusCodec.FindTokenFound | src/api/robovac-api.ts:469 | The search yields the key of the first entry with the mapping's id when every entry before it is defined and different. |
| StatusCodec.FindTokenUndefined | src/api/robovac-api.ts:469 | The search throws a TypeError at the first undefined entry it reaches. |
| StatusCodec.FindTokenNone | src/api/robovac-api.ts:469-472 | The search finds nothing if and only if it passes over every entry, which is when the setter throws `ValueNotSupportedError`. |
| StatusCodec.FindTokenSound | src/api/robovac-api.ts:469 | A key the search returns belongs to an entry mapped to the id. |
| StatusCodec.SetterTokenSound | src/api/robovac-api.ts:467-474 | A token a setter sends is a key of the command's stored table whose entry has the mapping's id. |
| StatusCodec.SetterTokenNoTable | src/api/robovac-api.ts:468-469 | A model without a spec, or without a table, for the command makes the setter throw a TypeError from `Object.entries(undefined)`. |
| StatusCodec.NoCallbackWhileRacing | src/api/robovac-api.ts:340 | An accessor without a race status, or whose race is still running, never calls its update callback. |
| StatusCodec.NoCallbackForFalsy | src/api/robovac-api.ts:340 | Falsy values (undefined, false, 0, "") are never called back, so a battery level of 0 is not reported late. |
| SupportedModels.SpecsFor | src/api/model_details/supported-models.ts:221 | Every class of the list has a spec list, except the T2276, T2278 and T2280 classes, which are not part of this model. |
| SupportedModels.IdsDistinct | src/api/model_details/supported-models.ts:24-205 | Apart from the two "T2275" entries, no two entries of the list share an id. |
| SupportedModels.ByIdKeys | src/api/model_details/supported-models.ts:210 | Only the pairs at positions 30 and 31 share a key. |
| SupportedModels.ModelsByIdLayout | src/api/model_details/supported-models.ts:210 | The map has 35 entries for the list's 36: the second "T2275" entry takes the place of the first, and every other entry keeps its own. |
| SupportedModels.LookupLast | src/api/model_details/supported-models.ts:210-216 | Looking up the id of an entry that no later entry repeats yields that entry. |
| SupportedModels.LaterIdsDiffer | src/api/model_details/supported-models.ts:24-205 | Every entry but the first "T2275" one is the last with its id. |
| SupportedModels.CreateRegistered | src/api/model_details/supported-models.ts:215-222 | For a registered id the entry's class is constructed with the entry's own id and name; for every modelled class that succeeds. |
| SupportedModels.MessageNamesKey | src/api/model_details/supported-models.ts:217-219 | Every key of the map occurs in the message for an unknown id. |
| SupportedModels.CreateUnknown | src/api/model_details/supported-models.ts:215-220 | An id the list does not have throws the "Unsupported Robovac modelId" error, whose message names every id of the list. |
| SupportedModels.T2275ResolvesToX8 | src/api/model_details/supported-models.ts:175-184 | "T2275" resolves to "RoboVac X8 Pro SES" with the T2276 class, so the T2275 class is never constructed. |
| SupportedModels.NoT2275Class | src/api/model_details/supported-models.ts:175-184 | No entry of the map names the T2275 class. |
| SupportedModels.T0000IsDefault | src/api/model_details/supported-models.ts:200-204 | "T0000" builds the default table under the name "default". |
| SupportedModels.CreateAt | src/api/model_details/supported-models.ts:215-222 | The entry at a position no later entry repeats, with a modelled class, is constructed with its own id and name. |
| SupportedModels.Families | src/api/model_details/supported-models.ts:30-174 | Positions 1 to 24 (T2103 to T2262) use the default class and positions 25 to 29 the T2267 class. |
| SupportedModels.T2267Family | src/api/model_details/supported-models.ts:150-174 | T2267, T2268, T2270, T2272 and T2273 all build the T2267 table under their own id and name. |
| SupportedModels.DefaultFamily | src/api/model_details/supported-models.ts:30-149 | The 24 ids from T2103 to T2262 all build the default table under their own id and name. |
| SupportedModels.NoT2320 | src/api/model_details/supported-models.ts:24-205 | No class of the registry hands the T2320 spec list to the constructor. |
| T2080Model.StoredWorkMode | src/api/model_details/t2080.ts:20-27 | Lower-casing the keys of the WORK_MODE table merges none of them: the stored table is the lower-cased entries in their order. |
| T2080Model.StoredWorkStatus | src/api/model_details/t2080.ts:33-68 | Lower-casing the keys of the WORK_STATUS table merges none of them: the stored table is the lower-cased entries in their order. |
| T2080Model.StoredFanSpeed | src/api/model_details/t2080.ts:74-79 | Lower-casing the keys of the FAN_SPEED table merges none of them: the stored table is the lower-cased entries in their order. |
| T2080Model.ReusesDefaults | src/api/model_details/t2080.ts:11-15 | Each `ROBOVAC_COMMAND_DEFAULTS[...]` at the head of the list is the default array's spec for that command. |
| T2080Model.Constructs | src/api/model_details/t2080.ts:10-81 | No two specs of the list share a command or a code, so `new T2080RobovacModelDetails(...)` does not throw. |
| T2080Model.Details | src/api/model_details/t2080.ts:8-83 | `new T2080RobovacModelDetails(modelId, modelName)` is the object the constructor builds from the list, and it is well formed. |
| T2080Model.LayoutKeys | src/api/model_details/t2080.ts:10-81 | The object keeps id and name and has specs for exactly the commands DEFAULT, RUNNING, FIND_ROBOT, BATTERY_LEVEL, ERROR, WORK_MODE, WORK_STATUS, FAN_SPEED and exactly their codes. |
| T2080Model.AbsentCommands | src/api/model_details/t2080.ts:10-81 | The list has no spec for the commands of the enum it leaves out. |
| T2080Model.Misses | src/api/model_details/t2080.ts:10-81 | A command the list leaves out is looked up as undefined. |
| T2080Model.LayoutPlainSpecs0 | src/api/model_details/t2080.ts:11-12 | The DEFAULT and RUNNING specs, which have no table, are filed unchanged under their commands and their codes. |
| T2080Model.LayoutPlainSpecs1 | src/api/model_details/t2080.ts:13-14 | The FIND_ROBOT and BATTERY_LEVEL specs, which have no table, are filed unchanged under their commands and their codes. |
| T2080Model.LayoutErrorSpec | src/api/model_details/t2080.ts:15-15 | The ERROR spec is filed with its table under lower-case keys, the same object under its command and under its code. |
| T2080Model.LayoutWorkModeSpec | src/api/model_details/t2080.ts:16-28 | The WORK_MODE spec is filed with its table under lower-case keys, the same object under its command and under its code. |
| T2080Model.LayoutWorkStatusSpec | src/api/model_details/t2080.ts:29-69 | The WORK_STATUS spec is filed with its table under lower-case keys, the same object under its command and under its code. |
| T2080Model.LayoutFanSpeedSpec | src/api/model_details/t2080.ts:70-80 | The FAN_SPEED spec is filed with its table under lower-case keys, the same object under its command and under its code. |
| T2080Model.PausedAliases | src/api/model_details/t2080.ts:29-69 | The two tokens "CAoAEAUyAggB" and "CgoCCAEQBTICCAE=", in any case, both decode to `WorkStatus.PAUSED` at code 153. |
| T2080Model.AaIsSpotWorkMode | src/api/model_details/t2080.ts:16-28 | Tables are per command: "AA==" at code 152 is `WorkMode.SPOT`. |
| T2080Model.AaIsStandbyWorkStatus | src/api/model_details/t2080.ts:29-69 | ... while "AA==" at code 153 is `WorkStatus.STANDBY`. |
| T2080Model.AutoToken | src/api/model_details/t2080.ts:16-28 | `setWorkMode(WorkMode.AUTO)` sends the lower-cased key "bboccae=", which `set` accepts for code 152. |
| T2080Model.BoostIqRefused | src/api/model_details/t2080.ts:70-80 | No FAN_SPEED entry has BOOST_IQ's id 1, so `setFanSpeed(FanSpeed.BOOST_IQ)` throws `ValueNotSupportedError`. |
| T2080Model.NoReturnHomeOrDirection | src/api/model_details/t2080.ts:10-81 | Without a RETURN_HOME spec `setGoHome` is refused before any transport call; without DIRECTION `setDirection` throws a TypeError. |
| T2267Model.StoredDirection | src/api/model_details/t2267.ts:22-28 | Lower-casing the keys of the DIRECTION table merges none of them: the stored table is the lower-cased entries in their order. |
| T2267Model.StoredWorkStatus | src/api/model_details/t2267.ts:34-50 | Lower-casing the keys of the WORK_STATUS table merges none of them: the stored table is the lower-cased entries in their order. |
| T2267Model.StoredFanSpeed | src/api/model_details/t2267.ts:56-62 | Lower-casing the keys of the FAN_SPEED table merges none of them: the stored table is the lower-cased entries in their order. |
| T2267Model.StoredError | src/api/model_details/t2267.ts:83-93 | Lower-casing the keys of the ERROR table merges none of them: the stored table is the lower-cased entries in their order. |
| T2267Model.ReusesDefaults | src/api/model_details/t2267.ts:12-12 | Each `ROBOVAC_COMMAND_DEFAULTS[...]` at the head of the list is the default array's spec for that command. |
| T2267Model.Constructs | src/api/model_details/t2267.ts:11-95 | No two specs of the list share a command or a code, so `new T2267RobovacModelDetails(...)` does not throw. |
| T2267Model.Details | src/api/model_details/t2267.ts:9-97 | `new T2267RobovacModelDetails(modelId, modelName)` is the object the constructor builds from the list, and it is well formed. |
| T2267Model.LayoutKeys | src/api/model_details/t2267.ts:11-95 | The object keeps id and name and has specs for exactly the commands DEFAULT, RUNNING, DIRECTION, WORK_STATUS, FAN_SPEED, RETURN_HOME, FIND_ROBOT, BATTERY_LEVEL, ERROR and exactly their codes. |
| T2267Model.AbsentCommands | src/api/model_details/t2267.ts:11-95 | The list has no spec for the commands of the enum it leaves out. |
| T2267Model.Misses | src/api/model_details/t2267.ts:11-95 | A command the list leaves out is looked up as undefined. |
| T2267Model.LayoutPlainSpecs0 | src/api/model_details/t2267.ts:12-17 | The DEFAULT and RUNNING specs, which have no table, are filed unchanged under their commands and their codes. |
| T2267Model.LayoutPlainSpecs1 | src/api/model_details/t2267.ts:64-73 | The RETURN_HOME and FIND_ROBOT specs, which have no table, are filed unchanged under their commands and their codes. |
| T2267Model.LayoutPlainSpecs2 | src/api/model_details/t2267.ts:74-78 | The BATTERY_LEVEL specs, which have no table, are filed unchanged under their commands and their codes. |
| T2267Model.LayoutDirectionSpec | src/api/model_details/t2267.ts:18-29 | The DIRECTION spec is filed with its table under lower-case keys, the same object under its command and under its code. |
| T2267Model.LayoutWorkStatusSpec | src/api/model_details/t2267.ts:30-51 | The WORK_STATUS spec is filed with its table under lower-case keys, the same object under its command and under its code. |
| T2267Model.LayoutFanSpeedSpec | src/api/model_details/t2267.ts:52-63 | The FAN_SPEED spec is filed with its table under lower-case keys, the same object under its command and under its code. |
| T2267Model.LayoutErrorSpec | src/api/model_details/t2267.ts:79-94 | The ERROR spec is filed with its table under lower-case keys, the same object under its command and under its code. |
| T2267Model.WorkStatusUnknownOrRaw | src/api/model_details/t2267.ts:30-51 | Whatever string arrives at code 153 is stored as `WorkStatus.UNKNOWN`, as the raw string, or, for "constructor" and "__proto__", as the property the table inherits from `Object.prototype`. |
| T2267Model.AaIsUnknown | src/api/model_details/t2267.ts:30-51 | "AA==" is one of the tokens the table knows, and it too decodes to UNKNOWN. |
| T2267Model.BrakeToken | src/api/model_details/t2267.ts:18-29 | `setDirection(Direction.BRAKE)` sends "brake", which `set` accepts for code 155. |
| T2267Model.BoostIqToken | src/api/model_details/t2267.ts:52-63 | `setFanSpeed(FanSpeed.BOOST_IQ)` sends "boost_iq", which `set` accepts for code 158. |
| T2267Model.GoHomeCode | src/api/model_details/t2267.ts:64-68 | `setGoHome(b)` is accepted for RETURN_HOME, a BOOLEAN spec at code 173. |
| T2267Model.DecodeStuck | src/api/model_details/t2267.ts:79-94 | "Stuck_5_min" in any case is `DeviceError.STUCK_5_MIN` at code 177. |
| T2267Model.DecodeBrushRaw | src/api/model_details/t2267.ts:79-94 | The two brush entries are undefined, so their tokens are stored raw. |
| T2267Model.NoWorkMode | src/api/model_details/t2267.ts:11-95 | Without a WORK_MODE spec `set` refuses it and `setWorkMode` throws a TypeError. |
| T2275Model.StoredWorkMode | src/api/model_details/t2275.ts:17-23 | Lower-casing the keys of the WORK_MODE table merges none of them: the stored table is the lower-cased entries in their order. |
| T2275Model.StoredWorkStatus | src/api/model_details/t2275.ts:29-37 | Lower-casing the keys of the WORK_STATUS table merges none of them: the stored table is the lower-cased entries in their order. |
| T2275Model.StoredSpecialCommand | src/api/model_details/t2275.ts:43-46 | Lower-casing the keys of the SPECIAL_COMMAND table merges none of them: the stored table is the lower-cased entries in their order. |
| T2275Model.StoredError | src/api/model_details/t2275.ts:57-67 | Lower-casing the keys of the ERROR table merges none of them: the stored table is the lower-cased entries in their order. |
| T2275Model.ReusesDefaults | src/api/model_details/t2275.ts:12-12 | Each `ROBOVAC_COMMAND_DEFAULTS[...]` at the head of the list is the default array's spec for that command. |
| T2275Model.Constructs | src/api/model_details/t2275.ts:11-69 | No two specs of the list share a command or a code, so `new T2275RobovacModelDetails(...)` does not throw. |
| T2275Model.Details | src/api/model_details/t2275.ts:9-71 | `new T2275RobovacModelDetails(modelId, modelName)` is the object the constructor builds from the list, and it is well formed. |
| T2275Model.LayoutKeys | src/api/model_details/t2275.ts:11-69 | The object keeps id and name and has specs for exactly the commands DEFAULT, WORK_MODE, WORK_STATUS, SPECIAL_COMMAND, BATTERY_LEVEL, ERROR and exactly their codes. |
| T2275Model.AbsentCommands | src/api/model_details/t2275.ts:11-69 | The list has no spec for the commands of the enum it leaves out. |
| T2275Model.Misses | src/api/model_details/t2275.ts:11-69 | A command the list leaves out is looked up as undefined. |
| T2275Model.LayoutPlainSpecs | src/api/model_details/t2275.ts:12-52 | The DEFAULT and BATTERY_LEVEL specs, which have no table, are filed unchanged under their commands and their codes. |
| T2275Model.LayoutWorkModeSpec | src/api/model_details/t2275.ts:13-24 | The WORK_MODE spec is filed with its table under lower-case keys, the same object under its command and under its code. |
| T2275Model.LayoutWorkStatusSpec | src/api/model_details/t2275.ts:25-38 | The WORK_STATUS spec is filed with its table under lower-case keys, the same object under its command and under its code. |
| T2275Model.LayoutSpecialCommandSpec | src/api/model_details/t2275.ts:39-47 | The SPECIAL_COMMAND spec is filed with its table under lower-case keys, the same object under its command and under its code. |
| T2275Model.LayoutErrorSpec | src/api/model_details/t2275.ts:53-68 | The ERROR spec is filed with its table under lower-case keys, the same object under its command and under its code. |
| T2275Model.DecodeCompleted | src/api/model_details/t2275.ts:25-38 | "completed" in any case, at code 173, is `WorkStatus.CHARGING_COMPLETED`. |
| T2275Model.DecodeRecharge | src/api/model_details/t2275.ts:25-38 | "recharge" in any case, at code 173, is `WorkStatus.RECHARGE_NEEDED`. |
| T2275Model.DecodeSpecialCommands | src/api/model_details/t2275.ts:39-47 | At code 153 "AggB" is `SpecialCommand.RETURN_HOME` and "AggC" is `SpecialCommand.FIND_ROBOT`. |
| T2275Model.AaIsSmallRoom | src/api/model_details/t2275.ts:13-24 | "AA==" at code 152 is `WorkMode.SMALL_ROOM`. |
| T2275Model.EdgeToken | src/api/model_details/t2275.ts:13-24 | `setWorkMode(WorkMode.EDGE)` sends "aggg", which `set` accepts for code 152. |
| T2275Model.NoPlayPause | src/api/model_details/t2275.ts:11-69 | Without a RUNNING spec `setPlayPause` is refused before any transport call. |
| T2275Model.NoGoHomeOrFindRobot | src/api/model_details/t2275.ts:11-69 | Without RETURN_HOME and FIND_ROBOT specs `setGoHome` and `setFindRobot` are refused before any transport call. |
| T2277Model.StoredWorkMode | src/api/model_details/t2277.ts:15-21 | Lower-casing the keys of the WORK_MODE table merges none of them: the stored table is the lower-cased entries in their order. |
| T2277Model.StoredWorkStatus | src/api/model_details/t2277.ts:27-46 | Lower-casing the keys of the WORK_STATUS table merges none of them: the stored table is the lower-cased entries in their order. |
| T2277Model.StoredFanSpeed | src/api/model_details/t2277.ts:52-57 | Lower-casing the keys of the FAN_SPEED table merges none of them: the stored table is the lower-cased entries in their order. |
| T2277Model.ReusesDefaults | src/api/model_details/t2277.ts:10-10 | Each `ROBOVAC_COMMAND_DEFAULTS[...]` at the head of the list is the default array's spec for that command. |
| T2277Model.Constructs | src/api/model_details/t2277.ts:9-74 | No two specs of the list share a command or a code, so `new T2277RobovacModelDetails(...)` does not throw. |
| T2277Model.Details | src/api/model_details/t2277.ts:7-76 | `new T2277RobovacModelDetails(modelId, modelName)` is the object the constructor builds from the list, and it is well formed. |
| T2277Model.LayoutKeys | src/api/model_details/t2277.ts:9-74 | The object keeps id and name and has specs for exactly the commands DEFAULT, WORK_MODE, WORK_STATUS, FAN_SPEED, FIND_ROBOT, BATTERY_LEVEL, ERROR and exactly their codes. |
| T2277Model.AbsentCommands | src/api/model_details/t2277.ts:9-74 | The list has no spec for the commands of the enum it leaves out. |
| T2277Model.Misses | src/api/model_details/t2277.ts:9-74 | A command the list leaves out is looked up as undefined. |
| T2277Model.LayoutPlainSpecs0 | src/api/model_details/t2277.ts:10-63 | The DEFAULT and FIND_ROBOT specs, which have no table, are filed unchanged under their commands and their codes. |
| T2277Model.LayoutPlainSpecs1 | src/api/model_details/t2277.ts:64-73 | The BATTERY_LEVEL and ERROR specs, which have no table, are filed unchanged under their commands and their codes. |
| T2277Model.LayoutWorkModeSpec | src/api/model_details/t2277.ts:11-22 | The WORK_MODE spec is filed with its table under lower-case keys, the same object under its command and under its code. |
| T2277Model.LayoutWorkStatusSpec | src/api/model_details/t2277.ts:23-47 | The WORK_STATUS spec is filed with its table under lower-case keys, the same object under its command and under its code. |
| T2277Model.LayoutFanSpeedSpec | src/api/model_details/t2277.ts:48-58 | The FAN_SPEED spec is filed with its table under lower-case keys, the same object under its command and under its code. |
| T2277Model.ErrorRaw | src/api/model_details/t2277.ts:69-73 | The ERROR spec at code 177 has no table: every value is stored as it came. |
| T2277Model.AutoAliases | src/api/model_details/t2277.ts:23-47 | "BgoAEAUyAA===" and "BgoAEAUyAA==" both decode to the plain string "auto". |
| T2277Model.ChargingPlain | src/api/model_details/t2277.ts:23-47 | "BBADGgA=" decodes to the plain string "Charging". |
| T2277Model.StandbyToken | src/api/model_details/t2277.ts:11-22 | "AA==" at code 152 is `WorkMode.STANDBY`, and `setWorkMode(WorkMode.STANDBY)` sends "aa==" there. |
| T2277Model.NoPlayPauseOrGoHome | src/api/model_details/t2277.ts:9-74 | Without RUNNING and RETURN_HOME specs `setPlayPause` and `setGoHome` are refused before any transport call. |
| T2277Model.FindRobotCode | src/api/model_details/t2277.ts:59-63 | `setFindRobot(b)` is accepted for FIND_ROBOT, a BOOLEAN spec at code 160. |
| T2320Model.ReusesDefaults | src/api/model_details/t2320.ts:8-9 | DEFAULT and RUNNING at the head of the list are the default array's specs. |
| T2320Model.RejectsDuplicateCode | src/api/model_details/t2320.ts:22-37 | RETURN_HOME and FIND_ROBOT both use code 152, so `new T2320RobovacModelDetails(...)` always throws the code error naming RETURN_HOME and FIND_ROBOT. |
| WorkModes.TableShape | src/api/work-mode.ts:3-48 | The record has 11 entries with ids 0 to 10, in the order of the source, and no two entries share an id. |
| WorkModes.TableMessages | src/api/work-mode.ts:3-48 | The friendly messages of the entries, in order, are those of the source. |
| WorkModes.NamesDistinct | src/api/work-mode.ts:3-48 | No two properties of `WorkMode` share a name, so each name looks up its own entry. |
| WorkStatuses.TableShape | src/api/work-status.ts:3-88 | The record has 21 entries with ids 0 to 19 and 99, in the order of the source, and no two entries share an id. |
| WorkStatuses.TableMessages | src/api/work-status.ts:3-88 | The friendly messages of the entries, in order, are those of the source. |
| WorkStatuses.NamesDistinct | src/api/work-status.ts:3-88 | No two properties of `WorkStatus` share a name, so each name looks up its own entry. |

## Left out

- TuyAPI internals: the transport is a class that records the requests
  made of it. Its answers (connect or write success, the schema message)
  are parameters of the methods that settle each `await`. `find()` is
  counted as part of `connect()`. `directConnect` and the TuyAPI
  constructor options are not modelled.
- Real asynchrony: interleavings are whatever order the methods are
  called in. Promise objects are tickets, and awaiting an already settled
  promise is `RoboVac.Accessor` given that ticket.
- Logging, `ConsoleLogger`, `consoleDebugLog` and `formatRobovacStatus`:
  they only write diagnostics and never change the state.
- The `connected` and `disconnected` events only log. The connection
  state they reflect is `Transport.ConnectionChanged`.
- `StatusCodec.Decode`: the source calls `toLowerCase()` on a value
  received for a STRING command with a table. When the device sends a
  non-string there, that call throws inside the event handler. The model
  requires a string in that case (`Decodable`) and does not model the
  throw.
- The T2276, T2278 and T2280 classes: their files are not part of this
  model. `createModelDetailsFromModelId` returns `Success(None)` for the
  ids that resolve to them.
- src/accessory.ts (the HomeKit accessory and its timeouts),
  src/promise-timeout-error.ts and src/promise-timeout-exception.ts are
  not part of this model. They create and end `RaceStatus` objects and
  register the callbacks. Here those are constructor parameters and calls
  of `RaceStatus.SetRaceOver`.
- `SupportedModels.CreateModelDetailsFromModelId`: the returned object's
  class identity (`instanceof`) is not modelled, only its registry.
- JsText.Lower: `toLowerCase` is modelled on the ASCII letters A to Z only.
  JavaScript also lower-cases other Unicode letters: U+212A KELVIN SIGN
  becomes "k", so "Stuc\u212A_5_min" decodes to `STUCK_5_MIN` in the source
  but stays raw here. U+0130 becomes two code units, so the length-keeping
  contract of `Lower` is not JavaScript's. The device's tokens are ASCII.
- JsText.LowerChar: the same ASCII-only rule, one character at a time.
- JsEntries.Get: reads own entries only. A plain object also has the
  properties it inherits from `Object.prototype`. The only place a device
  token reaches such a lookup is `StatusCodec.Decode`, which models the two
  lower-case inherited names, "constructor" and "__proto__", explicitly.
- StatusCodec.Dps: the `dps` record is a map from integer codes. The source
  has string keys and converts each with `Number(dps_code)`
  (src/api/robovac-api.ts:161), so "1" and "01" both reach code 1 and ""
  reaches code 0. The visiting order of `Object.entries` is not modelled
  either: `IngestStores` holds for any order of distinct codes.
- The source's numbers are unbounded integers here. Codes and ids are
  small integers in every table, and non-integer device numbers are not
  modelled.
