/**
 * The default command table (src/api/model_details/default-robovac-model-details.ts):
 * `ROBOVAC_COMMAND_DEFAULTS_ARRAY`, the record `ROBOVAC_COMMAND_DEFAULTS`
 * keyed by command, and `DefaultRobovacModelDetails`, which builds a
 * registry from the array.
 */
module DefaultModel {
  import opened Wrappers
  import opened JsText
  import opened JsEntries
  import opened RobovacCommand
  import opened RobovacModelDetails
  import opened StatusCodec
  import DeviceErrors
  import Directions
  import WorkModes
  import FanSpeeds

  /** The DIRECTION table (lines 21-26). */
  const DIRECTION_VALUES: StringTable := [
    ("forward", Some(Mapped(Directions.FORWARD))),
    ("left", Some(Mapped(Directions.LEFT))),
    ("right", Some(Mapped(Directions.RIGHT))),
    ("back", Some(Mapped(Directions.BACK)))
  ]

  /** The stored copy of the table: the same entries under lower-case keys. */
  const DIRECTION_STORED: StringTable := [
    ("forward", Some(Mapped(Directions.FORWARD))),
    ("left", Some(Mapped(Directions.LEFT))),
    ("right", Some(Mapped(Directions.RIGHT))),
    ("back", Some(Mapped(Directions.BACK)))
  ]

  lemma LowerDirectionKeys0()
    ensures Lower("forward") == "forward"
      && Lower("left") == "left"
      && Lower("right") == "right"
      && Lower("back") == "back"
  {
  }

  /** Lower-casing the keys of the table merges no two of them. */
  lemma StoredDirection()
    ensures NormalizeTable(DIRECTION_VALUES) == DIRECTION_STORED && DistinctKeys(DIRECTION_STORED)
  {
    LowerDirectionKeys0();
    assert LowerKeys(DIRECTION_VALUES) == DIRECTION_STORED;
    assert KeysOf(DIRECTION_STORED) == ["forward", "left", "right", "back"];
    NormalizeTableOfDistinct(DIRECTION_VALUES);
  }

  /** The WORK_STATUS table (lines 32-40): plain strings, not mappings. */
  const WORK_STATUS_VALUES: StringTable := [
    ("running", Some(Plain("Running"))),
    ("paused", Some(Plain("Paused"))),
    ("standby", Some(Plain("Standby"))),
    ("sleeping", Some(Plain("Sleeping"))),
    ("charging", Some(Plain("Charging"))),
    ("completed", Some(Plain("Charging completed"))),
    ("recharge", Some(Plain("Recharge needed")))
  ]

  /** The stored copy of the table: the same entries under lower-case keys. */
  const WORK_STATUS_STORED: StringTable := [
    ("running", Some(Plain("Running"))),
    ("paused", Some(Plain("Paused"))),
    ("standby", Some(Plain("Standby"))),
    ("sleeping", Some(Plain("Sleeping"))),
    ("charging", Some(Plain("Charging"))),
    ("completed", Some(Plain("Charging completed"))),
    ("recharge", Some(Plain("Recharge needed")))
  ]

  lemma LowerWorkStatusKeys0()
    ensures Lower("running") == "running"
      && Lower("paused") == "paused"
      && Lower("standby") == "standby"
      && Lower("sleeping") == "sleeping"
      && Lower("charging") == "charging"
  {
  }

  lemma LowerWorkStatusKeys1()
    ensures Lower("completed") == "completed"
      && Lower("recharge") == "recharge"
  {
  }

  /** Lower-casing the keys of the table merges no two of them. */
  lemma StoredWorkStatus()
    ensures NormalizeTable(WORK_STATUS_VALUES) == WORK_STATUS_STORED && DistinctKeys(WORK_STATUS_STORED)
  {
    LowerWorkStatusKeys0();
    LowerWorkStatusKeys1();
    assert LowerKeys(WORK_STATUS_VALUES) == WORK_STATUS_STORED;
    assert KeysOf(WORK_STATUS_STORED) == ["running", "paused", "standby", "sleeping", "charging", "completed", "recharge"];
    NormalizeTableOfDistinct(WORK_STATUS_VALUES);
  }

  /** The ERROR table (lines 61-71); two of its values name properties `DeviceError` does not have. */
  const ERROR_VALUES: StringTable := [
    ("no_error", Some(Mapped(DeviceErrors.NO_ERROR))),
    ("Stuck_5_min", Some(Mapped(DeviceErrors.STUCK_5_MIN))),
    ("Crash_bar_stuck", Some(Mapped(DeviceErrors.CRASH_BAR_STUCK))),
    ("sensor_dirty", Some(Mapped(DeviceErrors.SENSOR_DIRTY))),
    ("N_enough_pow", Some(Mapped(DeviceErrors.NOT_ENOUGH_POWER))),
    ("Wheel_stuck", Some(Mapped(DeviceErrors.WHEEL_STUCK))),
    ("S_brush_stuck", Defined(DeviceErrors.Field("SIDE_BRUSH_STUCK"))),
    ("Fan_stuck", Some(Mapped(DeviceErrors.FAN_STUCK))),
    ("R_brush_stuck", Defined(DeviceErrors.Field("ROLLER_BRUSH_STUCK")))
  ]

  /** The stored copy of the table: the same entries under lower-case keys. */
  const ERROR_STORED: StringTable := [
    ("no_error", Some(Mapped(DeviceErrors.NO_ERROR))),
    ("stuck_5_min", Some(Mapped(DeviceErrors.STUCK_5_MIN))),
    ("crash_bar_stuck", Some(Mapped(DeviceErrors.CRASH_BAR_STUCK))),
    ("sensor_dirty", Some(Mapped(DeviceErrors.SENSOR_DIRTY))),
    ("n_enough_pow", Some(Mapped(DeviceErrors.NOT_ENOUGH_POWER))),
    ("wheel_stuck", Some(Mapped(DeviceErrors.WHEEL_STUCK))),
    ("s_brush_stuck", None),
    ("fan_stuck", Some(Mapped(DeviceErrors.FAN_STUCK))),
    ("r_brush_stuck", None)
  ]

  lemma LowerErrorKeys0()
    ensures Lower("no_error") == "no_error"
      && Lower("Stuck_5_min") == "stuck_5_min"
      && Lower("Crash_bar_stuck") == "crash_bar_stuck"
  {
  }

  lemma LowerErrorKeys1()
    ensures Lower("sensor_dirty") == "sensor_dirty"
      && Lower("N_enough_pow") == "n_enough_pow"
      && Lower("Wheel_stuck") == "wheel_stuck"
  {
  }

  lemma LowerErrorKeys2()
    ensures Lower("S_brush_stuck") == "s_brush_stuck"
      && Lower("Fan_stuck") == "fan_stuck"
      && Lower("R_brush_stuck") == "r_brush_stuck"
  {
  }

  lemma LowerErrorTable()
    ensures LowerKeys(ERROR_VALUES) == ERROR_STORED
  {
    LowerErrorKeys0();
    LowerErrorKeys1();
    LowerErrorKeys2();
    DeviceErrors.MissingBrushKeys();
  }

  /** The keys of the stored table. */
  const ERROR_KEYS: seq<string> := ["no_error", "stuck_5_min", "crash_bar_stuck", "sensor_dirty", "n_enough_pow", "wheel_stuck", "s_brush_stuck", "fan_stuck", "r_brush_stuck"]

  lemma DistinctErrorRows0()
    ensures forall i, j :: 0 <= i < 9 && i < j < |ERROR_KEYS| ==> ERROR_KEYS[i] != ERROR_KEYS[j]
  {
  }

  lemma DistinctErrorKeys()
    ensures DistinctKeys(ERROR_STORED)
  {
    DistinctErrorRows0();
    assert KeysOf(ERROR_STORED) == ERROR_KEYS;
    forall i, j | 0 <= i < j < |ERROR_STORED| ensures ERROR_STORED[i].0 != ERROR_STORED[j].0 {
      assert ERROR_STORED[i].0 == ERROR_KEYS[i] && ERROR_STORED[j].0 == ERROR_KEYS[j];
    }
  }

  /** Lower-casing the keys of the table merges no two of them. */
  lemma StoredError()
    ensures NormalizeTable(ERROR_VALUES) == ERROR_STORED && DistinctKeys(ERROR_STORED)
  {
    LowerErrorTable();
    DistinctErrorKeys();
    NormalizeTableOfDistinct(ERROR_VALUES);
  }

  const DEFAULT_SPEC := CommandSpec(Default, 1, Boolean, None)
  const RUNNING_SPEC := CommandSpec(Running, 2, Boolean, None)
  const DIRECTION_SPEC := CommandSpec(Direction, 3, String, Some(DIRECTION_VALUES))
  const WORK_STATUS_SPEC := CommandSpec(WorkStatus, 15, String, Some(WORK_STATUS_VALUES))
  const RETURN_HOME_SPEC := CommandSpec(ReturnHome, 101, Boolean, None)
  const FIND_ROBOT_SPEC := CommandSpec(FindRobot, 103, Boolean, None)
  const BATTERY_LEVEL_SPEC := CommandSpec(BatteryLevel, 104, Number, None)
  const ERROR_SPEC := CommandSpec(Error, 106, String, Some(ERROR_VALUES))

  /** `ROBOVAC_COMMAND_DEFAULTS_ARRAY` */
  const DefaultsArray: seq<CommandSpec> :=
    [DEFAULT_SPEC, RUNNING_SPEC, DIRECTION_SPEC, WORK_STATUS_SPEC, RETURN_HOME_SPEC, FIND_ROBOT_SPEC, BATTERY_LEVEL_SPEC, ERROR_SPEC]

  /** The pairs `[cmd.command, cmd]` of the array. */
  function RecordEntries(): (r: Entries<CommandSpec>)
    ensures |r| == |DefaultsArray| && forall i :: 0 <= i < |DefaultsArray| ==> r[i] == (CommandName(DefaultsArray[i].command), DefaultsArray[i])
  {
    seq(|DefaultsArray|, i requires 0 <= i < |DefaultsArray| => (CommandName(DefaultsArray[i].command), DefaultsArray[i]))
  }

  /** `ROBOVAC_COMMAND_DEFAULTS[c]`, keyed by the command's string value. */
  function CommandDefault(c: Command): Option<CommandSpec> {
    Get(FromEntries(RecordEntries()), CommandName(c))
  }

  /** No two array entries share a command, so no two pairs share a key. */
  lemma RecordDistinct()
    ensures DistinctKeys(RecordEntries())
  {
    CommandVocabulary();
    var es := RecordEntries();
    forall i, j | 0 <= i < j < |es| ensures es[i].0 != es[j].0 {
      assert DefaultsArray[i].command != DefaultsArray[j].command;
    }
  }

  /** `ROBOVAC_COMMAND_DEFAULTS[c]` for the command of the `i`-th array entry is that entry. */
  lemma DefaultFor(i: nat)
    requires i < |DefaultsArray|
    ensures CommandDefault(DefaultsArray[i].command) == Some(DefaultsArray[i])
  {
    var es := RecordEntries();
    RecordDistinct();
    FromEntriesOfDistinct(es);
    GetDistinct(es, i);
  }

  /** Every command of the array finds its own array entry in the record. */
  lemma DefaultsLookup(c: Command)
    requires c in Commands(DefaultsArray)
    ensures CommandDefault(c).Some? && CommandDefault(c).value.command == c && CommandDefault(c).value in DefaultsArray
  {
    var i :| 0 <= i < |DefaultsArray| && Commands(DefaultsArray)[i] == c;
    DefaultFor(i);
  }

  /** The record has nothing for WORK_MODE, FAN_SPEED and SPECIAL_COMMAND, the three commands the array leaves out. */
  lemma DefaultsMissing(c: Command)
    requires c in {WorkMode, FanSpeed, SpecialCommand}
    ensures c !in Commands(DefaultsArray)
    ensures CommandDefault(c).None?
  {
    var es := RecordEntries();
    FromEntriesKeys(es, CommandName(c));
    SpecColumns();
    CommandVocabulary();
    forall i | 0 <= i < |es| ensures es[i].0 != CommandName(c) {
      assert Commands(DefaultsArray)[i] != c;
    }
  }

  lemma SpecColumns()
    ensures Commands(DefaultsArray) == [Default, Running, Direction, WorkStatus, ReturnHome, FindRobot, BatteryLevel, Error]
    ensures Codes(DefaultsArray) == [1, 2, 3, 15, 101, 103, 104, 106]
  {
  }

  /** The commands are pairwise distinct and so are the codes 1, 2, 3, 15, 101, 103, 104 and 106, so the constructor does not throw. */
  lemma Constructs(modelId: string, modelName: string)
    ensures BuildIndices(DefaultsArray).Success? && Construct(modelId, modelName, DefaultsArray).Success?
  {
    BuildSucceeds(DefaultsArray);
  }

  /** `new DefaultRobovacModelDetails(modelId, modelName)`: a registry built from the array. */
  function Details(modelId: string, modelName: string): (d: ModelDetails)
    ensures Construct(modelId, modelName, DefaultsArray) == Success(d) && WellFormed(d)
  {
    Constructs(modelId, modelName);
    ConstructWellFormed(modelId, modelName, DefaultsArray);
    Construct(modelId, modelName, DefaultsArray).value
  }

  /** The registry knows exactly the commands and the codes of the spec list. */
  lemma LayoutKeys(modelId: string, modelName: string)
    ensures var d := Details(modelId, modelName);
      d.modelId == modelId && d.modelName == modelName &&
      (forall c :: c in d.byCommand <==> c in [Default, Running, Direction, WorkStatus, ReturnHome, FindRobot, BatteryLevel, Error]) &&
      (forall k :: k in d.byCode <==> k in [1, 2, 3, 15, 101, 103, 104, 106])
  {
    Constructs(modelId, modelName);
    BuildColumns(DefaultsArray);
    SpecColumns();
  }

  /** A command that the spec list leaves out has no entry in the registry. */
  lemma Misses(modelId: string, modelName: string, c: Command)
    requires c !in Commands(DefaultsArray)
    ensures c !in Details(modelId, modelName).byCommand
  {
    Constructs(modelId, modelName);
    BuildColumns(DefaultsArray);
  }

  /** Specs without a table are stored as they are. */
  lemma LayoutPlainSpecs0(modelId: string, modelName: string)
    ensures var d := Details(modelId, modelName);
      Default in d.byCommand && d.byCommand[Default] == DEFAULT_SPEC && 1 in d.byCode && d.byCode[1] == DEFAULT_SPEC &&
      Running in d.byCommand && d.byCommand[Running] == RUNNING_SPEC && 2 in d.byCode && d.byCode[2] == RUNNING_SPEC
  {
    Constructs(modelId, modelName);
    BuildPlainAt(DefaultsArray, 0);
    BuildPlainAt(DefaultsArray, 1);
  }

  /** Specs without a table are stored as they are. */
  lemma LayoutPlainSpecs1(modelId: string, modelName: string)
    ensures var d := Details(modelId, modelName);
      ReturnHome in d.byCommand && d.byCommand[ReturnHome] == RETURN_HOME_SPEC && 101 in d.byCode && d.byCode[101] == RETURN_HOME_SPEC &&
      FindRobot in d.byCommand && d.byCommand[FindRobot] == FIND_ROBOT_SPEC && 103 in d.byCode && d.byCode[103] == FIND_ROBOT_SPEC
  {
    Constructs(modelId, modelName);
    BuildPlainAt(DefaultsArray, 4);
    BuildPlainAt(DefaultsArray, 5);
  }

  /** Specs without a table are stored as they are. */
  lemma LayoutPlainSpecs2(modelId: string, modelName: string)
    ensures var d := Details(modelId, modelName);
      BatteryLevel in d.byCommand && d.byCommand[BatteryLevel] == BATTERY_LEVEL_SPEC && 104 in d.byCode && d.byCode[104] == BATTERY_LEVEL_SPEC
  {
    Constructs(modelId, modelName);
    BuildPlainAt(DefaultsArray, 6);
  }

  /** The DIRECTION spec is stored with its table under lower-case keys. */
  lemma LayoutDirectionSpec(modelId: string, modelName: string)
    ensures var d := Details(modelId, modelName);
      Direction in d.byCommand && d.byCommand[Direction] == CommandSpec(Direction, 3, String, Some(DIRECTION_STORED)) &&
      3 in d.byCode && d.byCode[3] == d.byCommand[Direction]
  {
    Constructs(modelId, modelName);
    StoredDirection();
    BuildTableAt(DefaultsArray, 2, DIRECTION_STORED);
  }

  /** The WORK_STATUS spec is stored with its table under lower-case keys. */
  lemma LayoutWorkStatusSpec(modelId: string, modelName: string)
    ensures var d := Details(modelId, modelName);
      WorkStatus in d.byCommand && d.byCommand[WorkStatus] == CommandSpec(WorkStatus, 15, String, Some(WORK_STATUS_STORED)) &&
      15 in d.byCode && d.byCode[15] == d.byCommand[WorkStatus]
  {
    Constructs(modelId, modelName);
    StoredWorkStatus();
    BuildTableAt(DefaultsArray, 3, WORK_STATUS_STORED);
  }

  /** The ERROR spec is stored with its table under lower-case keys. */
  lemma LayoutErrorSpec(modelId: string, modelName: string)
    ensures var d := Details(modelId, modelName);
      Error in d.byCommand && d.byCommand[Error] == CommandSpec(Error, 106, String, Some(ERROR_STORED)) &&
      106 in d.byCode && d.byCode[106] == d.byCommand[Error]
  {
    Constructs(modelId, modelName);
    StoredError();
    BuildTableAt(DefaultsArray, 7, ERROR_STORED);
  }
  // ---------------------------------------------------------------------------
  // What a RoboVac with the default table decodes and sends
  // ---------------------------------------------------------------------------

  /** "Stuck_5_min" at code 106, in whatever case the device sends it, is `DeviceError.STUCK_5_MIN`. */
  lemma DecodeStuck(modelId: string, modelName: string, token: string)
    requires Lower(token) == "stuck_5_min"
    ensures var spec := Details(modelId, modelName).byCode[106];
      Decodable(spec, JsString(token)) && Decode(spec, JsString(token)) == JsMapping(DeviceErrors.STUCK_5_MIN)
  {
    LayoutErrorSpec(modelId, modelName);
    StoredError();
    DecodeAt(Details(modelId, modelName).byCode[106], 1, token);
  }

  /**
   * "S_brush_stuck" and "R_brush_stuck" have undefined values in the table,
   * so they are stored as the raw string.
   */
  lemma DecodeBrushRaw(modelId: string, modelName: string, token: string)
    requires Lower(token) == "s_brush_stuck" || Lower(token) == "r_brush_stuck"
    ensures var spec := Details(modelId, modelName).byCode[106];
      Decodable(spec, JsString(token)) && Decode(spec, JsString(token)) == JsString(token)
  {
    LayoutErrorSpec(modelId, modelName);
    StoredError();
    var spec := Details(modelId, modelName).byCode[106];
    if Lower(token) == "s_brush_stuck" {
      DecodeAt(spec, 6, token);
    } else {
      DecodeAt(spec, 8, token);
    }
  }

  /**
   * "constructor" and "__proto__", in any case, name no ERROR key, so code 106
   * stores the properties the table inherits from `Object.prototype`.
   */
  lemma DecodeInherited(modelId: string, modelName: string, token: string)
    requires Lower(token) == "constructor" || Lower(token) == "__proto__"
    ensures var spec := Details(modelId, modelName).byCode[106];
      Decodable(spec, JsString(token)) &&
      Decode(spec, JsString(token)) == if Lower(token) == "constructor" then JsObjectFunction else JsObjectPrototype
  {
    LayoutErrorSpec(modelId, modelName);
    assert KeysOf(ERROR_STORED) == ERROR_KEYS;
    assert !HasKey(ERROR_STORED, Lower(token)) by {
      forall i | 0 <= i < |ERROR_STORED| ensures ERROR_STORED[i].0 != Lower(token) {
        assert ERROR_STORED[i].0 == ERROR_KEYS[i];
      }
    }
  }

  /** WORK_STATUS at code 15 decodes "charging", in any case, to the plain string "Charging". */
  lemma DecodeWorkStatusCharging(modelId: string, modelName: string, token: string)
    requires Lower(token) == "charging"
    ensures 15 in Details(modelId, modelName).byCode
    ensures var spec := Details(modelId, modelName).byCode[15];
      Decodable(spec, JsString(token)) && Decode(spec, JsString(token)) == JsString("Charging")
  {
    LayoutWorkStatusSpec(modelId, modelName);
    StoredWorkStatus();
    DecodeAt(Details(modelId, modelName).byCode[15], 4, token);
  }

  /** WORK_STATUS at code 15 decodes "completed", in any case, to "Charging completed". */
  lemma DecodeWorkStatusCompleted(modelId: string, modelName: string, token: string)
    requires Lower(token) == "completed"
    ensures 15 in Details(modelId, modelName).byCode
    ensures var spec := Details(modelId, modelName).byCode[15];
      Decodable(spec, JsString(token)) && Decode(spec, JsString(token)) == JsString("Charging completed")
  {
    LayoutWorkStatusSpec(modelId, modelName);
    StoredWorkStatus();
    DecodeAt(Details(modelId, modelName).byCode[15], 5, token);
  }

  /** `setDirection` sends the table's key for the directions it has. */
  lemma DirectionTokens(modelId: string, modelName: string)
    ensures var d := Details(modelId, modelName);
      SetterToken(d, Direction, Directions.FORWARD) == Success("forward") &&
      SetterToken(d, Direction, Directions.LEFT) == Success("left") &&
      SetterToken(d, Direction, Directions.RIGHT) == Success("right") &&
      SetterToken(d, Direction, Directions.BACK) == Success("back")
  {
    LayoutDirectionSpec(modelId, modelName);
    FindTokenFound(DIRECTION_STORED, Directions.FORWARD.id, 0);
    FindTokenFound(DIRECTION_STORED, Directions.LEFT.id, 1);
    FindTokenFound(DIRECTION_STORED, Directions.RIGHT.id, 2);
    FindTokenFound(DIRECTION_STORED, Directions.BACK.id, 3);
  }

  /** The DIRECTION table has no entry with BRAKE's id, so `setDirection(Direction.BRAKE)` throws `ValueNotSupportedError`. */
  lemma DirectionBrakeRefused(modelId: string, modelName: string)
    ensures SetterToken(Details(modelId, modelName), Direction, Directions.BRAKE) ==
      Failure(ValueNotSupported(ValueNotSupportedMessage(Some(JsMapping(Directions.BRAKE)), Direction, Some(modelId))))
  {
    LayoutDirectionSpec(modelId, modelName);
    FindTokenNone(DIRECTION_STORED, Directions.BRAKE.id);
  }

  /**
   * There is no WORK_MODE and no FAN_SPEED spec: `set` refuses them before
   * the transport is touched, and `setWorkMode` and `setFanSpeed` throw from
   * `Object.entries(undefined)`.
   */
  lemma NoWorkModeOrFanSpeed(modelId: string, modelName: string, v: JsValue, m: ValueMapping)
    ensures var d := Details(modelId, modelName);
      ValidateSet(d, WorkMode, v) == Failure(PlainError("Robovac command " + CommandName(WorkMode) + " is not supported by model " + modelId)) &&
      ValidateSet(d, FanSpeed, v) == Failure(PlainError("Robovac command " + CommandName(FanSpeed) + " is not supported by model " + modelId)) &&
      SetterToken(d, WorkMode, m) == Failure(TypeError) &&
      SetterToken(d, FanSpeed, m) == Failure(TypeError)
  {
    DefaultsMissing(WorkMode);
    DefaultsMissing(FanSpeed);
    Misses(modelId, modelName, WorkMode);
    Misses(modelId, modelName, FanSpeed);
    var d := Details(modelId, modelName);
    SetterTokenNoTable(d, WorkMode, m);
    SetterTokenNoTable(d, FanSpeed, m);
  }
}
