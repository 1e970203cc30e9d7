/**
 * `T2275RobovacModelDetails` (src/api/model_details/t2275.ts): WORK_MODE at
 * 152, WORK_STATUS at 173 with mappings, SPECIAL_COMMAND at 153, and no
 * RUNNING, RETURN_HOME or FIND_ROBOT spec.
 */
module T2275Model {
  import opened Wrappers
  import opened JsText
  import opened JsEntries
  import opened RobovacCommand
  import opened RobovacModelDetails
  import opened StatusCodec
  import DefaultModel
  import WorkModes
  import WorkStatuses
  import SpecialCommands
  import DeviceErrors

  /** The WORK_MODE table (lines 17-23). */
  const WORK_MODE_VALUES: StringTable := [
    ("AA==", Some(Mapped(WorkModes.SMALL_ROOM))),
    ("AggN", Some(Mapped(WorkModes.PAUSE))),
    ("AggG", Some(Mapped(WorkModes.EDGE))),
    ("BBoCCAE=", Some(Mapped(WorkModes.AUTO))),
    ("AggO", Some(Mapped(WorkModes.NO_SWEEP)))
  ]

  /** The stored copy of the table: the same entries under lower-case keys. */
  const WORK_MODE_STORED: StringTable := [
    ("aa==", Some(Mapped(WorkModes.SMALL_ROOM))),
    ("aggn", Some(Mapped(WorkModes.PAUSE))),
    ("aggg", Some(Mapped(WorkModes.EDGE))),
    ("bboccae=", Some(Mapped(WorkModes.AUTO))),
    ("aggo", Some(Mapped(WorkModes.NO_SWEEP)))
  ]

  lemma LowerWorkModeKeys0()
    ensures Lower("AA==") == "aa=="
      && Lower("AggN") == "aggn"
      && Lower("AggG") == "aggg"
      && Lower("BBoCCAE=") == "bboccae="
      && Lower("AggO") == "aggo"
  {
  }

  /** Lower-casing the keys of the table merges no two of them. */
  lemma StoredWorkMode()
    ensures NormalizeTable(WORK_MODE_VALUES) == WORK_MODE_STORED && DistinctKeys(WORK_MODE_STORED)
  {
    LowerWorkModeKeys0();
    assert LowerKeys(WORK_MODE_VALUES) == WORK_MODE_STORED;
    assert KeysOf(WORK_MODE_STORED) == ["aa==", "aggn", "aggg", "bboccae=", "aggo"];
    NormalizeTableOfDistinct(WORK_MODE_VALUES);
  }

  /** The WORK_STATUS table (lines 29-37), with `WorkStatus` mappings. */
  const WORK_STATUS_VALUES: StringTable := [
    ("running", Some(Mapped(WorkStatuses.RUNNING))),
    ("paused", Some(Mapped(WorkStatuses.PAUSED))),
    ("standby", Some(Mapped(WorkStatuses.STANDBY))),
    ("sleeping", Some(Mapped(WorkStatuses.SLEEPING))),
    ("charging", Some(Mapped(WorkStatuses.CHARGING))),
    ("completed", Some(Mapped(WorkStatuses.CHARGING_COMPLETED))),
    ("recharge", Some(Mapped(WorkStatuses.RECHARGE_NEEDED)))
  ]

  /** The stored copy of the table: the same entries under lower-case keys. */
  const WORK_STATUS_STORED: StringTable := [
    ("running", Some(Mapped(WorkStatuses.RUNNING))),
    ("paused", Some(Mapped(WorkStatuses.PAUSED))),
    ("standby", Some(Mapped(WorkStatuses.STANDBY))),
    ("sleeping", Some(Mapped(WorkStatuses.SLEEPING))),
    ("charging", Some(Mapped(WorkStatuses.CHARGING))),
    ("completed", Some(Mapped(WorkStatuses.CHARGING_COMPLETED))),
    ("recharge", Some(Mapped(WorkStatuses.RECHARGE_NEEDED)))
  ]

  lemma LowerWorkStatusKeys0()
    ensures Lower("running") == "running"
      && Lower("paused") == "paused"
      && Lower("standby") == "standby"
      && Lower("sleeping") == "sleeping"
      && Lower("charging") == "charging"
  {
  }

  lemma LowerWorkStatusKeys1()
    ensures Lower("completed") == "completed"
      && Lower("recharge") == "recharge"
  {
  }

  /** Lower-casing the keys of the table merges no two of them. */
  lemma StoredWorkStatus()
    ensures NormalizeTable(WORK_STATUS_VALUES) == WORK_STATUS_STORED && DistinctKeys(WORK_STATUS_STORED)
  {
    LowerWorkStatusKeys0();
    LowerWorkStatusKeys1();
    assert LowerKeys(WORK_STATUS_VALUES) == WORK_STATUS_STORED;
    assert KeysOf(WORK_STATUS_STORED) == ["running", "paused", "standby", "sleeping", "charging", "completed", "recharge"];
    NormalizeTableOfDistinct(WORK_STATUS_VALUES);
  }

  /** The SPECIAL_COMMAND table (lines 43-46). */
  const SPECIAL_COMMAND_VALUES: StringTable := [
    ("AggB", Some(Mapped(SpecialCommands.RETURN_HOME))),
    ("AggC", Some(Mapped(SpecialCommands.FIND_ROBOT)))
  ]

  /** The stored copy of the table: the same entries under lower-case keys. */
  const SPECIAL_COMMAND_STORED: StringTable := [
    ("aggb", Some(Mapped(SpecialCommands.RETURN_HOME))),
    ("aggc", Some(Mapped(SpecialCommands.FIND_ROBOT)))
  ]

  lemma LowerSpecialCommandKeys0()
    ensures Lower("AggB") == "aggb"
      && Lower("AggC") == "aggc"
  {
  }

  /** Lower-casing the keys of the table merges no two of them. */
  lemma StoredSpecialCommand()
    ensures NormalizeTable(SPECIAL_COMMAND_VALUES) == SPECIAL_COMMAND_STORED && DistinctKeys(SPECIAL_COMMAND_STORED)
  {
    LowerSpecialCommandKeys0();
    assert LowerKeys(SPECIAL_COMMAND_VALUES) == SPECIAL_COMMAND_STORED;
    assert KeysOf(SPECIAL_COMMAND_STORED) == ["aggb", "aggc"];
    NormalizeTableOfDistinct(SPECIAL_COMMAND_VALUES);
  }

  /** The ERROR table (lines 57-67), the same as the default one. */
  const ERROR_VALUES: StringTable := [
    ("no_error", Some(Mapped(DeviceErrors.NO_ERROR))),
    ("Stuck_5_min", Some(Mapped(DeviceErrors.STUCK_5_MIN))),
    ("Crash_bar_stuck", Some(Mapped(DeviceErrors.CRASH_BAR_STUCK))),
    ("sensor_dirty", Some(Mapped(DeviceErrors.SENSOR_DIRTY))),
    ("N_enough_pow", Some(Mapped(DeviceErrors.NOT_ENOUGH_POWER))),
    ("Wheel_stuck", Some(Mapped(DeviceErrors.WHEEL_STUCK))),
    ("S_brush_stuck", Defined(DeviceErrors.Field("SIDE_BRUSH_STUCK"))),
    ("Fan_stuck", Some(Mapped(DeviceErrors.FAN_STUCK))),
    ("R_brush_stuck", Defined(DeviceErrors.Field("ROLLER_BRUSH_STUCK")))
  ]

  /** The stored copy of the table: the same entries under lower-case keys. */
  const ERROR_STORED: StringTable := [
    ("no_error", Some(Mapped(DeviceErrors.NO_ERROR))),
    ("stuck_5_min", Some(Mapped(DeviceErrors.STUCK_5_MIN))),
    ("crash_bar_stuck", Some(Mapped(DeviceErrors.CRASH_BAR_STUCK))),
    ("sensor_dirty", Some(Mapped(DeviceErrors.SENSOR_DIRTY))),
    ("n_enough_pow", Some(Mapped(DeviceErrors.NOT_ENOUGH_POWER))),
    ("wheel_stuck", Some(Mapped(DeviceErrors.WHEEL_STUCK))),
    ("s_brush_stuck", None),
    ("fan_stuck", Some(Mapped(DeviceErrors.FAN_STUCK))),
    ("r_brush_stuck", None)
  ]

  lemma LowerErrorKeys0()
    ensures Lower("no_error") == "no_error"
      && Lower("Stuck_5_min") == "stuck_5_min"
      && Lower("Crash_bar_stuck") == "crash_bar_stuck"
  {
  }

  lemma LowerErrorKeys1()
    ensures Lower("sensor_dirty") == "sensor_dirty"
      && Lower("N_enough_pow") == "n_enough_pow"
      && Lower("Wheel_stuck") == "wheel_stuck"
  {
  }

  lemma LowerErrorKeys2()
    ensures Lower("S_brush_stuck") == "s_brush_stuck"
      && Lower("Fan_stuck") == "fan_stuck"
      && Lower("R_brush_stuck") == "r_brush_stuck"
  {
  }

  lemma LowerErrorTable()
    ensures LowerKeys(ERROR_VALUES) == ERROR_STORED
  {
    LowerErrorKeys0();
    LowerErrorKeys1();
    LowerErrorKeys2();
    DeviceErrors.MissingBrushKeys();
  }

  /** The keys of the stored table. */
  const ERROR_KEYS: seq<string> := ["no_error", "stuck_5_min", "crash_bar_stuck", "sensor_dirty", "n_enough_pow", "wheel_stuck", "s_brush_stuck", "fan_stuck", "r_brush_stuck"]

  lemma DistinctErrorRows0()
    ensures forall i, j :: 0 <= i < 9 && i < j < |ERROR_KEYS| ==> ERROR_KEYS[i] != ERROR_KEYS[j]
  {
  }

  lemma DistinctErrorKeys()
    ensures DistinctKeys(ERROR_STORED)
  {
    DistinctErrorRows0();
    assert KeysOf(ERROR_STORED) == ERROR_KEYS;
    forall i, j | 0 <= i < j < |ERROR_STORED| ensures ERROR_STORED[i].0 != ERROR_STORED[j].0 {
      assert ERROR_STORED[i].0 == ERROR_KEYS[i] && ERROR_STORED[j].0 == ERROR_KEYS[j];
    }
  }

  /** Lower-casing the keys of the table merges no two of them. */
  lemma StoredError()
    ensures NormalizeTable(ERROR_VALUES) == ERROR_STORED && DistinctKeys(ERROR_STORED)
  {
    LowerErrorTable();
    DistinctErrorKeys();
    NormalizeTableOfDistinct(ERROR_VALUES);
  }

  const WORK_MODE_SPEC := CommandSpec(WorkMode, 152, String, Some(WORK_MODE_VALUES))
  const WORK_STATUS_SPEC := CommandSpec(WorkStatus, 173, String, Some(WORK_STATUS_VALUES))
  const SPECIAL_COMMAND_SPEC := CommandSpec(SpecialCommand, 153, String, Some(SPECIAL_COMMAND_VALUES))
  const BATTERY_LEVEL_SPEC := CommandSpec(BatteryLevel, 172, Number, None)
  const ERROR_SPEC := CommandSpec(Error, 169, String, Some(ERROR_VALUES))

  /** The spec list passed to the constructor; the `DefaultModel` ones are `ROBOVAC_COMMAND_DEFAULTS[...]`. */
  const Specs: seq<CommandSpec> := [DefaultModel.DEFAULT_SPEC, WORK_MODE_SPEC, WORK_STATUS_SPEC, SPECIAL_COMMAND_SPEC, BATTERY_LEVEL_SPEC, ERROR_SPEC]

  /** Each reused spec, at the head of the list, is what `ROBOVAC_COMMAND_DEFAULTS` holds for its command. */
  lemma ReusesDefaults()
    ensures forall i :: 0 <= i < 1 ==> DefaultModel.CommandDefault(Specs[i].command) == Some(Specs[i])
  {
    forall i | 0 <= i < 1 ensures DefaultModel.CommandDefault(Specs[i].command) == Some(Specs[i]) {
      var j := 0;
      assert Specs[i] == DefaultModel.DefaultsArray[j];
      DefaultModel.DefaultFor(j);
    }
  }

  lemma SpecColumns()
    ensures Commands(Specs) == [Default, WorkMode, WorkStatus, SpecialCommand, BatteryLevel, Error]
    ensures Codes(Specs) == [1, 152, 173, 153, 172, 169]
  {
  }

  /** The commands are pairwise distinct and so are the codes 1, 152, 173, 153, 172 and 169, so the constructor does not throw. */
  lemma Constructs(modelId: string, modelName: string)
    ensures BuildIndices(Specs).Success? && Construct(modelId, modelName, Specs).Success?
  {
    BuildSucceeds(Specs);
  }

  /** `new T2275RobovacModelDetails(modelId, modelName)`. */
  function Details(modelId: string, modelName: string): (d: ModelDetails)
    ensures Construct(modelId, modelName, Specs) == Success(d) && WellFormed(d)
  {
    Constructs(modelId, modelName);
    ConstructWellFormed(modelId, modelName, Specs);
    Construct(modelId, modelName, Specs).value
  }

  /** The registry knows exactly the commands and the codes of the spec list. */
  lemma LayoutKeys(modelId: string, modelName: string)
    ensures var d := Details(modelId, modelName);
      d.modelId == modelId && d.modelName == modelName &&
      (forall c :: c in d.byCommand <==> c in [Default, WorkMode, WorkStatus, SpecialCommand, BatteryLevel, Error]) &&
      (forall k :: k in d.byCode <==> k in [1, 152, 173, 153, 172, 169])
  {
    Constructs(modelId, modelName);
    BuildColumns(Specs);
    SpecColumns();
  }

  /** The commands of the enum that the spec list leaves out. */
  lemma AbsentCommands()
    ensures Running !in Commands(Specs) && Direction !in Commands(Specs) && ReturnHome !in Commands(Specs) && FanSpeed !in Commands(Specs) && FindRobot !in Commands(Specs)
  {
    SpecColumns();
  }

  /** A command that the spec list leaves out has no entry in the registry. */
  lemma Misses(modelId: string, modelName: string, c: Command)
    requires c !in Commands(Specs)
    ensures c !in Details(modelId, modelName).byCommand
  {
    Constructs(modelId, modelName);
    BuildColumns(Specs);
  }

  /** Specs without a table are stored as they are. */
  lemma LayoutPlainSpecs(modelId: string, modelName: string)
    ensures var d := Details(modelId, modelName);
      Default in d.byCommand && d.byCommand[Default] == DefaultModel.DEFAULT_SPEC && 1 in d.byCode && d.byCode[1] == DefaultModel.DEFAULT_SPEC &&
      BatteryLevel in d.byCommand && d.byCommand[BatteryLevel] == BATTERY_LEVEL_SPEC && 172 in d.byCode && d.byCode[172] == BATTERY_LEVEL_SPEC
  {
    Constructs(modelId, modelName);
    BuildPlainAt(Specs, 0);
    BuildPlainAt(Specs, 4);
  }

  /** The WORK_MODE spec is stored with its table under lower-case keys. */
  lemma LayoutWorkModeSpec(modelId: string, modelName: string)
    ensures var d := Details(modelId, modelName);
      WorkMode in d.byCommand && d.byCommand[WorkMode] == CommandSpec(WorkMode, 152, String, Some(WORK_MODE_STORED)) &&
      152 in d.byCode && d.byCode[152] == d.byCommand[WorkMode]
  {
    Constructs(modelId, modelName);
    StoredWorkMode();
    BuildTableAt(Specs, 1, WORK_MODE_STORED);
  }

  /** The WORK_STATUS spec is stored with its table under lower-case keys. */
  lemma LayoutWorkStatusSpec(modelId: string, modelName: string)
    ensures var d := Details(modelId, modelName);
      WorkStatus in d.byCommand && d.byCommand[WorkStatus] == CommandSpec(WorkStatus, 173, String, Some(WORK_STATUS_STORED)) &&
      173 in d.byCode && d.byCode[173] == d.byCommand[WorkStatus]
  {
    Constructs(modelId, modelName);
    StoredWorkStatus();
    BuildTableAt(Specs, 2, WORK_STATUS_STORED);
  }

  /** The SPECIAL_COMMAND spec is stored with its table under lower-case keys. */
  lemma LayoutSpecialCommandSpec(modelId: string, modelName: string)
    ensures var d := Details(modelId, modelName);
      SpecialCommand in d.byCommand && d.byCommand[SpecialCommand] == CommandSpec(SpecialCommand, 153, String, Some(SPECIAL_COMMAND_STORED)) &&
      153 in d.byCode && d.byCode[153] == d.byCommand[SpecialCommand]
  {
    Constructs(modelId, modelName);
    StoredSpecialCommand();
    BuildTableAt(Specs, 3, SPECIAL_COMMAND_STORED);
  }

  /** The ERROR spec is stored with its table under lower-case keys. */
  lemma LayoutErrorSpec(modelId: string, modelName: string)
    ensures var d := Details(modelId, modelName);
      Error in d.byCommand && d.byCommand[Error] == CommandSpec(Error, 169, String, Some(ERROR_STORED)) &&
      169 in d.byCode && d.byCode[169] == d.byCommand[Error]
  {
    Constructs(modelId, modelName);
    StoredError();
    BuildTableAt(Specs, 5, ERROR_STORED);
  }

  // ---------------------------------------------------------------------------
  // What a T2275 table decodes and sends
  // ---------------------------------------------------------------------------

  /** "completed" in any case, at code 173, is `WorkStatus.CHARGING_COMPLETED`. */
  lemma DecodeCompleted(modelId: string, modelName: string, token: string)
    requires Lower(token) == "completed"
    ensures 173 in Details(modelId, modelName).byCode
    ensures var spec := Details(modelId, modelName).byCode[173];
      Decodable(spec, JsString(token)) && Decode(spec, JsString(token)) == JsMapping(WorkStatuses.CHARGING_COMPLETED)
  {
    LayoutWorkStatusSpec(modelId, modelName);
    StoredWorkStatus();
    DecodeAt(Details(modelId, modelName).byCode[173], 5, token);
  }

  /** "recharge" in any case, at code 173, is `WorkStatus.RECHARGE_NEEDED`. */
  lemma DecodeRecharge(modelId: string, modelName: string, token: string)
    requires Lower(token) == "recharge"
    ensures 173 in Details(modelId, modelName).byCode
    ensures var spec := Details(modelId, modelName).byCode[173];
      Decodable(spec, JsString(token)) && Decode(spec, JsString(token)) == JsMapping(WorkStatuses.RECHARGE_NEEDED)
  {
    LayoutWorkStatusSpec(modelId, modelName);
    StoredWorkStatus();
    DecodeAt(Details(modelId, modelName).byCode[173], 6, token);
  }

  /** At code 153, "AggB" is `SpecialCommand.RETURN_HOME` and "AggC" is `SpecialCommand.FIND_ROBOT`. */
  lemma DecodeSpecialCommands(modelId: string, modelName: string)
    ensures 153 in Details(modelId, modelName).byCode
    ensures var spec := Details(modelId, modelName).byCode[153];
      Decodable(spec, JsString("AggB")) && Decode(spec, JsString("AggB")) == JsMapping(SpecialCommands.RETURN_HOME) &&
      Decodable(spec, JsString("AggC")) && Decode(spec, JsString("AggC")) == JsMapping(SpecialCommands.FIND_ROBOT)
  {
    LayoutSpecialCommandSpec(modelId, modelName);
    StoredSpecialCommand();
    LowerSpecialCommandKeys0();
    var spec := Details(modelId, modelName).byCode[153];
    DecodeAt(spec, 0, "AggB");
    DecodeAt(spec, 1, "AggC");
  }

  /** "AA==" at code 152 is `WorkMode.SMALL_ROOM`. */
  lemma AaIsSmallRoom(modelId: string, modelName: string)
    ensures 152 in Details(modelId, modelName).byCode
    ensures var spec := Details(modelId, modelName).byCode[152];
      Decodable(spec, JsString("AA==")) && Decode(spec, JsString("AA==")) == JsMapping(WorkModes.SMALL_ROOM)
  {
    LayoutWorkModeSpec(modelId, modelName);
    StoredWorkMode();
    LowerWorkModeKeys0();
    DecodeAt(Details(modelId, modelName).byCode[152], 0, "AA==");
  }

  /** `setWorkMode(WorkMode.EDGE)` sends "aggg", which `set` accepts for code 152. */
  lemma EdgeToken(modelId: string, modelName: string)
    ensures var d := Details(modelId, modelName);
      SetterToken(d, WorkMode, WorkModes.EDGE) == Success("aggg") &&
      ValidateSet(d, WorkMode, JsString("aggg")).Success? && ValidateSet(d, WorkMode, JsString("aggg")).value.code == 152
  {
    LayoutWorkModeSpec(modelId, modelName);
    FindTokenFound(WORK_MODE_STORED, WorkModes.EDGE.id, 2);
  }

  /** Without a RUNNING spec, `setPlayPause` is refused before any transport call. */
  lemma NoPlayPause(modelId: string, modelName: string, v: JsValue)
    ensures ValidateSet(Details(modelId, modelName), Running, v) ==
      Failure(PlainError("Robovac command " + CommandName(Running) + " is not supported by model " + modelId))
  {
    AbsentCommands();
    Misses(modelId, modelName, Running);
  }

  /** Without RETURN_HOME and FIND_ROBOT specs, `setGoHome` and `setFindRobot` are refused before any transport call. */
  lemma NoGoHomeOrFindRobot(modelId: string, modelName: string, v: JsValue)
    ensures var d := Details(modelId, modelName);
      ValidateSet(d, ReturnHome, v) == Failure(PlainError("Robovac command " + CommandName(ReturnHome) + " is not supported by model " + modelId)) &&
      ValidateSet(d, FindRobot, v) == Failure(PlainError("Robovac command " + CommandName(FindRobot) + " is not supported by model " + modelId))
  {
    AbsentCommands();
    Misses(modelId, modelName, ReturnHome);
    Misses(modelId, modelName, FindRobot);
  }

}
