/**
 * `T2277RobovacModelDetails` (src/api/model_details/t2277.ts): WORK_MODE at
 * 152, WORK_STATUS at 153 with plain strings, FAN_SPEED at 158, a BOOLEAN
 * FIND_ROBOT at 160, and an ERROR spec without a table.
 */
module T2277Model {
  import opened Wrappers
  import opened JsText
  import opened JsEntries
  import opened RobovacCommand
  import opened RobovacModelDetails
  import opened StatusCodec
  import DefaultModel
  import WorkModes
  import FanSpeeds

  /** The WORK_MODE table (lines 15-21). */
  const WORK_MODE_VALUES: StringTable := [
    ("AA==", Some(Mapped(WorkModes.STANDBY))),
    ("AggN", Some(Mapped(WorkModes.PAUSE))),
    ("AggG", Some(Mapped(WorkModes.RETURN_HOME))),
    ("BBoCCAE=", Some(Mapped(WorkModes.AUTO))),
    ("AggO", Some(Mapped(WorkModes.NO_SWEEP)))
  ]

  /** The stored copy of the table: the same entries under lower-case keys. */
  const WORK_MODE_STORED: StringTable := [
    ("aa==", Some(Mapped(WorkModes.STANDBY))),
    ("aggn", Some(Mapped(WorkModes.PAUSE))),
    ("aggg", Some(Mapped(WorkModes.RETURN_HOME))),
    ("bboccae=", Some(Mapped(WorkModes.AUTO))),
    ("aggo", Some(Mapped(WorkModes.NO_SWEEP)))
  ]

  lemma LowerWorkModeKeys0()
    ensures Lower("AA==") == "aa=="
      && Lower("AggN") == "aggn"
      && Lower("AggG") == "aggg"
      && Lower("BBoCCAE=") == "bboccae="
      && Lower("AggO") == "aggo"
  {
  }

  /** Lower-casing the keys of the table merges no two of them. */
  lemma StoredWorkMode()
    ensures NormalizeTable(WORK_MODE_VALUES) == WORK_MODE_STORED && DistinctKeys(WORK_MODE_STORED)
  {
    LowerWorkModeKeys0();
    assert LowerKeys(WORK_MODE_VALUES) == WORK_MODE_STORED;
    assert KeysOf(WORK_MODE_STORED) == ["aa==", "aggn", "aggg", "bboccae=", "aggo"];
    NormalizeTableOfDistinct(WORK_MODE_VALUES);
  }

  /** The WORK_STATUS table (lines 27-46): plain strings. */
  const WORK_STATUS_VALUES: StringTable := [
    ("BgoAEAUyAA===", Some(Plain("auto"))),
    ("BgoAEAUyAA==", Some(Plain("auto"))),
    ("BgoAEAVSAA===", Some(Plain("positioning"))),
    ("BgoAEAVSAA==", Some(Plain("positioning"))),
    ("CAoAEAUyAggB", Some(Plain("Paused"))),
    ("AggB", Some(Plain("Paused"))),
    ("CAoCCAEQBTIA", Some(Plain("room"))),
    ("CAoCCAEQBVIA", Some(Plain("room_positioning"))),
    ("CgoCCAEQBTICCAE=", Some(Plain("room_pause"))),
    ("CAoCCAIQBTIA", Some(Plain("spot"))),
    ("CAoCCAIQBVIA", Some(Plain("spot_positioning"))),
    ("CgoCCAIQBTICCAE=", Some(Plain("spot_pause"))),
    ("BAoAEAY=", Some(Plain("start_manual"))),
    ("BBAHQgA=", Some(Plain("going_to_charge"))),
    ("BBADGgA=", Some(Plain("Charging"))),
    ("BhADGgIIAQ==", Some(Plain("completed"))),
    ("AA==", Some(Plain("Standby"))),
    ("AhAB", Some(Plain("Sleeping")))
  ]

  /** The stored copy of the table: the same entries under lower-case keys. */
  const WORK_STATUS_STORED: StringTable := [
    ("bgoaeauyaa===", Some(Plain("auto"))),
    ("bgoaeauyaa==", Some(Plain("auto"))),
    ("bgoaeavsaa===", Some(Plain("positioning"))),
    ("bgoaeavsaa==", Some(Plain("positioning"))),
    ("caoaeauyaggb", Some(Plain("Paused"))),
    ("aggb", Some(Plain("Paused"))),
    ("caoccaeqbtia", Some(Plain("room"))),
    ("caoccaeqbvia", Some(Plain("room_positioning"))),
    ("cgoccaeqbticcae=", Some(Plain("room_pause"))),
    ("caoccaiqbtia", Some(Plain("spot"))),
    ("caoccaiqbvia", Some(Plain("spot_positioning"))),
    ("cgoccaiqbticcae=", Some(Plain("spot_pause"))),
    ("baoaeay=", Some(Plain("start_manual"))),
    ("bbahqga=", Some(Plain("going_to_charge"))),
    ("bbadgga=", Some(Plain("Charging"))),
    ("bhadggiiaq==", Some(Plain("completed"))),
    ("aa==", Some(Plain("Standby"))),
    ("ahab", Some(Plain("Sleeping")))
  ]

  lemma LowerWorkStatusKeys0()
    ensures Lower("BgoAEAUyAA===") == "bgoaeauyaa==="
      && Lower("BgoAEAUyAA==") == "bgoaeauyaa=="
  {
  }

  lemma LowerWorkStatusKeys1()
    ensures Lower("BgoAEAVSAA===") == "bgoaeavsaa==="
      && Lower("BgoAEAVSAA==") == "bgoaeavsaa=="
  {
  }

  lemma LowerWorkStatusKeys2()
    ensures Lower("CAoAEAUyAggB") == "caoaeauyaggb"
      && Lower("AggB") == "aggb"
      && Lower("CAoCCAEQBTIA") == "caoccaeqbtia"
  {
  }

  lemma LowerWorkStatusKeys3()
    ensures Lower("CAoCCAEQBVIA") == "caoccaeqbvia"
      && Lower("CgoCCAEQBTICCAE=") == "cgoccaeqbticcae="
  {
  }

  lemma LowerWorkStatusKeys4()
    ensures Lower("CAoCCAIQBTIA") == "caoccaiqbtia"
      && Lower("CAoCCAIQBVIA") == "caoccaiqbvia"
  {
  }

  lemma LowerWorkStatusKeys5()
    ensures Lower("CgoCCAIQBTICCAE=") == "cgoccaiqbticcae="
      && Lower("BAoAEAY=") == "baoaeay="
      && Lower("BBAHQgA=") == "bbahqga="
  {
  }

  lemma LowerWorkStatusKeys6()
    ensures Lower("BBADGgA=") == "bbadgga="
      && Lower("BhADGgIIAQ==") == "bhadggiiaq=="
      && Lower("AA==") == "aa=="
      && Lower("AhAB") == "ahab"
  {
  }

  lemma LowerWorkStatusTable()
    ensures LowerKeys(WORK_STATUS_VALUES) == WORK_STATUS_STORED
  {
    LowerWorkStatusKeys0();
    LowerWorkStatusKeys1();
    LowerWorkStatusKeys2();
    LowerWorkStatusKeys3();
    LowerWorkStatusKeys4();
    LowerWorkStatusKeys5();
    LowerWorkStatusKeys6();
  }

  /** The keys of the stored table. */
  const WORK_STATUS_KEYS: seq<string> := ["bgoaeauyaa===", "bgoaeauyaa==", "bgoaeavsaa===", "bgoaeavsaa==", "caoaeauyaggb", "aggb", "caoccaeqbtia", "caoccaeqbvia", "cgoccaeqbticcae=", "caoccaiqbtia", "caoccaiqbvia", "cgoccaiqbticcae=", "baoaeay=", "bbahqga=", "bbadgga=", "bhadggiiaq==", "aa==", "ahab"]

  lemma DistinctWorkStatusRows0()
    ensures forall i, j :: 0 <= i < 5 && i < j < |WORK_STATUS_KEYS| ==> WORK_STATUS_KEYS[i] != WORK_STATUS_KEYS[j]
  {
  }

  lemma DistinctWorkStatusRows1()
    ensures forall i, j :: 5 <= i < 18 && i < j < |WORK_STATUS_KEYS| ==> WORK_STATUS_KEYS[i] != WORK_STATUS_KEYS[j]
  {
  }

  lemma DistinctWorkStatusKeys()
    ensures DistinctKeys(WORK_STATUS_STORED)
  {
    DistinctWorkStatusRows0();
    DistinctWorkStatusRows1();
    assert KeysOf(WORK_STATUS_STORED) == WORK_STATUS_KEYS;
    forall i, j | 0 <= i < j < |WORK_STATUS_STORED| ensures WORK_STATUS_STORED[i].0 != WORK_STATUS_STORED[j].0 {
      assert WORK_STATUS_STORED[i].0 == WORK_STATUS_KEYS[i] && WORK_STATUS_STORED[j].0 == WORK_STATUS_KEYS[j];
    }
  }

  /** Lower-casing the keys of the table merges no two of them. */
  lemma StoredWorkStatus()
    ensures NormalizeTable(WORK_STATUS_VALUES) == WORK_STATUS_STORED && DistinctKeys(WORK_STATUS_STORED)
  {
    LowerWorkStatusTable();
    DistinctWorkStatusKeys();
    NormalizeTableOfDistinct(WORK_STATUS_VALUES);
  }

  /** The FAN_SPEED table (lines 52-57). */
  const FAN_SPEED_VALUES: StringTable := [
    ("quiet", Some(Mapped(FanSpeeds.QUIET))),
    ("standard", Some(Mapped(FanSpeeds.STANDARD))),
    ("turbo", Some(Mapped(FanSpeeds.TURBO))),
    ("max", Some(Mapped(FanSpeeds.MAX)))
  ]

  /** The stored copy of the table: the same entries under lower-case keys. */
  const FAN_SPEED_STORED: StringTable := [
    ("quiet", Some(Mapped(FanSpeeds.QUIET))),
    ("standard", Some(Mapped(FanSpeeds.STANDARD))),
    ("turbo", Some(Mapped(FanSpeeds.TURBO))),
    ("max", Some(Mapped(FanSpeeds.MAX)))
  ]

  lemma LowerFanSpeedKeys0()
    ensures Lower("quiet") == "quiet"
      && Lower("standard") == "standard"
      && Lower("turbo") == "turbo"
      && Lower("max") == "max"
  {
  }

  /** Lower-casing the keys of the table merges no two of them. */
  lemma StoredFanSpeed()
    ensures NormalizeTable(FAN_SPEED_VALUES) == FAN_SPEED_STORED && DistinctKeys(FAN_SPEED_STORED)
  {
    LowerFanSpeedKeys0();
    assert LowerKeys(FAN_SPEED_VALUES) == FAN_SPEED_STORED;
    assert KeysOf(FAN_SPEED_STORED) == ["quiet", "standard", "turbo", "max"];
    NormalizeTableOfDistinct(FAN_SPEED_VALUES);
  }

  const WORK_MODE_SPEC := CommandSpec(WorkMode, 152, String, Some(WORK_MODE_VALUES))
  const WORK_STATUS_SPEC := CommandSpec(WorkStatus, 153, String, Some(WORK_STATUS_VALUES))
  const FAN_SPEED_SPEC := CommandSpec(FanSpeed, 158, String, Some(FAN_SPEED_VALUES))
  const FIND_ROBOT_SPEC := CommandSpec(FindRobot, 160, Boolean, None)
  const BATTERY_LEVEL_SPEC := CommandSpec(BatteryLevel, 163, Number, None)
  const ERROR_SPEC := CommandSpec(Error, 177, String, None)

  /** The spec list passed to the constructor; the `DefaultModel` ones are `ROBOVAC_COMMAND_DEFAULTS[...]`. */
  const Specs: seq<CommandSpec> := [DefaultModel.DEFAULT_SPEC, WORK_MODE_SPEC, WORK_STATUS_SPEC, FAN_SPEED_SPEC, FIND_ROBOT_SPEC, BATTERY_LEVEL_SPEC, ERROR_SPEC]

  /** Each reused spec, at the head of the list, is what `ROBOVAC_COMMAND_DEFAULTS` holds for its command. */
  lemma ReusesDefaults()
    ensures forall i :: 0 <= i < 1 ==> DefaultModel.CommandDefault(Specs[i].command) == Some(Specs[i])
  {
    forall i | 0 <= i < 1 ensures DefaultModel.CommandDefault(Specs[i].command) == Some(Specs[i]) {
      var j := 0;
      assert Specs[i] == DefaultModel.DefaultsArray[j];
      DefaultModel.DefaultFor(j);
    }
  }

  lemma SpecColumns()
    ensures Commands(Specs) == [Default, WorkMode, WorkStatus, FanSpeed, FindRobot, BatteryLevel, Error]
    ensures Codes(Specs) == [1, 152, 153, 158, 160, 163, 177]
  {
  }

  /** The commands are pairwise distinct and so are the codes 1, 152, 153, 158, 160, 163 and 177, so the constructor does not throw. */
  lemma Constructs(modelId: string, modelName: string)
    ensures BuildIndices(Specs).Success? && Construct(modelId, modelName, Specs).Success?
  {
    BuildSucceeds(Specs);
  }

  /** `new T2277RobovacModelDetails(modelId, modelName)`. */
  function Details(modelId: string, modelName: string): (d: ModelDetails)
    ensures Construct(modelId, modelName, Specs) == Success(d) && WellFormed(d)
  {
    Constructs(modelId, modelName);
    ConstructWellFormed(modelId, modelName, Specs);
    Construct(modelId, modelName, Specs).value
  }

  /** The registry knows exactly the commands and the codes of the spec list. */
  lemma LayoutKeys(modelId: string, modelName: string)
    ensures var d := Details(modelId, modelName);
      d.modelId == modelId && d.modelName == modelName &&
      (forall c :: c in d.byCommand <==> c in [Default, WorkMode, WorkStatus, FanSpeed, FindRobot, BatteryLevel, Error]) &&
      (forall k :: k in d.byCode <==> k in [1, 152, 153, 158, 160, 163, 177])
  {
    Constructs(modelId, modelName);
    BuildColumns(Specs);
    SpecColumns();
  }

  /** The commands of the enum that the spec list leaves out. */
  lemma AbsentCommands()
    ensures Running !in Commands(Specs) && Direction !in Commands(Specs) && ReturnHome !in Commands(Specs) && SpecialCommand !in Commands(Specs)
  {
    SpecColumns();
  }

  /** A command that the spec list leaves out has no entry in the registry. */
  lemma Misses(modelId: string, modelName: string, c: Command)
    requires c !in Commands(Specs)
    ensures c !in Details(modelId, modelName).byCommand
  {
    Constructs(modelId, modelName);
    BuildColumns(Specs);
  }

  /** Specs without a table are stored as they are. */
  lemma LayoutPlainSpecs0(modelId: string, modelName: string)
    ensures var d := Details(modelId, modelName);
      Default in d.byCommand && d.byCommand[Default] == DefaultModel.DEFAULT_SPEC && 1 in d.byCode && d.byCode[1] == DefaultModel.DEFAULT_SPEC &&
      FindRobot in d.byCommand && d.byCommand[FindRobot] == FIND_ROBOT_SPEC && 160 in d.byCode && d.byCode[160] == FIND_ROBOT_SPEC
  {
    Constructs(modelId, modelName);
    BuildPlainAt(Specs, 0);
    BuildPlainAt(Specs, 4);
  }

  /** Specs without a table are stored as they are. */
  lemma LayoutPlainSpecs1(modelId: string, modelName: string)
    ensures var d := Details(modelId, modelName);
      BatteryLevel in d.byCommand && d.byCommand[BatteryLevel] == BATTERY_LEVEL_SPEC && 163 in d.byCode && d.byCode[163] == BATTERY_LEVEL_SPEC &&
      Error in d.byCommand && d.byCommand[Error] == ERROR_SPEC && 177 in d.byCode && d.byCode[177] == ERROR_SPEC
  {
    Constructs(modelId, modelName);
    BuildPlainAt(Specs, 5);
    BuildPlainAt(Specs, 6);
  }

  /** The WORK_MODE spec is stored with its table under lower-case keys. */
  lemma LayoutWorkModeSpec(modelId: string, modelName: string)
    ensures var d := Details(modelId, modelName);
      WorkMode in d.byCommand && d.byCommand[WorkMode] == CommandSpec(WorkMode, 152, String, Some(WORK_MODE_STORED)) &&
      152 in d.byCode && d.byCode[152] == d.byCommand[WorkMode]
  {
    Constructs(modelId, modelName);
    StoredWorkMode();
    BuildTableAt(Specs, 1, WORK_MODE_STORED);
  }

  /** The WORK_STATUS spec is stored with its table under lower-case keys. */
  lemma LayoutWorkStatusSpec(modelId: string, modelName: string)
    ensures var d := Details(modelId, modelName);
      WorkStatus in d.byCommand && d.byCommand[WorkStatus] == CommandSpec(WorkStatus, 153, String, Some(WORK_STATUS_STORED)) &&
      153 in d.byCode && d.byCode[153] == d.byCommand[WorkStatus]
  {
    Constructs(modelId, modelName);
    StoredWorkStatus();
    BuildTableAt(Specs, 2, WORK_STATUS_STORED);
  }

  /** The FAN_SPEED spec is stored with its table under lower-case keys. */
  lemma LayoutFanSpeedSpec(modelId: string, modelName: string)
    ensures var d := Details(modelId, modelName);
      FanSpeed in d.byCommand && d.byCommand[FanSpeed] == CommandSpec(FanSpeed, 158, String, Some(FAN_SPEED_STORED)) &&
      158 in d.byCode && d.byCode[158] == d.byCommand[FanSpeed]
  {
    Constructs(modelId, modelName);
    StoredFanSpeed();
    BuildTableAt(Specs, 3, FAN_SPEED_STORED);
  }

  // ---------------------------------------------------------------------------
  // What a T2277 decodes and sends
  // ---------------------------------------------------------------------------

  /** The ERROR spec at code 177 has no table: every value is stored as it came. */
  lemma ErrorRaw(modelId: string, modelName: string, raw: JsValue)
    ensures 177 in Details(modelId, modelName).byCode
    ensures var spec := Details(modelId, modelName).byCode[177];
      Decodable(spec, raw) && Decode(spec, raw) == raw
  {
    LayoutPlainSpecs1(modelId, modelName);
    DecodeVerbatim(Details(modelId, modelName).byCode[177], raw);
  }

  /** "BgoAEAUyAA===" and "BgoAEAUyAA==" both decode to the plain string "auto". */
  lemma AutoAliases(modelId: string, modelName: string)
    ensures 153 in Details(modelId, modelName).byCode
    ensures var spec := Details(modelId, modelName).byCode[153];
      Decodable(spec, JsString("BgoAEAUyAA===")) && Decode(spec, JsString("BgoAEAUyAA===")) == JsString("auto") &&
      Decodable(spec, JsString("BgoAEAUyAA==")) && Decode(spec, JsString("BgoAEAUyAA==")) == JsString("auto")
  {
    LayoutWorkStatusSpec(modelId, modelName);
    DistinctWorkStatusKeys();
    LowerWorkStatusKeys0();
    LowerWorkStatusKeys0();
    var spec := Details(modelId, modelName).byCode[153];
    DecodeAt(spec, 0, "BgoAEAUyAA===");
    DecodeAt(spec, 1, "BgoAEAUyAA==");
  }

  /** "BBADGgA=" decodes to the plain string "Charging". */
  lemma ChargingPlain(modelId: string, modelName: string)
    ensures 153 in Details(modelId, modelName).byCode
    ensures var spec := Details(modelId, modelName).byCode[153];
      Decodable(spec, JsString("BBADGgA=")) && Decode(spec, JsString("BBADGgA=")) == JsString("Charging")
  {
    LayoutWorkStatusSpec(modelId, modelName);
    DistinctWorkStatusKeys();
    LowerWorkStatusKeys6();
    DecodeAt(Details(modelId, modelName).byCode[153], 14, "BBADGgA=");
  }

  /** "AA==" at code 152 is `WorkMode.STANDBY`, and `setWorkMode(WorkMode.STANDBY)` sends "aa==" there. */
  lemma StandbyToken(modelId: string, modelName: string)
    ensures 152 in Details(modelId, modelName).byCode
    ensures var d := Details(modelId, modelName);
      Decodable(d.byCode[152], JsString("AA==")) && Decode(d.byCode[152], JsString("AA==")) == JsMapping(WorkModes.STANDBY) &&
      SetterToken(d, WorkMode, WorkModes.STANDBY) == Success("aa==") &&
      ValidateSet(d, WorkMode, JsString("aa==")).Success? && ValidateSet(d, WorkMode, JsString("aa==")).value.code == 152
  {
    LayoutWorkModeSpec(modelId, modelName);
    StoredWorkMode();
    LowerWorkModeKeys0();
    DecodeAt(Details(modelId, modelName).byCode[152], 0, "AA==");
    FindTokenFound(WORK_MODE_STORED, WorkModes.STANDBY.id, 0);
  }

  /** Without RUNNING and RETURN_HOME specs, `setPlayPause` and `setGoHome` are refused before any transport call. */
  lemma NoPlayPauseOrGoHome(modelId: string, modelName: string, v: JsValue)
    ensures var d := Details(modelId, modelName);
      ValidateSet(d, Running, v) == Failure(PlainError("Robovac command " + CommandName(Running) + " is not supported by model " + modelId)) &&
      ValidateSet(d, ReturnHome, v) == Failure(PlainError("Robovac command " + CommandName(ReturnHome) + " is not supported by model " + modelId))
  {
    AbsentCommands();
    Misses(modelId, modelName, Running);
    Misses(modelId, modelName, ReturnHome);
  }

  /** `setFindRobot(b)` is accepted for FIND_ROBOT, a BOOLEAN spec at code 160. */
  lemma FindRobotCode(modelId: string, modelName: string, b: bool)
    ensures var d := Details(modelId, modelName);
      ValidateSet(d, FindRobot, JsBoolean(b)).Success? && ValidateSet(d, FindRobot, JsBoolean(b)).value.code == 160
  {
    LayoutPlainSpecs0(modelId, modelName);
  }

}
