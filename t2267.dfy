/**
 * `T2267RobovacModelDetails` (src/api/model_details/t2267.ts), the table of
 * the T2267, T2268, T2270, T2272 and T2273: only DEFAULT is reused, the other
 * eight specs have codes of their own.
 */
module T2267Model {
  import opened Wrappers
  import opened JsText
  import opened JsEntries
  import opened RobovacCommand
  import opened RobovacModelDetails
  import opened StatusCodec
  import DefaultModel
  import Directions
  import WorkStatuses
  import FanSpeeds
  import DeviceErrors

  /** The DIRECTION table (lines 22-28), which has BRAKE. */
  const DIRECTION_VALUES: StringTable := [
    ("forward", Some(Mapped(Directions.FORWARD))),
    ("left", Some(Mapped(Directions.LEFT))),
    ("right", Some(Mapped(Directions.RIGHT))),
    ("back", Some(Mapped(Directions.BACK))),
    ("brake", Some(Mapped(Directions.BRAKE)))
  ]

  /** The stored copy of the table: the same entries under lower-case keys. */
  const DIRECTION_STORED: StringTable := [
    ("forward", Some(Mapped(Directions.FORWARD))),
    ("left", Some(Mapped(Directions.LEFT))),
    ("right", Some(Mapped(Directions.RIGHT))),
    ("back", Some(Mapped(Directions.BACK))),
    ("brake", Some(Mapped(Directions.BRAKE)))
  ]

  lemma LowerDirectionKeys0()
    ensures Lower("forward") == "forward"
      && Lower("left") == "left"
      && Lower("right") == "right"
      && Lower("back") == "back"
      && Lower("brake") == "brake"
  {
  }

  /** Lower-casing the keys of the table merges no two of them. */
  lemma StoredDirection()
    ensures NormalizeTable(DIRECTION_VALUES) == DIRECTION_STORED && DistinctKeys(DIRECTION_STORED)
  {
    LowerDirectionKeys0();
    assert LowerKeys(DIRECTION_VALUES) == DIRECTION_STORED;
    assert KeysOf(DIRECTION_STORED) == ["forward", "left", "right", "back", "brake"];
    NormalizeTableOfDistinct(DIRECTION_VALUES);
  }

  /** The WORK_STATUS table (lines 34-50): every token is `WorkStatus.UNKNOWN`. */
  const WORK_STATUS_VALUES: StringTable := [
    ("BgoAEAUyAA===", Some(Mapped(WorkStatuses.UNKNOWN))),
    ("BgoAEAVSAA===", Some(Mapped(WorkStatuses.UNKNOWN))),
    ("CAoAEAUyAggB", Some(Mapped(WorkStatuses.UNKNOWN))),
    ("CAoCCAEQBTIA", Some(Mapped(WorkStatuses.UNKNOWN))),
    ("CAoCCAEQBVIA", Some(Mapped(WorkStatuses.UNKNOWN))),
    ("CgoCCAEQBTICCAE=", Some(Mapped(WorkStatuses.UNKNOWN))),
    ("CAoCCAIQBTIA", Some(Mapped(WorkStatuses.UNKNOWN))),
    ("CAoCCAIQBVIA", Some(Mapped(WorkStatuses.UNKNOWN))),
    ("CgoCCAIQBTICCAE=", Some(Mapped(WorkStatuses.UNKNOWN))),
    ("BAoAEAY=", Some(Mapped(WorkStatuses.UNKNOWN))),
    ("BBAHQgA=", Some(Mapped(WorkStatuses.UNKNOWN))),
    ("BBADGgA=", Some(Mapped(WorkStatuses.UNKNOWN))),
    ("BhADGgIIAQ==", Some(Mapped(WorkStatuses.UNKNOWN))),
    ("AA==", Some(Mapped(WorkStatuses.UNKNOWN))),
    ("AhAB", Some(Mapped(WorkStatuses.UNKNOWN)))
  ]

  /** The stored copy of the table: the same entries under lower-case keys. */
  const WORK_STATUS_STORED: StringTable := [
    ("bgoaeauyaa===", Some(Mapped(WorkStatuses.UNKNOWN))),
    ("bgoaeavsaa===", Some(Mapped(WorkStatuses.UNKNOWN))),
    ("caoaeauyaggb", Some(Mapped(WorkStatuses.UNKNOWN))),
    ("caoccaeqbtia", Some(Mapped(WorkStatuses.UNKNOWN))),
    ("caoccaeqbvia", Some(Mapped(WorkStatuses.UNKNOWN))),
    ("cgoccaeqbticcae=", Some(Mapped(WorkStatuses.UNKNOWN))),
    ("caoccaiqbtia", Some(Mapped(WorkStatuses.UNKNOWN))),
    ("caoccaiqbvia", Some(Mapped(WorkStatuses.UNKNOWN))),
    ("cgoccaiqbticcae=", Some(Mapped(WorkStatuses.UNKNOWN))),
    ("baoaeay=", Some(Mapped(WorkStatuses.UNKNOWN))),
    ("bbahqga=", Some(Mapped(WorkStatuses.UNKNOWN))),
    ("bbadgga=", Some(Mapped(WorkStatuses.UNKNOWN))),
    ("bhadggiiaq==", Some(Mapped(WorkStatuses.UNKNOWN))),
    ("aa==", Some(Mapped(WorkStatuses.UNKNOWN))),
    ("ahab", Some(Mapped(WorkStatuses.UNKNOWN)))
  ]

  lemma LowerWorkStatusKeys0()
    ensures Lower("BgoAEAUyAA===") == "bgoaeauyaa==="
      && Lower("BgoAEAVSAA===") == "bgoaeavsaa==="
  {
  }

  lemma LowerWorkStatusKeys1()
    ensures Lower("CAoAEAUyAggB") == "caoaeauyaggb"
      && Lower("CAoCCAEQBTIA") == "caoccaeqbtia"
      && Lower("CAoCCAEQBVIA") == "caoccaeqbvia"
  {
  }

  lemma LowerWorkStatusKeys2()
    ensures Lower("CgoCCAEQBTICCAE=") == "cgoccaeqbticcae="
      && Lower("CAoCCAIQBTIA") == "caoccaiqbtia"
  {
  }

  lemma LowerWorkStatusKeys3()
    ensures Lower("CAoCCAIQBVIA") == "caoccaiqbvia"
      && Lower("CgoCCAIQBTICCAE=") == "cgoccaiqbticcae="
      && Lower("BAoAEAY=") == "baoaeay="
  {
  }

  lemma LowerWorkStatusKeys4()
    ensures Lower("BBAHQgA=") == "bbahqga="
      && Lower("BBADGgA=") == "bbadgga="
      && Lower("BhADGgIIAQ==") == "bhadggiiaq=="
      && Lower("AA==") == "aa=="
      && Lower("AhAB") == "ahab"
  {
  }

  lemma LowerWorkStatusTable()
    ensures LowerKeys(WORK_STATUS_VALUES) == WORK_STATUS_STORED
  {
    LowerWorkStatusKeys0();
    LowerWorkStatusKeys1();
    LowerWorkStatusKeys2();
    LowerWorkStatusKeys3();
    LowerWorkStatusKeys4();
  }

  /** The keys of the stored table. */
  const WORK_STATUS_KEYS: seq<string> := ["bgoaeauyaa===", "bgoaeavsaa===", "caoaeauyaggb", "caoccaeqbtia", "caoccaeqbvia", "cgoccaeqbticcae=", "caoccaiqbtia", "caoccaiqbvia", "cgoccaiqbticcae=", "baoaeay=", "bbahqga=", "bbadgga=", "bhadggiiaq==", "aa==", "ahab"]

  lemma DistinctWorkStatusRows0()
    ensures forall i, j :: 0 <= i < 7 && i < j < |WORK_STATUS_KEYS| ==> WORK_STATUS_KEYS[i] != WORK_STATUS_KEYS[j]
  {
  }

  lemma DistinctWorkStatusRows1()
    ensures forall i, j :: 7 <= i < 15 && i < j < |WORK_STATUS_KEYS| ==> WORK_STATUS_KEYS[i] != WORK_STATUS_KEYS[j]
  {
  }

  lemma DistinctWorkStatusKeys()
    ensures DistinctKeys(WORK_STATUS_STORED)
  {
    DistinctWorkStatusRows0();
    DistinctWorkStatusRows1();
    assert KeysOf(WORK_STATUS_STORED) == WORK_STATUS_KEYS;
    forall i, j | 0 <= i < j < |WORK_STATUS_STORED| ensures WORK_STATUS_STORED[i].0 != WORK_STATUS_STORED[j].0 {
      assert WORK_STATUS_STORED[i].0 == WORK_STATUS_KEYS[i] && WORK_STATUS_STORED[j].0 == WORK_STATUS_KEYS[j];
    }
  }

  /** Lower-casing the keys of the table merges no two of them. */
  lemma StoredWorkStatus()
    ensures NormalizeTable(WORK_STATUS_VALUES) == WORK_STATUS_STORED && DistinctKeys(WORK_STATUS_STORED)
  {
    LowerWorkStatusTable();
    DistinctWorkStatusKeys();
    NormalizeTableOfDistinct(WORK_STATUS_VALUES);
  }

  /** The FAN_SPEED table (lines 56-62), which has BOOST_IQ. */
  const FAN_SPEED_VALUES: StringTable := [
    ("quiet", Some(Mapped(FanSpeeds.QUIET))),
    ("standard", Some(Mapped(FanSpeeds.STANDARD))),
    ("turbo", Some(Mapped(FanSpeeds.TURBO))),
    ("max", Some(Mapped(FanSpeeds.MAX))),
    ("boost_iq", Some(Mapped(FanSpeeds.BOOST_IQ)))
  ]

  /** The stored copy of the table: the same entries under lower-case keys. */
  const FAN_SPEED_STORED: StringTable := [
    ("quiet", Some(Mapped(FanSpeeds.QUIET))),
    ("standard", Some(Mapped(FanSpeeds.STANDARD))),
    ("turbo", Some(Mapped(FanSpeeds.TURBO))),
    ("max", Some(Mapped(FanSpeeds.MAX))),
    ("boost_iq", Some(Mapped(FanSpeeds.BOOST_IQ)))
  ]

  lemma LowerFanSpeedKeys0()
    ensures Lower("quiet") == "quiet"
      && Lower("standard") == "standard"
      && Lower("turbo") == "turbo"
      && Lower("max") == "max"
      && Lower("boost_iq") == "boost_iq"
  {
  }

  /** Lower-casing the keys of the table merges no two of them. */
  lemma StoredFanSpeed()
    ensures NormalizeTable(FAN_SPEED_VALUES) == FAN_SPEED_STORED && DistinctKeys(FAN_SPEED_STORED)
  {
    LowerFanSpeedKeys0();
    assert LowerKeys(FAN_SPEED_VALUES) == FAN_SPEED_STORED;
    assert KeysOf(FAN_SPEED_STORED) == ["quiet", "standard", "turbo", "max", "boost_iq"];
    NormalizeTableOfDistinct(FAN_SPEED_VALUES);
  }

  /** The ERROR table (lines 83-93), the same as the default one, undefined brush entries included. */
  const ERROR_VALUES: StringTable := [
    ("no_error", Some(Mapped(DeviceErrors.NO_ERROR))),
    ("Stuck_5_min", Some(Mapped(DeviceErrors.STUCK_5_MIN))),
    ("Crash_bar_stuck", Some(Mapped(DeviceErrors.CRASH_BAR_STUCK))),
    ("sensor_dirty", Some(Mapped(DeviceErrors.SENSOR_DIRTY))),
    ("N_enough_pow", Some(Mapped(DeviceErrors.NOT_ENOUGH_POWER))),
    ("Wheel_stuck", Some(Mapped(DeviceErrors.WHEEL_STUCK))),
    ("S_brush_stuck", Defined(DeviceErrors.Field("SIDE_BRUSH_STUCK"))),
    ("Fan_stuck", Some(Mapped(DeviceErrors.FAN_STUCK))),
    ("R_brush_stuck", Defined(DeviceErrors.Field("ROLLER_BRUSH_STUCK")))
  ]

  /** The stored copy of the table: the same entries under lower-case keys. */
  const ERROR_STORED: StringTable := [
    ("no_error", Some(Mapped(DeviceErrors.NO_ERROR))),
    ("stuck_5_min", Some(Mapped(DeviceErrors.STUCK_5_MIN))),
    ("crash_bar_stuck", Some(Mapped(DeviceErrors.CRASH_BAR_STUCK))),
    ("sensor_dirty", Some(Mapped(DeviceErrors.SENSOR_DIRTY))),
    ("n_enough_pow", Some(Mapped(DeviceErrors.NOT_ENOUGH_POWER))),
    ("wheel_stuck", Some(Mapped(DeviceErrors.WHEEL_STUCK))),
    ("s_brush_stuck", None),
    ("fan_stuck", Some(Mapped(DeviceErrors.FAN_STUCK))),
    ("r_brush_stuck", None)
  ]

  lemma LowerErrorKeys0()
    ensures Lower("no_error") == "no_error"
      && Lower("Stuck_5_min") == "stuck_5_min"
      && Lower("Crash_bar_stuck") == "crash_bar_stuck"
  {
  }

  lemma LowerErrorKeys1()
    ensures Lower("sensor_dirty") == "sensor_dirty"
      && Lower("N_enough_pow") == "n_enough_pow"
      && Lower("Wheel_stuck") == "wheel_stuck"
  {
  }

  lemma LowerErrorKeys2()
    ensures Lower("S_brush_stuck") == "s_brush_stuck"
      && Lower("Fan_stuck") == "fan_stuck"
      && Lower("R_brush_stuck") == "r_brush_stuck"
  {
  }

  lemma LowerErrorTable()
    ensures LowerKeys(ERROR_VALUES) == ERROR_STORED
  {
    LowerErrorKeys0();
    LowerErrorKeys1();
    LowerErrorKeys2();
    DeviceErrors.MissingBrushKeys();
  }

  /** The keys of the stored table. */
  const ERROR_KEYS: seq<string> := ["no_error", "stuck_5_min", "crash_bar_stuck", "sensor_dirty", "n_enough_pow", "wheel_stuck", "s_brush_stuck", "fan_stuck", "r_brush_stuck"]

  lemma DistinctErrorRows0()
    ensures forall i, j :: 0 <= i < 9 && i < j < |ERROR_KEYS| ==> ERROR_KEYS[i] != ERROR_KEYS[j]
  {
  }

  lemma DistinctErrorKeys()
    ensures DistinctKeys(ERROR_STORED)
  {
    DistinctErrorRows0();
    assert KeysOf(ERROR_STORED) == ERROR_KEYS;
    forall i, j | 0 <= i < j < |ERROR_STORED| ensures ERROR_STORED[i].0 != ERROR_STORED[j].0 {
      assert ERROR_STORED[i].0 == ERROR_KEYS[i] && ERROR_STORED[j].0 == ERROR_KEYS[j];
    }
  }

  /** Lower-casing the keys of the table merges no two of them. */
  lemma StoredError()
    ensures NormalizeTable(ERROR_VALUES) == ERROR_STORED && DistinctKeys(ERROR_STORED)
  {
    LowerErrorTable();
    DistinctErrorKeys();
    NormalizeTableOfDistinct(ERROR_VALUES);
  }

  const RUNNING_SPEC := CommandSpec(Running, 156, Boolean, None)
  const DIRECTION_SPEC := CommandSpec(Direction, 155, String, Some(DIRECTION_VALUES))
  const WORK_STATUS_SPEC := CommandSpec(WorkStatus, 153, String, Some(WORK_STATUS_VALUES))
  const FAN_SPEED_SPEC := CommandSpec(FanSpeed, 158, String, Some(FAN_SPEED_VALUES))
  const RETURN_HOME_SPEC := CommandSpec(ReturnHome, 173, Boolean, None)
  const FIND_ROBOT_SPEC := CommandSpec(FindRobot, 160, Boolean, None)
  const BATTERY_LEVEL_SPEC := CommandSpec(BatteryLevel, 163, Number, None)
  const ERROR_SPEC := CommandSpec(Error, 177, String, Some(ERROR_VALUES))

  /** The spec list passed to the constructor; the `DefaultModel` ones are `ROBOVAC_COMMAND_DEFAULTS[...]`. */
  const Specs: seq<CommandSpec> := [DefaultModel.DEFAULT_SPEC, RUNNING_SPEC, DIRECTION_SPEC, WORK_STATUS_SPEC, FAN_SPEED_SPEC, RETURN_HOME_SPEC, FIND_ROBOT_SPEC, BATTERY_LEVEL_SPEC, ERROR_SPEC]

  /** Each reused spec, at the head of the list, is what `ROBOVAC_COMMAND_DEFAULTS` holds for its command. */
  lemma ReusesDefaults()
    ensures forall i :: 0 <= i < 1 ==> DefaultModel.CommandDefault(Specs[i].command) == Some(Specs[i])
  {
    forall i | 0 <= i < 1 ensures DefaultModel.CommandDefault(Specs[i].command) == Some(Specs[i]) {
      var j := 0;
      assert Specs[i] == DefaultModel.DefaultsArray[j];
      DefaultModel.DefaultFor(j);
    }
  }

  lemma SpecColumns()
    ensures Commands(Specs) == [Default, Running, Direction, WorkStatus, FanSpeed, ReturnHome, FindRobot, BatteryLevel, Error]
    ensures Codes(Specs) == [1, 156, 155, 153, 158, 173, 160, 163, 177]
  {
  }

  /** The commands are pairwise distinct and so are the codes 1, 156, 155, 153, 158, 173, 160, 163 and 177, so the constructor does not throw. */
  lemma Constructs(modelId: string, modelName: string)
    ensures BuildIndices(Specs).Success? && Construct(modelId, modelName, Specs).Success?
  {
    BuildSucceeds(Specs);
  }

  /** `new T2267RobovacModelDetails(modelId, modelName)`. */
  function Details(modelId: string, modelName: string): (d: ModelDetails)
    ensures Construct(modelId, modelName, Specs) == Success(d) && WellFormed(d)
  {
    Constructs(modelId, modelName);
    ConstructWellFormed(modelId, modelName, Specs);
    Construct(modelId, modelName, Specs).value
  }

  /** The registry knows exactly the commands and the codes of the spec list. */
  lemma LayoutKeys(modelId: string, modelName: string)
    ensures var d := Details(modelId, modelName);
      d.modelId == modelId && d.modelName == modelName &&
      (forall c :: c in d.byCommand <==> c in [Default, Running, Direction, WorkStatus, FanSpeed, ReturnHome, FindRobot, BatteryLevel, Error]) &&
      (forall k :: k in d.byCode <==> k in [1, 156, 155, 153, 158, 173, 160, 163, 177])
  {
    Constructs(modelId, modelName);
    BuildColumns(Specs);
    SpecColumns();
  }

  /** The commands of the enum that the spec list leaves out. */
  lemma AbsentCommands()
    ensures WorkMode !in Commands(Specs) && SpecialCommand !in Commands(Specs)
  {
    SpecColumns();
  }

  /** A command that the spec list leaves out has no entry in the registry. */
  lemma Misses(modelId: string, modelName: string, c: Command)
    requires c !in Commands(Specs)
    ensures c !in Details(modelId, modelName).byCommand
  {
    Constructs(modelId, modelName);
    BuildColumns(Specs);
  }

  /** Specs without a table are stored as they are. */
  lemma LayoutPlainSpecs0(modelId: string, modelName: string)
    ensures var d := Details(modelId, modelName);
      Default in d.byCommand && d.byCommand[Default] == DefaultModel.DEFAULT_SPEC && 1 in d.byCode && d.byCode[1] == DefaultModel.DEFAULT_SPEC &&
      Running in d.byCommand && d.byCommand[Running] == RUNNING_SPEC && 156 in d.byCode && d.byCode[156] == RUNNING_SPEC
  {
    Constructs(modelId, modelName);
    BuildPlainAt(Specs, 0);
    BuildPlainAt(Specs, 1);
  }

  /** Specs without a table are stored as they are. */
  lemma LayoutPlainSpecs1(modelId: string, modelName: string)
    ensures var d := Details(modelId, modelName);
      ReturnHome in d.byCommand && d.byCommand[ReturnHome] == RETURN_HOME_SPEC && 173 in d.byCode && d.byCode[173] == RETURN_HOME_SPEC &&
      FindRobot in d.byCommand && d.byCommand[FindRobot] == FIND_ROBOT_SPEC && 160 in d.byCode && d.byCode[160] == FIND_ROBOT_SPEC
  {
    Constructs(modelId, modelName);
    BuildPlainAt(Specs, 5);
    BuildPlainAt(Specs, 6);
  }

  /** Specs without a table are stored as they are. */
  lemma LayoutPlainSpecs2(modelId: string, modelName: string)
    ensures var d := Details(modelId, modelName);
      BatteryLevel in d.byCommand && d.byCommand[BatteryLevel] == BATTERY_LEVEL_SPEC && 163 in d.byCode && d.byCode[163] == BATTERY_LEVEL_SPEC
  {
    Constructs(modelId, modelName);
    BuildPlainAt(Specs, 7);
  }

  /** The DIRECTION spec is stored with its table under lower-case keys. */
  lemma LayoutDirectionSpec(modelId: string, modelName: string)
    ensures var d := Details(modelId, modelName);
      Direction in d.byCommand && d.byCommand[Direction] == CommandSpec(Direction, 155, String, Some(DIRECTION_STORED)) &&
      155 in d.byCode && d.byCode[155] == d.byCommand[Direction]
  {
    Constructs(modelId, modelName);
    StoredDirection();
    BuildTableAt(Specs, 2, DIRECTION_STORED);
  }

  /** The WORK_STATUS spec is stored with its table under lower-case keys. */
  lemma LayoutWorkStatusSpec(modelId: string, modelName: string)
    ensures var d := Details(modelId, modelName);
      WorkStatus in d.byCommand && d.byCommand[WorkStatus] == CommandSpec(WorkStatus, 153, String, Some(WORK_STATUS_STORED)) &&
      153 in d.byCode && d.byCode[153] == d.byCommand[WorkStatus]
  {
    Constructs(modelId, modelName);
    StoredWorkStatus();
    BuildTableAt(Specs, 3, WORK_STATUS_STORED);
  }

  /** The FAN_SPEED spec is stored with its table under lower-case keys. */
  lemma LayoutFanSpeedSpec(modelId: string, modelName: string)
    ensures var d := Details(modelId, modelName);
      FanSpeed in d.byCommand && d.byCommand[FanSpeed] == CommandSpec(FanSpeed, 158, String, Some(FAN_SPEED_STORED)) &&
      158 in d.byCode && d.byCode[158] == d.byCommand[FanSpeed]
  {
    Constructs(modelId, modelName);
    StoredFanSpeed();
    BuildTableAt(Specs, 4, FAN_SPEED_STORED);
  }

  /** The ERROR spec is stored with its table under lower-case keys. */
  lemma LayoutErrorSpec(modelId: string, modelName: string)
    ensures var d := Details(modelId, modelName);
      Error in d.byCommand && d.byCommand[Error] == CommandSpec(Error, 177, String, Some(ERROR_STORED)) &&
      177 in d.byCode && d.byCode[177] == d.byCommand[Error]
  {
    Constructs(modelId, modelName);
    StoredError();
    BuildTableAt(Specs, 8, ERROR_STORED);
  }

  // ---------------------------------------------------------------------------
  // What a T2267 decodes and sends
  // ---------------------------------------------------------------------------

  /**
   * Whatever string arrives at code 153 is stored as `WorkStatus.UNKNOWN`, as
   * the raw string, or as a property inherited from `Object.prototype`.
   */
  lemma WorkStatusUnknownOrRaw(modelId: string, modelName: string, raw: JsValue)
    requires raw.JsString?
    ensures 153 in Details(modelId, modelName).byCode
    ensures var spec := Details(modelId, modelName).byCode[153];
      Decodable(spec, raw) &&
      (Decode(spec, raw) == raw || Decode(spec, raw) == JsMapping(WorkStatuses.UNKNOWN) ||
       Some(Decode(spec, raw)) == InheritedProperty(Lower(raw.s)))
  {
    LayoutWorkStatusSpec(modelId, modelName);
    var spec := Details(modelId, modelName).byCode[153];
    assert spec.stringValues == Some(WORK_STATUS_STORED);
    DecodeRange(spec, raw);
    if Decode(spec, raw) != raw && Some(Decode(spec, raw)) != InheritedProperty(Lower(raw.s)) {
      assert forall i :: 0 <= i < |WORK_STATUS_STORED| ==> WORK_STATUS_STORED[i].1 == Some(Mapped(WorkStatuses.UNKNOWN));
    }
  }

  /** "AA==" is one of the tokens the table knows, and it too is UNKNOWN. */
  lemma AaIsUnknown(modelId: string, modelName: string)
    ensures 153 in Details(modelId, modelName).byCode
    ensures var spec := Details(modelId, modelName).byCode[153];
      Decodable(spec, JsString("AA==")) && Decode(spec, JsString("AA==")) == JsMapping(WorkStatuses.UNKNOWN)
  {
    LayoutWorkStatusSpec(modelId, modelName);
    DistinctWorkStatusKeys();
    LowerWorkStatusKeys4();
    DecodeAt(Details(modelId, modelName).byCode[153], 13, "AA==");
  }

  /** `setDirection(Direction.BRAKE)` sends "brake", which `set` accepts for code 155. */
  lemma BrakeToken(modelId: string, modelName: string)
    ensures var d := Details(modelId, modelName);
      SetterToken(d, Direction, Directions.BRAKE) == Success("brake") &&
      ValidateSet(d, Direction, JsString("brake")).Success? && ValidateSet(d, Direction, JsString("brake")).value.code == 155
  {
    LayoutDirectionSpec(modelId, modelName);
    FindTokenFound(DIRECTION_STORED, Directions.BRAKE.id, 4);
  }

  /** `setFanSpeed(FanSpeed.BOOST_IQ)` sends "boost_iq", which `set` accepts for code 158. */
  lemma BoostIqToken(modelId: string, modelName: string)
    ensures var d := Details(modelId, modelName);
      SetterToken(d, FanSpeed, FanSpeeds.BOOST_IQ) == Success("boost_iq") &&
      ValidateSet(d, FanSpeed, JsString("boost_iq")).Success? && ValidateSet(d, FanSpeed, JsString("boost_iq")).value.code == 158
  {
    LayoutFanSpeedSpec(modelId, modelName);
    FindTokenFound(FAN_SPEED_STORED, FanSpeeds.BOOST_IQ.id, 4);
  }

  /** `setGoHome(b)` is accepted for RETURN_HOME, a BOOLEAN spec at code 173. */
  lemma GoHomeCode(modelId: string, modelName: string, b: bool)
    ensures var d := Details(modelId, modelName);
      ValidateSet(d, ReturnHome, JsBoolean(b)).Success? && ValidateSet(d, ReturnHome, JsBoolean(b)).value.code == 173
  {
    LayoutPlainSpecs1(modelId, modelName);
  }

  /** "Stuck_5_min" in any case is `DeviceError.STUCK_5_MIN` at code 177. */
  lemma DecodeStuck(modelId: string, modelName: string, token: string)
    requires Lower(token) == "stuck_5_min"
    ensures 177 in Details(modelId, modelName).byCode
    ensures var spec := Details(modelId, modelName).byCode[177];
      Decodable(spec, JsString(token)) && Decode(spec, JsString(token)) == JsMapping(DeviceErrors.STUCK_5_MIN)
  {
    LayoutErrorSpec(modelId, modelName);
    StoredError();
    DecodeAt(Details(modelId, modelName).byCode[177], 1, token);
  }

  /** The two brush entries are undefined, so their tokens are stored raw. */
  lemma DecodeBrushRaw(modelId: string, modelName: string, token: string)
    requires Lower(token) == "s_brush_stuck" || Lower(token) == "r_brush_stuck"
    ensures 177 in Details(modelId, modelName).byCode
    ensures var spec := Details(modelId, modelName).byCode[177];
      Decodable(spec, JsString(token)) && Decode(spec, JsString(token)) == JsString(token)
  {
    LayoutErrorSpec(modelId, modelName);
    StoredError();
    var spec := Details(modelId, modelName).byCode[177];
    if Lower(token) == "s_brush_stuck" {
      DecodeAt(spec, 6, token);
    } else {
      DecodeAt(spec, 8, token);
    }
  }

  /** Without a WORK_MODE spec, `set` refuses it and `setWorkMode` throws. */
  lemma NoWorkMode(modelId: string, modelName: string, v: JsValue, m: ValueMapping)
    ensures var d := Details(modelId, modelName);
      ValidateSet(d, WorkMode, v) == Failure(PlainError("Robovac command " + CommandName(WorkMode) + " is not supported by model " + modelId)) &&
      SetterToken(d, WorkMode, m) == Failure(TypeError)
  {
    AbsentCommands();
    Misses(modelId, modelName, WorkMode);
    SetterTokenNoTable(Details(modelId, modelName), WorkMode, m);
  }

}
