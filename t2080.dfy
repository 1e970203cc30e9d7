/**
 * `T2080RobovacModelDetails` (src/api/model_details/t2080.ts): five default
 * specs, and WORK_MODE, WORK_STATUS and FAN_SPEED tables of its own at
 * codes 152, 153 and 158.
 */
module T2080Model {
  import opened Wrappers
  import opened JsText
  import opened JsEntries
  import opened RobovacCommand
  import opened RobovacModelDetails
  import opened StatusCodec
  import DefaultModel
  import WorkModes
  import WorkStatuses
  import FanSpeeds
  import DeviceErrors

  /** The WORK_MODE table (lines 20-27). */
  const WORK_MODE_VALUES: StringTable := [
    ("BBoCCAE=", Some(Mapped(WorkModes.AUTO))),
    ("AggN", Some(Mapped(WorkModes.PAUSE))),
    ("AA==", Some(Mapped(WorkModes.SPOT))),
    ("AggG", Some(Mapped(WorkModes.RETURN_HOME))),
    ("AggO", Some(Mapped(WorkModes.NO_SWEEP))),
    ("AggB", Some(Mapped(WorkModes.VACUUM_AND_MOP)))
  ]

  /** The stored copy of the table: the same entries under lower-case keys. */
  const WORK_MODE_STORED: StringTable := [
    ("bboccae=", Some(Mapped(WorkModes.AUTO))),
    ("aggn", Some(Mapped(WorkModes.PAUSE))),
    ("aa==", Some(Mapped(WorkModes.SPOT))),
    ("aggg", Some(Mapped(WorkModes.RETURN_HOME))),
    ("aggo", Some(Mapped(WorkModes.NO_SWEEP))),
    ("aggb", Some(Mapped(WorkModes.VACUUM_AND_MOP)))
  ]

  lemma LowerWorkModeKeys0()
    ensures Lower("BBoCCAE=") == "bboccae="
      && Lower("AggN") == "aggn"
      && Lower("AA==") == "aa=="
      && Lower("AggG") == "aggg"
      && Lower("AggO") == "aggo"
      && Lower("AggB") == "aggb"
  {
  }

  /** Lower-casing the keys of the table merges no two of them. */
  lemma StoredWorkMode()
    ensures NormalizeTable(WORK_MODE_VALUES) == WORK_MODE_STORED && DistinctKeys(WORK_MODE_STORED)
  {
    LowerWorkModeKeys0();
    assert LowerKeys(WORK_MODE_VALUES) == WORK_MODE_STORED;
    assert KeysOf(WORK_MODE_STORED) == ["bboccae=", "aggn", "aa==", "aggg", "aggo", "aggb"];
    NormalizeTableOfDistinct(WORK_MODE_VALUES);
  }

  /** The WORK_STATUS table (lines 33-68); several tokens share a status. */
  const WORK_STATUS_VALUES: StringTable := [
    ("CAoAEAUyAggB", Some(Mapped(WorkStatuses.PAUSED))),
    ("CAoCCAEQBTIA", Some(Mapped(WorkStatuses.ROOM_CLEANING))),
    ("CAoCCAEQBVIA", Some(Mapped(WorkStatuses.ROOM_POSITIONING))),
    ("DAoCCAEQBTICEAFSAA==", Some(Mapped(WorkStatuses.ROOM_POSITIONING))),
    ("CgoCCAEQBTICCAE=", Some(Mapped(WorkStatuses.PAUSED))),
    ("BhAHQgBSAA==", Some(Mapped(WorkStatuses.STANDBY))),
    ("BBAHQgA=", Some(Mapped(WorkStatuses.RETURNING_HOME))),
    ("BBADGgA=", Some(Mapped(WorkStatuses.CHARGING))),
    ("BhADGgIIAQ==", Some(Mapped(WorkStatuses.CHARGING_COMPLETED))),
    ("AA==", Some(Mapped(WorkStatuses.STANDBY))),
    ("AgoA", Some(Mapped(WorkStatuses.RETURNING_HOME))),
    ("AhAB", Some(Mapped(WorkStatuses.SLEEPING))),
    ("DAoCCAEQCRoCCAEyAA==", Some(Mapped(WorkStatuses.ADDING_WATER))),
    ("DgoAEAkaAggBMgA6AhAB", Some(Mapped(WorkStatuses.ADDING_WATER))),
    ("DAoAEAUaADICEAFSAA==", Some(Mapped(WorkStatuses.ADDING_WATER))),
    ("BhAJOgIQAg==", Some(Mapped(WorkStatuses.DRYING_MOP))),
    ("CBAJGgA6AhAC", Some(Mapped(WorkStatuses.DRYING_MOP))),
    ("ChAJGgIIAToCEAI=", Some(Mapped(WorkStatuses.DRYING_MOP))),
    ("DgoAEAUaAggBMgIQAVIA", Some(Mapped(WorkStatuses.WASHING_MOP))),
    ("EAoCCAEQCRoCCAEyADoCEAE=", Some(Mapped(WorkStatuses.WASHING_MOP))),
    ("BhAJOgIQAQ==", Some(Mapped(WorkStatuses.WASHING_MOP))),
    ("AhAJ", Some(Mapped(WorkStatuses.REMOVING_WATER))),
    ("BhAGGgIIAQ==", Some(Mapped(WorkStatuses.MANUAL_CONTROL))),
    ("BRAJ+gEA", Some(Mapped(WorkStatuses.EMPTYING_DUST))),
    ("BgoAEAUyAA==", Some(Mapped(WorkStatuses.AUTO_CLEANING))),
    ("CgoAEAkaAggBMgA=", Some(Mapped(WorkStatuses.AUTO_CLEANING))),
    ("CgoAEAUyAhABUgA=", Some(Mapped(WorkStatuses.AUTO_CLEANING))),
    ("DAoCCAEQAxoAMgIIAQ==", Some(Mapped(WorkStatuses.CHARGING))),
    ("DQoCCAEQCTICCAH6AQA=", Some(Mapped(WorkStatuses.EMPTYING_DUST))),
    ("CAoAEAIyAggB", Some(Mapped(WorkStatuses.ERROR)))
  ]

  /** The stored copy of the table: the same entries under lower-case keys. */
  const WORK_STATUS_STORED: StringTable := [
    ("caoaeauyaggb", Some(Mapped(WorkStatuses.PAUSED))),
    ("caoccaeqbtia", Some(Mapped(WorkStatuses.ROOM_CLEANING))),
    ("caoccaeqbvia", Some(Mapped(WorkStatuses.ROOM_POSITIONING))),
    ("daoccaeqbticeafsaa==", Some(Mapped(WorkStatuses.ROOM_POSITIONING))),
    ("cgoccaeqbticcae=", Some(Mapped(WorkStatuses.PAUSED))),
    ("bhahqgbsaa==", Some(Mapped(WorkStatuses.STANDBY))),
    ("bbahqga=", Some(Mapped(WorkStatuses.RETURNING_HOME))),
    ("bbadgga=", Some(Mapped(WorkStatuses.CHARGING))),
    ("bhadggiiaq==", Some(Mapped(WorkStatuses.CHARGING_COMPLETED))),
    ("aa==", Some(Mapped(WorkStatuses.STANDBY))),
    ("agoa", Some(Mapped(WorkStatuses.RETURNING_HOME))),
    ("ahab", Some(Mapped(WorkStatuses.SLEEPING))),
    ("daoccaeqcroccaeyaa==", Some(Mapped(WorkStatuses.ADDING_WATER))),
    ("dgoaeakaaggbmga6ahab", Some(Mapped(WorkStatuses.ADDING_WATER))),
    ("daoaeauaadiceafsaa==", Some(Mapped(WorkStatuses.ADDING_WATER))),
    ("bhajogiqag==", Some(Mapped(WorkStatuses.DRYING_MOP))),
    ("cbajgga6ahac", Some(Mapped(WorkStatuses.DRYING_MOP))),
    ("chajggiiatoceai=", Some(Mapped(WorkStatuses.DRYING_MOP))),
    ("dgoaeauaaggbmgiqavia", Some(Mapped(WorkStatuses.WASHING_MOP))),
    ("eaoccaeqcroccaeyadoceae=", Some(Mapped(WorkStatuses.WASHING_MOP))),
    ("bhajogiqaq==", Some(Mapped(WorkStatuses.WASHING_MOP))),
    ("ahaj", Some(Mapped(WorkStatuses.REMOVING_WATER))),
    ("bhagggiiaq==", Some(Mapped(WorkStatuses.MANUAL_CONTROL))),
    ("braj+gea", Some(Mapped(WorkStatuses.EMPTYING_DUST))),
    ("bgoaeauyaa==", Some(Mapped(WorkStatuses.AUTO_CLEANING))),
    ("cgoaeakaaggbmga=", Some(Mapped(WorkStatuses.AUTO_CLEANING))),
    ("cgoaeauyahabuga=", Some(Mapped(WorkStatuses.AUTO_CLEANING))),
    ("daoccaeqaxoamgiiaq==", Some(Mapped(WorkStatuses.CHARGING))),
    ("dqoccaeqcticcah6aqa=", Some(Mapped(WorkStatuses.EMPTYING_DUST))),
    ("caoaeaiyaggb", Some(Mapped(WorkStatuses.ERROR)))
  ]

  lemma LowerWorkStatusKeys0()
    ensures Lower("CAoAEAUyAggB") == "caoaeauyaggb"
      && Lower("CAoCCAEQBTIA") == "caoccaeqbtia"
      && Lower("CAoCCAEQBVIA") == "caoccaeqbvia"
  {
  }

  lemma LowerWorkStatusKeys1()
    ensures Lower("DAoCCAEQBTICEAFSAA==") == "daoccaeqbticeafsaa=="
      && Lower("CgoCCAEQBTICCAE=") == "cgoccaeqbticcae="
  {
  }

  lemma LowerWorkStatusKeys2()
    ensures Lower("BhAHQgBSAA==") == "bhahqgbsaa=="
      && Lower("BBAHQgA=") == "bbahqga="
      && Lower("BBADGgA=") == "bbadgga="
  {
  }

  lemma LowerWorkStatusKeys3()
    ensures Lower("BhADGgIIAQ==") == "bhadggiiaq=="
      && Lower("AA==") == "aa=="
      && Lower("AgoA") == "agoa"
      && Lower("AhAB") == "ahab"
  {
  }

  lemma LowerWorkStatusKeys4()
    ensures Lower("DAoCCAEQCRoCCAEyAA==") == "daoccaeqcroccaeyaa=="
  {
  }

  lemma LowerWorkStatusKeys5()
    ensures Lower("DgoAEAkaAggBMgA6AhAB") == "dgoaeakaaggbmga6ahab"
  {
  }

  lemma LowerWorkStatusKeys6()
    ensures Lower("DAoAEAUaADICEAFSAA==") == "daoaeauaadiceafsaa=="
      && Lower("BhAJOgIQAg==") == "bhajogiqag=="
  {
  }

  lemma LowerWorkStatusKeys7()
    ensures Lower("CBAJGgA6AhAC") == "cbajgga6ahac"
      && Lower("ChAJGgIIAToCEAI=") == "chajggiiatoceai="
  {
  }

  lemma LowerWorkStatusKeys8()
    ensures Lower("DgoAEAUaAggBMgIQAVIA") == "dgoaeauaaggbmgiqavia"
  {
  }

  lemma LowerWorkStatusKeys9()
    ensures Lower("EAoCCAEQCRoCCAEyADoCEAE=") == "eaoccaeqcroccaeyadoceae="
      && Lower("BhAJOgIQAQ==") == "bhajogiqaq=="
  {
  }

  lemma LowerWorkStatusKeys10()
    ensures Lower("AhAJ") == "ahaj"
      && Lower("BhAGGgIIAQ==") == "bhagggiiaq=="
      && Lower("BRAJ+gEA") == "braj+gea"
      && Lower("BgoAEAUyAA==") == "bgoaeauyaa=="
  {
  }

  lemma LowerWorkStatusKeys11()
    ensures Lower("CgoAEAkaAggBMgA=") == "cgoaeakaaggbmga="
      && Lower("CgoAEAUyAhABUgA=") == "cgoaeauyahabuga="
  {
  }

  lemma LowerWorkStatusKeys12()
    ensures Lower("DAoCCAEQAxoAMgIIAQ==") == "daoccaeqaxoamgiiaq=="
  {
  }

  lemma LowerWorkStatusKeys13()
    ensures Lower("DQoCCAEQCTICCAH6AQA=") == "dqoccaeqcticcah6aqa="
      && Lower("CAoAEAIyAggB") == "caoaeaiyaggb"
  {
  }

  lemma LowerWorkStatusTable()
    ensures LowerKeys(WORK_STATUS_VALUES) == WORK_STATUS_STORED
  {
    LowerWorkStatusKeys0();
    LowerWorkStatusKeys1();
    LowerWorkStatusKeys2();
    LowerWorkStatusKeys3();
    LowerWorkStatusKeys4();
    LowerWorkStatusKeys5();
    LowerWorkStatusKeys6();
    LowerWorkStatusKeys7();
    LowerWorkStatusKeys8();
    LowerWorkStatusKeys9();
    LowerWorkStatusKeys10();
    LowerWorkStatusKeys11();
    LowerWorkStatusKeys12();
    LowerWorkStatusKeys13();
  }

  /** The keys of the stored table. */
  const WORK_STATUS_KEYS: seq<string> := ["caoaeauyaggb", "caoccaeqbtia", "caoccaeqbvia", "daoccaeqbticeafsaa==", "cgoccaeqbticcae=", "bhahqgbsaa==", "bbahqga=", "bbadgga=", "bhadggiiaq==", "aa==", "agoa", "ahab", "daoccaeqcroccaeyaa==", "dgoaeakaaggbmga6ahab", "daoaeauaadiceafsaa==", "bhajogiqag==", "cbajgga6ahac", "chajggiiatoceai=", "dgoaeauaaggbmgiqavia", "eaoccaeqcroccaeyadoceae=", "bhajogiqaq==", "ahaj", "bhagggiiaq==", "braj+gea", "bgoaeauyaa==", "cgoaeakaaggbmga=", "cgoaeauyahabuga=", "daoccaeqaxoamgiiaq==", "dqoccaeqcticcah6aqa=", "caoaeaiyaggb"]

  lemma DistinctWorkStatusRows0()
    ensures forall i, j :: 0 <= i < 2 && i < j < |WORK_STATUS_KEYS| ==> WORK_STATUS_KEYS[i] != WORK_STATUS_KEYS[j]
  {
  }

  lemma DistinctWorkStatusRows1()
    ensures forall i, j :: 2 <= i < 5 && i < j < |WORK_STATUS_KEYS| ==> WORK_STATUS_KEYS[i] != WORK_STATUS_KEYS[j]
  {
  }

  lemma DistinctWorkStatusRows2()
    ensures forall i, j :: 5 <= i < 8 && i < j < |WORK_STATUS_KEYS| ==> WORK_STATUS_KEYS[i] != WORK_STATUS_KEYS[j]
  {
  }

  lemma DistinctWorkStatusRows3()
    ensures forall i, j :: 8 <= i < 12 && i < j < |WORK_STATUS_KEYS| ==> WORK_STATUS_KEYS[i] != WORK_STATUS_KEYS[j]
  {
  }

  lemma DistinctWorkStatusRows4()
    ensures forall i, j :: 12 <= i < 17 && i < j < |WORK_STATUS_KEYS| ==> WORK_STATUS_KEYS[i] != WORK_STATUS_KEYS[j]
  {
  }

  lemma DistinctWorkStatusRows5()
    ensures forall i, j :: 17 <= i < 30 && i < j < |WORK_STATUS_KEYS| ==> WORK_STATUS_KEYS[i] != WORK_STATUS_KEYS[j]
  {
  }

  lemma DistinctWorkStatusKeys()
    ensures DistinctKeys(WORK_STATUS_STORED)
  {
    DistinctWorkStatusRows0();
    DistinctWorkStatusRows1();
    DistinctWorkStatusRows2();
    DistinctWorkStatusRows3();
    DistinctWorkStatusRows4();
    DistinctWorkStatusRows5();
    assert KeysOf(WORK_STATUS_STORED) == WORK_STATUS_KEYS;
    forall i, j | 0 <= i < j < |WORK_STATUS_STORED| ensures WORK_STATUS_STORED[i].0 != WORK_STATUS_STORED[j].0 {
      assert WORK_STATUS_STORED[i].0 == WORK_STATUS_KEYS[i] && WORK_STATUS_STORED[j].0 == WORK_STATUS_KEYS[j];
    }
  }

  /** Lower-casing the keys of the table merges no two of them. */
  lemma StoredWorkStatus()
    ensures NormalizeTable(WORK_STATUS_VALUES) == WORK_STATUS_STORED && DistinctKeys(WORK_STATUS_STORED)
  {
    LowerWorkStatusTable();
    DistinctWorkStatusKeys();
    NormalizeTableOfDistinct(WORK_STATUS_VALUES);
  }

  /** The FAN_SPEED table (lines 74-79). */
  const FAN_SPEED_VALUES: StringTable := [
    ("quiet", Some(Mapped(FanSpeeds.QUIET))),
    ("standard", Some(Mapped(FanSpeeds.STANDARD))),
    ("turbo", Some(Mapped(FanSpeeds.TURBO))),
    ("max", Some(Mapped(FanSpeeds.MAX)))
  ]

  /** The stored copy of the table: the same entries under lower-case keys. */
  const FAN_SPEED_STORED: StringTable := [
    ("quiet", Some(Mapped(FanSpeeds.QUIET))),
    ("standard", Some(Mapped(FanSpeeds.STANDARD))),
    ("turbo", Some(Mapped(FanSpeeds.TURBO))),
    ("max", Some(Mapped(FanSpeeds.MAX)))
  ]

  lemma LowerFanSpeedKeys0()
    ensures Lower("quiet") == "quiet"
      && Lower("standard") == "standard"
      && Lower("turbo") == "turbo"
      && Lower("max") == "max"
  {
  }

  /** Lower-casing the keys of the table merges no two of them. */
  lemma StoredFanSpeed()
    ensures NormalizeTable(FAN_SPEED_VALUES) == FAN_SPEED_STORED && DistinctKeys(FAN_SPEED_STORED)
  {
    LowerFanSpeedKeys0();
    assert LowerKeys(FAN_SPEED_VALUES) == FAN_SPEED_STORED;
    assert KeysOf(FAN_SPEED_STORED) == ["quiet", "standard", "turbo", "max"];
    NormalizeTableOfDistinct(FAN_SPEED_VALUES);
  }

  const WORK_MODE_SPEC := CommandSpec(WorkMode, 152, String, Some(WORK_MODE_VALUES))
  const WORK_STATUS_SPEC := CommandSpec(WorkStatus, 153, String, Some(WORK_STATUS_VALUES))
  const FAN_SPEED_SPEC := CommandSpec(FanSpeed, 158, String, Some(FAN_SPEED_VALUES))

  /** The spec list passed to the constructor; the `DefaultModel` ones are `ROBOVAC_COMMAND_DEFAULTS[...]`. */
  const Specs: seq<CommandSpec> := [DefaultModel.DEFAULT_SPEC, DefaultModel.RUNNING_SPEC, DefaultModel.FIND_ROBOT_SPEC, DefaultModel.BATTERY_LEVEL_SPEC, DefaultModel.ERROR_SPEC, WORK_MODE_SPEC, WORK_STATUS_SPEC, FAN_SPEED_SPEC]

  /** Each reused spec, at the head of the list, is what `ROBOVAC_COMMAND_DEFAULTS` holds for its command. */
  lemma ReusesDefaults()
    ensures forall i :: 0 <= i < 5 ==> DefaultModel.CommandDefault(Specs[i].command) == Some(Specs[i])
  {
    forall i | 0 <= i < 5 ensures DefaultModel.CommandDefault(Specs[i].command) == Some(Specs[i]) {
      var j := [0, 1, 5, 6, 7][i];
      assert Specs[i] == DefaultModel.DefaultsArray[j];
      DefaultModel.DefaultFor(j);
    }
  }

  lemma SpecColumns()
    ensures Commands(Specs) == [Default, Running, FindRobot, BatteryLevel, Error, WorkMode, WorkStatus, FanSpeed]
    ensures Codes(Specs) == [1, 2, 103, 104, 106, 152, 153, 158]
  {
  }

  /** The commands are pairwise distinct and so are the codes 1, 2, 103, 104, 106, 152, 153 and 158, so the constructor does not throw. */
  lemma Constructs(modelId: string, modelName: string)
    ensures BuildIndices(Specs).Success? && Construct(modelId, modelName, Specs).Success?
  {
    BuildSucceeds(Specs);
  }

  /** `new T2080RobovacModelDetails(modelId, modelName)`. */
  function Details(modelId: string, modelName: string): (d: ModelDetails)
    ensures Construct(modelId, modelName, Specs) == Success(d) && WellFormed(d)
  {
    Constructs(modelId, modelName);
    ConstructWellFormed(modelId, modelName, Specs);
    Construct(modelId, modelName, Specs).value
  }

  /** The registry knows exactly the commands and the codes of the spec list. */
  lemma LayoutKeys(modelId: string, modelName: string)
    ensures var d := Details(modelId, modelName);
      d.modelId == modelId && d.modelName == modelName &&
      (forall c :: c in d.byCommand <==> c in [Default, Running, FindRobot, BatteryLevel, Error, WorkMode, WorkStatus, FanSpeed]) &&
      (forall k :: k in d.byCode <==> k in [1, 2, 103, 104, 106, 152, 153, 158])
  {
    Constructs(modelId, modelName);
    BuildColumns(Specs);
    SpecColumns();
  }

  /** The commands of the enum that the spec list leaves out. */
  lemma AbsentCommands()
    ensures Direction !in Commands(Specs) && ReturnHome !in Commands(Specs) && SpecialCommand !in Commands(Specs)
  {
    SpecColumns();
  }

  /** A command that the spec list leaves out has no entry in the registry. */
  lemma Misses(modelId: string, modelName: string, c: Command)
    requires c !in Commands(Specs)
    ensures c !in Details(modelId, modelName).byCommand
  {
    Constructs(modelId, modelName);
    BuildColumns(Specs);
  }

  /** Specs without a table are stored as they are. */
  lemma LayoutPlainSpecs0(modelId: string, modelName: string)
    ensures var d := Details(modelId, modelName);
      Default in d.byCommand && d.byCommand[Default] == DefaultModel.DEFAULT_SPEC && 1 in d.byCode && d.byCode[1] == DefaultModel.DEFAULT_SPEC &&
      Running in d.byCommand && d.byCommand[Running] == DefaultModel.RUNNING_SPEC && 2 in d.byCode && d.byCode[2] == DefaultModel.RUNNING_SPEC
  {
    Constructs(modelId, modelName);
    BuildPlainAt(Specs, 0);
    BuildPlainAt(Specs, 1);
  }

  /** Specs without a table are stored as they are. */
  lemma LayoutPlainSpecs1(modelId: string, modelName: string)
    ensures var d := Details(modelId, modelName);
      FindRobot in d.byCommand && d.byCommand[FindRobot] == DefaultModel.FIND_ROBOT_SPEC && 103 in d.byCode && d.byCode[103] == DefaultModel.FIND_ROBOT_SPEC &&
      BatteryLevel in d.byCommand && d.byCommand[BatteryLevel] == DefaultModel.BATTERY_LEVEL_SPEC && 104 in d.byCode && d.byCode[104] == DefaultModel.BATTERY_LEVEL_SPEC
  {
    Constructs(modelId, modelName);
    BuildPlainAt(Specs, 2);
    BuildPlainAt(Specs, 3);
  }

  /** The ERROR spec is stored with its table under lower-case keys. */
  lemma LayoutErrorSpec(modelId: string, modelName: string)
    ensures var d := Details(modelId, modelName);
      Error in d.byCommand && d.byCommand[Error] == CommandSpec(Error, 106, String, Some(DefaultModel.ERROR_STORED)) &&
      106 in d.byCode && d.byCode[106] == d.byCommand[Error]
  {
    Constructs(modelId, modelName);
    DefaultModel.StoredError();
    BuildTableAt(Specs, 4, DefaultModel.ERROR_STORED);
  }

  /** The WORK_MODE spec is stored with its table under lower-case keys. */
  lemma LayoutWorkModeSpec(modelId: string, modelName: string)
    ensures var d := Details(modelId, modelName);
      WorkMode in d.byCommand && d.byCommand[WorkMode] == CommandSpec(WorkMode, 152, String, Some(WORK_MODE_STORED)) &&
      152 in d.byCode && d.byCode[152] == d.byCommand[WorkMode]
  {
    Constructs(modelId, modelName);
    StoredWorkMode();
    BuildTableAt(Specs, 5, WORK_MODE_STORED);
  }

  /** The WORK_STATUS spec is stored with its table under lower-case keys. */
  lemma LayoutWorkStatusSpec(modelId: string, modelName: string)
    ensures var d := Details(modelId, modelName);
      WorkStatus in d.byCommand && d.byCommand[WorkStatus] == CommandSpec(WorkStatus, 153, String, Some(WORK_STATUS_STORED)) &&
      153 in d.byCode && d.byCode[153] == d.byCommand[WorkStatus]
  {
    Constructs(modelId, modelName);
    StoredWorkStatus();
    BuildTableAt(Specs, 6, WORK_STATUS_STORED);
  }

  /** The FAN_SPEED spec is stored with its table under lower-case keys. */
  lemma LayoutFanSpeedSpec(modelId: string, modelName: string)
    ensures var d := Details(modelId, modelName);
      FanSpeed in d.byCommand && d.byCommand[FanSpeed] == CommandSpec(FanSpeed, 158, String, Some(FAN_SPEED_STORED)) &&
      158 in d.byCode && d.byCode[158] == d.byCommand[FanSpeed]
  {
    Constructs(modelId, modelName);
    StoredFanSpeed();
    BuildTableAt(Specs, 7, FAN_SPEED_STORED);
  }

  // ---------------------------------------------------------------------------
  // What a T2080 decodes and sends
  // ---------------------------------------------------------------------------

  /** "CAoAEAUyAggB" and "CgoCCAEQBTICCAE=" are two tokens for one status, `WorkStatus.PAUSED`. */
  lemma PausedAliases(modelId: string, modelName: string)
    ensures 153 in Details(modelId, modelName).byCode
    ensures var spec := Details(modelId, modelName).byCode[153];
      Decodable(spec, JsString("CAoAEAUyAggB")) && Decode(spec, JsString("CAoAEAUyAggB")) == JsMapping(WorkStatuses.PAUSED) &&
      Decodable(spec, JsString("CgoCCAEQBTICCAE=")) && Decode(spec, JsString("CgoCCAEQBTICCAE=")) == JsMapping(WorkStatuses.PAUSED)
  {
    LayoutWorkStatusSpec(modelId, modelName);
    DistinctWorkStatusKeys();
    LowerWorkStatusKeys0();
    LowerWorkStatusKeys1();
    var spec := Details(modelId, modelName).byCode[153];
    DecodeAt(spec, 0, "CAoAEAUyAggB");
    DecodeAt(spec, 4, "CgoCCAEQBTICCAE=");
  }

  /** The tables are per command: "AA==" is `WorkMode.SPOT` at code 152. */
  lemma AaIsSpotWorkMode(modelId: string, modelName: string)
    ensures 152 in Details(modelId, modelName).byCode
    ensures var spec := Details(modelId, modelName).byCode[152];
      Decodable(spec, JsString("AA==")) && Decode(spec, JsString("AA==")) == JsMapping(WorkModes.SPOT)
  {
    LayoutWorkModeSpec(modelId, modelName);
    StoredWorkMode();
    LowerWorkModeKeys0();
    DecodeAt(Details(modelId, modelName).byCode[152], 2, "AA==");
  }

  /** ... and "AA==" is `WorkStatus.STANDBY` at code 153. */
  lemma AaIsStandbyWorkStatus(modelId: string, modelName: string)
    ensures 153 in Details(modelId, modelName).byCode
    ensures var spec := Details(modelId, modelName).byCode[153];
      Decodable(spec, JsString("AA==")) && Decode(spec, JsString("AA==")) == JsMapping(WorkStatuses.STANDBY)
  {
    LayoutWorkStatusSpec(modelId, modelName);
    DistinctWorkStatusKeys();
    LowerWorkStatusKeys3();
    DecodeAt(Details(modelId, modelName).byCode[153], 9, "AA==");
  }

  /** `setWorkMode(WorkMode.AUTO)` sends the lower-cased token "bboccae=", which `set` accepts for code 152. */
  lemma AutoToken(modelId: string, modelName: string)
    ensures var d := Details(modelId, modelName);
      SetterToken(d, WorkMode, WorkModes.AUTO) == Success("bboccae=") &&
      ValidateSet(d, WorkMode, JsString("bboccae=")).Success? && ValidateSet(d, WorkMode, JsString("bboccae=")).value.code == 152
  {
    LayoutWorkModeSpec(modelId, modelName);
    FindTokenFound(WORK_MODE_STORED, WorkModes.AUTO.id, 0);
  }

  /** No FAN_SPEED entry has BOOST_IQ's id 1, so `setFanSpeed(FanSpeed.BOOST_IQ)` throws `ValueNotSupportedError`. */
  lemma BoostIqRefused(modelId: string, modelName: string)
    ensures SetterToken(Details(modelId, modelName), FanSpeed, FanSpeeds.BOOST_IQ) ==
      Failure(ValueNotSupported(ValueNotSupportedMessage(Some(JsMapping(FanSpeeds.BOOST_IQ)), FanSpeed, Some(modelId))))
  {
    LayoutFanSpeedSpec(modelId, modelName);
    FindTokenNone(FAN_SPEED_STORED, FanSpeeds.BOOST_IQ.id);
    assert FindToken(FAN_SPEED_STORED, FanSpeeds.BOOST_IQ.id) == Success(None);
    assert GetCommandSpecByCommand(Details(modelId, modelName), FanSpeed) ==
      Some(CommandSpec(FanSpeed, 158, String, Some(FAN_SPEED_STORED)));
  }

  /** Without a RETURN_HOME spec `setGoHome` is refused before any transport call; without DIRECTION, `setDirection` throws. */
  lemma NoReturnHomeOrDirection(modelId: string, modelName: string, v: JsValue, m: ValueMapping)
    ensures var d := Details(modelId, modelName);
      ValidateSet(d, ReturnHome, v) == Failure(PlainError("Robovac command " + CommandName(ReturnHome) + " is not supported by model " + modelId)) &&
      SetterToken(d, Direction, m) == Failure(TypeError)
  {
    AbsentCommands();
    Misses(modelId, modelName, ReturnHome);
    Misses(modelId, modelName, Direction);
    SetterTokenNoTable(Details(modelId, modelName), Direction, m);
  }

}
