/**
 * `T2320RobovacModelDetails` (src/api/model_details/t2320.ts): RETURN_HOME
 * and FIND_ROBOT are both given code 152, so the constructor throws.
 */
module T2320Model {
  import opened Wrappers
  import opened JsText
  import opened JsEntries
  import opened RobovacCommand
  import opened RobovacModelDetails
  import opened StatusCodec
  import DefaultModel


  /** The WORK_STATUS table (lines 14-20): plain strings. */
  const WORK_STATUS_VALUES: StringTable := [
    ("auto", Some(Plain("auto"))),
    ("return", Some(Plain("return"))),
    ("pause", Some(Plain("pause"))),
    ("small_room", Some(Plain("small room"))),
    ("single_room", Some(Plain("single room")))
  ]

  /** The RETURN_HOME table (lines 26-28). */
  const RETURN_HOME_VALUES: StringTable := [
    ("return_home", Some(Plain("return_home")))
  ]

  /** The FIND_ROBOT table (lines 34-36). */
  const FIND_ROBOT_VALUES: StringTable := [
    ("locate", Some(Plain("locate")))
  ]

  const WORK_STATUS_SPEC := CommandSpec(WorkStatus, 173, String, Some(WORK_STATUS_VALUES))
  const RETURN_HOME_SPEC := CommandSpec(ReturnHome, 152, String, Some(RETURN_HOME_VALUES))
  const FIND_ROBOT_SPEC := CommandSpec(FindRobot, 152, String, Some(FIND_ROBOT_VALUES))
  const BATTERY_LEVEL_SPEC := CommandSpec(BatteryLevel, 172, Number, None)
  const ERROR_SPEC := CommandSpec(Error, 169, String, None)

  /** The spec list passed to the constructor; the `DefaultModel` ones are `ROBOVAC_COMMAND_DEFAULTS[...]`. */
  const Specs: seq<CommandSpec> := [DefaultModel.DEFAULT_SPEC, DefaultModel.RUNNING_SPEC, WORK_STATUS_SPEC, RETURN_HOME_SPEC, FIND_ROBOT_SPEC, BATTERY_LEVEL_SPEC, ERROR_SPEC]

  /** Each reused spec, at the head of the list, is what `ROBOVAC_COMMAND_DEFAULTS` holds for its command. */
  lemma ReusesDefaults()
    ensures forall i :: 0 <= i < 2 ==> DefaultModel.CommandDefault(Specs[i].command) == Some(Specs[i])
  {
    forall i | 0 <= i < 2 ensures DefaultModel.CommandDefault(Specs[i].command) == Some(Specs[i]) {
      var j := [0, 1][i];
      assert Specs[i] == DefaultModel.DefaultsArray[j];
      DefaultModel.DefaultFor(j);
    }
  }

  /**
   * The fifth spec, FIND_ROBOT, reuses code 152 of RETURN_HOME, after DEFAULT,
   * RUNNING, WORK_STATUS and RETURN_HOME were indexed; the commands are all
   * different, so it is the code check that throws, naming both commands.
   * RETURN_HOME is a STRING spec here, not the BOOLEAN default.
   */
  lemma RejectsDuplicateCode(modelId: string, modelName: string)
    ensures Construct(modelId, modelName, Specs) == Failure(DuplicateCode(152, ReturnHome, FindRobot))
    ensures var tail := "Existing command='" + CommandName(ReturnHome) + "', duplicate command='" + CommandName(FindRobot) + "'";
      var m := DuplicateMessage(modelId, modelName, DuplicateCode(152, ReturnHome, FindRobot));
      |m| > |tail| && m[|m| - |tail|..] == tail
    ensures RETURN_HOME_SPEC.valueType == String && DefaultModel.RETURN_HOME_SPEC.valueType == Boolean
  {
    CommandVocabulary();
    assert Specs[..4] == [DefaultModel.DEFAULT_SPEC, DefaultModel.RUNNING_SPEC, WORK_STATUS_SPEC, RETURN_HOME_SPEC];
    DuplicateCodeAt(Specs, 3, 4);
  }

}
