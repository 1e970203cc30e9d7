/** The constant record `WorkStatus` (src/api/work-status.ts): the work states a model may report, as `{id, friendly_message}` pairs. */
module WorkStatuses {
  import opened RobovacCommand
  import JsEntries

  const UNKNOWN := ValueMapping(0, "Unknown")
  const RUNNING := ValueMapping(1, "Running")
  const PAUSED := ValueMapping(2, "Paused")
  const STANDBY := ValueMapping(3, "Standby")
  const SLEEPING := ValueMapping(4, "Sleeping")
  const CHARGING := ValueMapping(5, "Charging")
  const CHARGING_COMPLETED := ValueMapping(6, "Charging completed")
  const RECHARGE_NEEDED := ValueMapping(7, "Recharge needed")
  const ROOM_CLEANING := ValueMapping(8, "Room cleaning")
  const ROOM_POSITIONING := ValueMapping(9, "Room positioning")
  const RETURNING_HOME := ValueMapping(10, "Returning home")
  const ADDING_WATER := ValueMapping(11, "Adding water")
  const DRYING_MOP := ValueMapping(12, "Drying mop")
  const WASHING_MOP := ValueMapping(13, "Washing mop")
  const REMOVING_WATER := ValueMapping(14, "Removing dirty water")
  const MANUAL_CONTROL := ValueMapping(15, "Manual control")
  const EMPTYING_DUST := ValueMapping(16, "Emptying dust")
  const AUTO_CLEANING := ValueMapping(17, "Auto cleaning")
  const TEMPORARY_RETURN := ValueMapping(18, "Temporary return")
  const SPOT_POSITIONING := ValueMapping(19, "Spot positioning")
  const ERROR := ValueMapping(99, "Error")

  /** The record's properties in declaration order. */
  const Entries: JsEntries.Entries<ValueMapping> := [
    ("UNKNOWN", UNKNOWN),
    ("RUNNING", RUNNING),
    ("PAUSED", PAUSED),
    ("STANDBY", STANDBY),
    ("SLEEPING", SLEEPING),
    ("CHARGING", CHARGING),
    ("CHARGING_COMPLETED", CHARGING_COMPLETED),
    ("RECHARGE_NEEDED", RECHARGE_NEEDED),
    ("ROOM_CLEANING", ROOM_CLEANING),
    ("ROOM_POSITIONING", ROOM_POSITIONING),
    ("RETURNING_HOME", RETURNING_HOME),
    ("ADDING_WATER", ADDING_WATER),
    ("DRYING_MOP", DRYING_MOP),
    ("WASHING_MOP", WASHING_MOP),
    ("REMOVING_WATER", REMOVING_WATER),
    ("MANUAL_CONTROL", MANUAL_CONTROL),
    ("EMPTYING_DUST", EMPTYING_DUST),
    ("AUTO_CLEANING", AUTO_CLEANING),
    ("TEMPORARY_RETURN", TEMPORARY_RETURN),
    ("SPOT_POSITIONING", SPOT_POSITIONING),
    ("ERROR", ERROR)
  ]

  /** 21 entries whose ids are, in order, 0, 1, 2, 3, 4, 5, 6, 7, 8, 9, 10, 11, 12, 13, 14, 15, 16, 17, 18, 19, 99. */
  lemma TableShape()
    ensures |Entries| == 21
    ensures RecordIds(Entries) == [0, 1, 2, 3, 4, 5, 6, 7, 8, 9, 10, 11, 12, 13, 14, 15, 16, 17, 18, 19, 99]
    ensures forall i, j :: 0 <= i < j < |Entries| ==> Entries[i].1.id != Entries[j].1.id
  {
    assert RecordIds(Entries) == [0, 1, 2, 3, 4, 5, 6, 7, 8, 9, 10, 11, 12, 13, 14, 15, 16, 17, 18, 19, 99];
    assert forall i :: 0 <= i < 20 ==> RecordIds(Entries)[i] == i;
  }

  /** The friendly messages, in order. */
  lemma TableMessages()
    ensures RecordMessages(Entries) == ["Unknown", "Running", "Paused", "Standby", "Sleeping", "Charging", "Charging completed", "Recharge needed", "Room cleaning", "Room positioning", "Returning home", "Adding water", "Drying mop", "Washing mop", "Removing dirty water", "Manual control", "Emptying dust", "Auto cleaning", "Temporary return", "Spot positioning", "Error"]
  {
    assert RecordMessages(Entries) == ["Unknown", "Running", "Paused", "Standby", "Sleeping", "Charging", "Charging completed", "Recharge needed", "Room cleaning", "Room positioning", "Returning home", "Adding water", "Drying mop", "Washing mop", "Removing dirty water", "Manual control", "Emptying dust", "Auto cleaning", "Temporary return", "Spot positioning", "Error"];
  }

  /** The property names, in declaration order. */
  const NAMES: seq<string> := ["UNKNOWN", "RUNNING", "PAUSED", "STANDBY", "SLEEPING", "CHARGING", "CHARGING_COMPLETED", "RECHARGE_NEEDED", "ROOM_CLEANING", "ROOM_POSITIONING", "RETURNING_HOME", "ADDING_WATER", "DRYING_MOP", "WASHING_MOP", "REMOVING_WATER", "MANUAL_CONTROL", "EMPTYING_DUST", "AUTO_CLEANING", "TEMPORARY_RETURN", "SPOT_POSITIONING", "ERROR"]

  lemma NamesDistinctRows0()
    ensures forall i, j :: 0 <= i < 3 && i < j < |NAMES| ==> NAMES[i] != NAMES[j]
  {
  }

  lemma NamesDistinctRows1()
    ensures forall i, j :: 3 <= i < 6 && i < j < |NAMES| ==> NAMES[i] != NAMES[j]
  {
  }

  lemma NamesDistinctRows2()
    ensures forall i, j :: 6 <= i < 11 && i < j < |NAMES| ==> NAMES[i] != NAMES[j]
  {
  }

  lemma NamesDistinctRows3()
    ensures forall i, j :: 11 <= i < 21 && i < j < |NAMES| ==> NAMES[i] != NAMES[j]
  {
  }

  /** No two properties share a name. */
  lemma NamesDistinct()
    ensures JsEntries.DistinctKeys(Entries)
  {
    NamesDistinctRows0();
    NamesDistinctRows1();
    NamesDistinctRows2();
    NamesDistinctRows3();
    assert JsEntries.KeysOf(Entries) == NAMES;
    forall i, j | 0 <= i < j < |Entries| ensures Entries[i].0 != Entries[j].0 {
      assert Entries[i].0 == NAMES[i] && Entries[j].0 == NAMES[j];
    }
  }
}
