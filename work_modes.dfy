/** The constant record `WorkMode` (src/api/work-mode.ts): the cleaning modes, as `{id, friendly_message}` pairs. */
module WorkModes {
  import opened RobovacCommand
  import JsEntries

  const UNKNOWN := ValueMapping(0, "unknown")
  const AUTO := ValueMapping(1, "auto")
  const SMALL_ROOM := ValueMapping(2, "small room")
  const SPOT := ValueMapping(3, "spot")
  const EDGE := ValueMapping(4, "edge")
  const NO_SWEEP := ValueMapping(5, "no sweep")
  const PAUSE := ValueMapping(6, "pause")
  const RETURN_HOME := ValueMapping(7, "return home")
  const VACUUM_AND_MOP := ValueMapping(8, "vacuum and mop")
  const STANDBY := ValueMapping(9, "standby")
  const SINGLE_ROOM := ValueMapping(10, "single room")

  /** The record's properties in declaration order. */
  const Entries: JsEntries.Entries<ValueMapping> := [
    ("UNKNOWN", UNKNOWN),
    ("AUTO", AUTO),
    ("SMALL_ROOM", SMALL_ROOM),
    ("SPOT", SPOT),
    ("EDGE", EDGE),
    ("NO_SWEEP", NO_SWEEP),
    ("PAUSE", PAUSE),
    ("RETURN_HOME", RETURN_HOME),
    ("VACUUM_AND_MOP", VACUUM_AND_MOP),
    ("STANDBY", STANDBY),
    ("SINGLE_ROOM", SINGLE_ROOM)
  ]

  /** 11 entries whose ids are, in order, 0, 1, 2, 3, 4, 5, 6, 7, 8, 9, 10. */
  lemma TableShape()
    ensures |Entries| == 11
    ensures RecordIds(Entries) == [0, 1, 2, 3, 4, 5, 6, 7, 8, 9, 10]
    ensures forall i, j :: 0 <= i < j < |Entries| ==> Entries[i].1.id != Entries[j].1.id
  {
    assert RecordIds(Entries) == [0, 1, 2, 3, 4, 5, 6, 7, 8, 9, 10];
  }

  /** The friendly messages, in order. */
  lemma TableMessages()
    ensures RecordMessages(Entries) == ["unknown", "auto", "small room", "spot", "edge", "no sweep", "pause", "return home", "vacuum and mop", "standby", "single room"]
  {
    assert RecordMessages(Entries) == ["unknown", "auto", "small room", "spot", "edge", "no sweep", "pause", "return home", "vacuum and mop", "standby", "single room"];
  }

  /** No two properties share a name. */
  lemma NamesDistinct()
    ensures JsEntries.DistinctKeys(Entries)
  {
    assert JsEntries.KeysOf(Entries) == ["UNKNOWN", "AUTO", "SMALL_ROOM", "SPOT", "EDGE", "NO_SWEEP", "PAUSE", "RETURN_HOME", "VACUUM_AND_MOP", "STANDBY", "SINGLE_ROOM"];
  }
}
