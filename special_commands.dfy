/** The constant record `SpecialCommand` (src/api/special-command.ts): the special commands, as `{id, friendly_message}` pairs. */
module SpecialCommands {
  import opened RobovacCommand
  import JsEntries

  const RETURN_HOME := ValueMapping(0, "Return home")
  const FIND_ROBOT := ValueMapping(1, "Find robot")

  /** The record's properties in declaration order. */
  const Entries: JsEntries.Entries<ValueMapping> := [
    ("RETURN_HOME", RETURN_HOME),
    ("FIND_ROBOT", FIND_ROBOT)
  ]

  /** 2 entries whose ids are, in order, 0, 1. */
  lemma TableShape()
    ensures |Entries| == 2
    ensures RecordIds(Entries) == [0, 1]
    ensures forall i, j :: 0 <= i < j < |Entries| ==> Entries[i].1.id != Entries[j].1.id
  {
    assert RecordIds(Entries) == [0, 1];
  }

  /** The friendly messages, in order. */
  lemma TableMessages()
    ensures RecordMessages(Entries) == ["Return home", "Find robot"]
  {
    assert RecordMessages(Entries) == ["Return home", "Find robot"];
  }

  /** No two properties share a name. */
  lemma NamesDistinct()
    ensures JsEntries.DistinctKeys(Entries)
  {
    assert JsEntries.KeysOf(Entries) == ["RETURN_HOME", "FIND_ROBOT"];
  }
}
