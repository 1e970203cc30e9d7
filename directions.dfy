/** The constant record `Direction` (src/api/direction.ts): the manual driving directions, as `{id, friendly_message}` pairs. */
module Directions {
  import opened RobovacCommand
  import JsEntries

  const FORWARD := ValueMapping(0, "forwards")
  const LEFT := ValueMapping(1, "left")
  const RIGHT := ValueMapping(2, "right")
  const BACK := ValueMapping(3, "backwards")
  const BRAKE := ValueMapping(4, "brake")

  /** The record's properties in declaration order. */
  const Entries: JsEntries.Entries<ValueMapping> := [
    ("FORWARD", FORWARD),
    ("LEFT", LEFT),
    ("RIGHT", RIGHT),
    ("BACK", BACK),
    ("BRAKE", BRAKE)
  ]

  /** 5 entries whose ids are, in order, 0, 1, 2, 3, 4. */
  lemma TableShape()
    ensures |Entries| == 5
    ensures RecordIds(Entries) == [0, 1, 2, 3, 4]
    ensures forall i, j :: 0 <= i < j < |Entries| ==> Entries[i].1.id != Entries[j].1.id
  {
    assert RecordIds(Entries) == [0, 1, 2, 3, 4];
  }

  /** The friendly messages, in order. */
  lemma TableMessages()
    ensures RecordMessages(Entries) == ["forwards", "left", "right", "backwards", "brake"]
  {
    assert RecordMessages(Entries) == ["forwards", "left", "right", "backwards", "brake"];
  }

  /** No two properties share a name. */
  lemma NamesDistinct()
    ensures JsEntries.DistinctKeys(Entries)
  {
    assert JsEntries.KeysOf(Entries) == ["FORWARD", "LEFT", "RIGHT", "BACK", "BRAKE"];
  }
}
