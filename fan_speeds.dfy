/** The constant record `FanSpeed` (src/api/fan-speed.ts): the suction levels, as `{id, friendly_message}` pairs. */
module FanSpeeds {
  import opened RobovacCommand
  import JsEntries

  const STANDARD := ValueMapping(0, "Standard")
  const BOOST_IQ := ValueMapping(1, "Boost IQ")
  const NO_SUCTION := ValueMapping(2, "No Suction")
  const MAX := ValueMapping(3, "Max")
  const TURBO := ValueMapping(4, "Max")
  const QUIET := ValueMapping(5, "Max")

  /** The record's properties in declaration order. */
  const Entries: JsEntries.Entries<ValueMapping> := [
    ("STANDARD", STANDARD),
    ("BOOST_IQ", BOOST_IQ),
    ("NO_SUCTION", NO_SUCTION),
    ("MAX", MAX),
    ("TURBO", TURBO),
    ("QUIET", QUIET)
  ]

  /** 6 entries whose ids are, in order, 0, 1, 2, 3, 4, 5. */
  lemma TableShape()
    ensures |Entries| == 6
    ensures RecordIds(Entries) == [0, 1, 2, 3, 4, 5]
    ensures forall i, j :: 0 <= i < j < |Entries| ==> Entries[i].1.id != Entries[j].1.id
  {
    assert RecordIds(Entries) == [0, 1, 2, 3, 4, 5];
  }

  /** The friendly messages, in order. */
  lemma TableMessages()
    ensures RecordMessages(Entries) == ["Standard", "Boost IQ", "No Suction", "Max", "Max", "Max"]
  {
    assert RecordMessages(Entries) == ["Standard", "Boost IQ", "No Suction", "Max", "Max", "Max"];
  }

  /** No two properties share a name. */
  lemma NamesDistinct()
    ensures JsEntries.DistinctKeys(Entries)
  {
    assert JsEntries.KeysOf(Entries) == ["STANDARD", "BOOST_IQ", "NO_SUCTION", "MAX", "TURBO", "QUIET"];
  }
}
