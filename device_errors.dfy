/** The constant record `DeviceError` (src/api/device-errors.ts): the error conditions a model may report, as `{id, friendly_message}` pairs. */
module DeviceErrors {
  import opened Wrappers
  import opened RobovacCommand
  import JsEntries

  const NO_ERROR := ValueMapping(0, "No error")
  const STUCK_5_MIN := ValueMapping(101, "The robovac is stuck for more than 5 minutes")
  const CRASH_BAR_STUCK := ValueMapping(102, "The crash bar is stuck")
  const SENSOR_DIRTY := ValueMapping(103, "A sensor is dirty")
  const NOT_ENOUGH_POWER := ValueMapping(104, "The robovac does not have enough power")
  const WHEEL_STUCK := ValueMapping(105, "A wheel is stuck")
  const S_BRUSH_STUCK := ValueMapping(106, "The side brush is stuck")
  const R_BRUSH_STUCK := ValueMapping(107, "The rolling brush is stuck")
  const FAN_STUCK := ValueMapping(108, "The fan is stuck")

  /** The record's properties in declaration order. */
  const Entries: JsEntries.Entries<ValueMapping> := [
    ("NO_ERROR", NO_ERROR),
    ("STUCK_5_MIN", STUCK_5_MIN),
    ("CRASH_BAR_STUCK", CRASH_BAR_STUCK),
    ("SENSOR_DIRTY", SENSOR_DIRTY),
    ("NOT_ENOUGH_POWER", NOT_ENOUGH_POWER),
    ("WHEEL_STUCK", WHEEL_STUCK),
    ("S_BRUSH_STUCK", S_BRUSH_STUCK),
    ("R_BRUSH_STUCK", R_BRUSH_STUCK),
    ("FAN_STUCK", FAN_STUCK)
  ]

  /** `DeviceError[name]`: a property that the record does not define reads as undefined. */
  function Field(name: string): (r: Option<ValueMapping>)
    ensures r.Some? <==> JsEntries.HasKey(Entries, name)
  {
    JsEntries.Get(Entries, name)
  }

  /** 9 entries whose ids are, in order, 0, 101, 102, 103, 104, 105, 106, 107, 108. */
  lemma TableShape()
    ensures |Entries| == 9
    ensures RecordIds(Entries) == [0, 101, 102, 103, 104, 105, 106, 107, 108]
    ensures forall i, j :: 0 <= i < j < |Entries| ==> Entries[i].1.id != Entries[j].1.id
  {
    assert RecordIds(Entries) == [0, 101, 102, 103, 104, 105, 106, 107, 108];
  }

  /** The friendly messages, in order. */
  lemma TableMessages()
    ensures RecordMessages(Entries) == ["No error", "The robovac is stuck for more than 5 minutes", "The crash bar is stuck", "A sensor is dirty", "The robovac does not have enough power", "A wheel is stuck", "The side brush is stuck", "The rolling brush is stuck", "The fan is stuck"]
  {
    assert RecordMessages(Entries) == ["No error", "The robovac is stuck for more than 5 minutes", "The crash bar is stuck", "A sensor is dirty", "The robovac does not have enough power", "A wheel is stuck", "The side brush is stuck", "The rolling brush is stuck", "The fan is stuck"];
  }

  /** No two properties share a name. */
  lemma NamesDistinct()
    ensures JsEntries.DistinctKeys(Entries)
  {
    assert JsEntries.KeysOf(Entries) == ["NO_ERROR", "STUCK_5_MIN", "CRASH_BAR_STUCK", "SENSOR_DIRTY", "NOT_ENOUGH_POWER", "WHEEL_STUCK", "S_BRUSH_STUCK", "R_BRUSH_STUCK", "FAN_STUCK"];
  }

  /** The brush errors are named S_BRUSH_STUCK and R_BRUSH_STUCK; SIDE_BRUSH_STUCK and ROLLER_BRUSH_STUCK read as undefined. */
  lemma MissingBrushKeys()
    ensures Field("S_BRUSH_STUCK") == Some(S_BRUSH_STUCK) && Field("R_BRUSH_STUCK") == Some(R_BRUSH_STUCK)
    ensures Field("SIDE_BRUSH_STUCK").None? && Field("ROLLER_BRUSH_STUCK").None?
  {
    NamesDistinct();
    JsEntries.GetDistinct(Entries, 6);
    JsEntries.GetDistinct(Entries, 7);
    assert JsEntries.KeysOf(Entries) == ["NO_ERROR", "STUCK_5_MIN", "CRASH_BAR_STUCK", "SENSOR_DIRTY", "NOT_ENOUGH_POWER", "WHEEL_STUCK", "S_BRUSH_STUCK", "R_BRUSH_STUCK", "FAN_STUCK"];
  }
}
