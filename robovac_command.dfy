/**
 * The command vocabulary (src/api/robovac-command.ts): the eleven semantic
 * commands, the three value kinds, command specs with their optional
 * string-value tables, the host values that travel over the wire, and the
 * messages of the two error classes.
 */
module RobovacCommand {
  import opened Wrappers
  import opened JsEntries
  import JsText

  /** `enum RobovacCommand` */
  datatype Command =
    | Default | Running | Direction | WorkMode | WorkStatus | ReturnHome
    | FanSpeed | FindRobot | BatteryLevel | Error | SpecialCommand

  /** The string value of each member of the enum. */
  function CommandName(c: Command): string {
    match c
    case Default => "Default Property (ignore)"
    case Running => "Running"
    case Direction => "Direction"
    case WorkMode => "Work Mode"
    case WorkStatus => "Work Status"
    case ReturnHome => "Return Home"
    case FanSpeed => "Fan Speed"
    case FindRobot => "Find Robot"
    case BatteryLevel => "Battery Level"
    case Error => "Error"
    case SpecialCommand => "Special Command"
  }

  const AllCommands: set<Command> :=
    {Default, Running, Direction, WorkMode, WorkStatus, ReturnHome, FanSpeed, FindRobot, BatteryLevel, Error, SpecialCommand}

  /** The enum has exactly eleven members, and their string values are pairwise distinct. */
  lemma CommandVocabulary()
    ensures forall c: Command :: c in AllCommands
    ensures |AllCommands| == 11
    ensures forall c1, c2 :: CommandName(c1) == CommandName(c2) ==> c1 == c2
  {
    forall c: Command ensures c in AllCommands {
      match c
      case Default =>
      case Running =>
      case Direction =>
      case WorkMode =>
      case WorkStatus =>
      case ReturnHome =>
      case FanSpeed =>
      case FindRobot =>
      case BatteryLevel =>
      case Error =>
      case SpecialCommand =>
    }
  }

  /** `enum RobovacCommandValueType`, a numeric enum. */
  datatype ValueType = Boolean | Number | String

  function Ordinal(t: ValueType): nat {
    match t
    case Boolean => 0
    case Number => 1
    case String => 2
  }

  /** The enum has exactly three kinds, numbered 0, 1 and 2. */
  lemma ValueTypeOrdinals()
    ensures Ordinal(Boolean) == 0 && Ordinal(Number) == 1 && Ordinal(String) == 2
  {
  }

  /** `interface StringCommandValueMapping` */
  datatype ValueMapping = ValueMapping(id: int, friendlyMessage: string)

  /**
   * What a string-value table maps a raw token to. The declared type is a
   * mapping, but several tables hold plain strings instead.
   */
  datatype TableValue = Mapped(mapping: ValueMapping) | Plain(text: string)

  /** A property of a constant record written into a table: a property the record lacks is undefined there too. */
  function Defined(m: Option<ValueMapping>): (r: Option<TableValue>)
    ensures r.None? <==> m.None?
    ensures m.Some? ==> r == Some(Mapped(m.value))
  {
    match m
    case None => None
    case Some(v) => Some(Mapped(v))
  }

  /** The ids of a constant value record's properties, in declaration order. */
  function RecordIds(record: Entries<ValueMapping>): (r: seq<int>)
    ensures |r| == |record| && forall i :: 0 <= i < |record| ==> r[i] == record[i].1.id
  {
    seq(|record|, i requires 0 <= i < |record| => record[i].1.id)
  }

  /** The friendly messages of a constant value record's properties, in declaration order. */
  function RecordMessages(record: Entries<ValueMapping>): (r: seq<string>)
    ensures |r| == |record| && forall i :: 0 <= i < |record| ==> r[i] == record[i].1.friendlyMessage
  {
    seq(|record|, i requires 0 <= i < |record| => record[i].1.friendlyMessage)
  }

  /** `Record<string, StringCommandValueMapping>`; a None value is an entry that is `undefined`. */
  type StringTable = Entries<Option<TableValue>>

  /** `interface RobovacCommandSpec`; `stringValues` is optional. */
  datatype CommandSpec = CommandSpec(command: Command, code: int, valueType: ValueType, stringValues: Option<StringTable>)

  /** The JavaScript values that the plugin reads from and writes to the wire and the status. */
  datatype JsValue =
    | JsBoolean(b: bool)
    | JsNumber(n: int)
    | JsString(s: string)
    | JsNull
    | JsMapping(mapping: ValueMapping)
    | JsObjectFunction    // the `Object` function, inherited by every plain object as `constructor`
    | JsObjectPrototype   // `Object.prototype`, inherited by every plain object as `__proto__`

  /** `typeof v` */
  function TypeOf(v: JsValue): string {
    match v
    case JsBoolean(_) => "boolean"
    case JsNumber(_) => "number"
    case JsString(_) => "string"
    case JsNull => "object"
    case JsMapping(_) => "object"
    case JsObjectFunction => "function"
    case JsObjectPrototype => "object"
  }

  /** Whether `v` passes the `typeof` check for a value kind. */
  predicate HasKind(v: JsValue, t: ValueType) {
    match t
    case Boolean => v.JsBoolean?
    case Number => v.JsNumber?
    case String => v.JsString?
  }

  lemma HasKindIsTypeOf(v: JsValue, t: ValueType)
    ensures HasKind(v, t) <==> TypeOf(v) == KindName(t)
  {
  }

  /** The `typeof` name of the host values of a kind. */
  function KindName(t: ValueType): string {
    match t
    case Boolean => "boolean"
    case Number => "number"
    case String => "string"
  }

  /** What the status holds for a table value. */
  function ToJs(v: TableValue): (r: JsValue)
    ensures v.Mapped? ==> r == JsMapping(v.mapping)
    ensures v.Plain? ==> r == JsString(v.text)
  {
    match v
    case Mapped(m) => JsMapping(m)
    case Plain(s) => JsString(s)
  }

  /** JavaScript truthiness of a possibly undefined value. */
  predicate Truthy(v: Option<JsValue>) {
    match v
    case None => false
    case Some(JsBoolean(b)) => b
    case Some(JsNumber(n)) => n != 0
    case Some(JsString(s)) => s != ""
    case Some(JsNull) => false
    case Some(JsMapping(_)) => true
    case Some(JsObjectFunction) => true
    case Some(JsObjectPrototype) => true
  }

  function DigitChar(d: nat): (r: char)
    requires d < 10
    ensures '0' <= r <= '9'
  {
    "0123456789"[d]
  }

  /** The decimal text of a natural number. */
  function NatText(n: nat): (r: string)
    ensures |r| > 0 && forall i :: 0 <= i < |r| ==> '0' <= r[i] <= '9'
  {
    if n < 10 then [DigitChar(n)] else NatText(n / 10) + [DigitChar(n % 10)]
  }

  /** `JSON.stringify(n)` for an integer. */
  function NumberText(n: int): (r: string)
    ensures |r| > 0 && (r[0] == '-' <==> n < 0)
    ensures forall i :: 0 < i < |r| ==> '0' <= r[i] <= '9'
    ensures n >= 0 ==> r == NatText(n)
    ensures n < 0 ==> r == "-" + NatText(-n)
  {
    if n >= 0 then NatText(n) else "-" + NatText(-n)
  }

  /** The value of the digits of `s`. */
  function DigitsValue(s: string): nat
    requires forall i :: 0 <= i < |s| ==> '0' <= s[i] <= '9'
  {
    if s == [] then 0 else DigitsValue(s[..|s| - 1]) * 10 + (s[|s| - 1] as int - '0' as int)
  }

  /** The decimal text reads back as the number it was made from. */
  lemma {:induction false} NatTextRoundTrip(n: nat)
    ensures DigitsValue(NatText(n)) == n
  {
    if n >= 10 {
      NatTextRoundTrip(n / 10);
      var s := NatText(n);
      assert s[..|s| - 1] == NatText(n / 10);
    }
  }

  /** The model phrase of both error messages; an empty id is falsy and counts as absent. */
  function ModelPhrase(modelId: Option<string>): (r: string)
    ensures modelId.Some? && modelId.value != "" ==> r == "RoboVac model " + modelId.value
    ensures modelId.None? || modelId.value == "" ==> r == "this model"
  {
    if modelId.Some? && modelId.value != "" then "RoboVac model " + modelId.value else "this model"
  }

  /** The message of `CommandNotSupportedError`. */
  function CommandNotSupportedMessage(command: Command, modelId: Option<string>): (r: string)
    ensures |r| > 8 && r[..8] == "Command "
    ensures modelId.Some? && modelId.value != "" ==>
      |r| >= |modelId.value| + 15 && r[|r| - |modelId.value| - 15..] == "RoboVac model " + modelId.value + "."
    ensures modelId.None? || modelId.value == "" ==> |r| >= 11 && r[|r| - 11..] == "this model."
  {
    var phrase := ModelPhrase(modelId);
    var r := "Command " + CommandName(command) + " is not supported for " + phrase + ".";
    assert r[|r| - |phrase| - 1..] == phrase + ".";
    r
  }

  /** The values `ValueNotSupportedError` is declared to take: a boolean, a number, a mapping or undefined. */
  predicate IsReportableValue(value: Option<JsValue>) {
    value.None? || value.value.JsBoolean? || value.value.JsNumber? || value.value.JsMapping?
  }

  /** How `ValueNotSupportedError` shows the value: an object by its friendly message, the rest as JSON text. */
  function ValueText(value: Option<JsValue>): (r: string)
    requires IsReportableValue(value)
    ensures value.Some? && value.value.JsMapping? ==> r == value.value.mapping.friendlyMessage
    ensures value.None? ==> r == "undefined"
    ensures value.Some? && value.value.JsBoolean? ==> r == if value.value.b then "true" else "false"
    ensures value.Some? && value.value.JsNumber? ==> r == NumberText(value.value.n)
  {
    match value
    case None => "undefined"
    case Some(JsMapping(m)) => m.friendlyMessage
    case Some(JsBoolean(b)) => if b then "true" else "false"
    case Some(JsNumber(n)) => NumberText(n)
  }

  /** The message of `ValueNotSupportedError`. */
  function ValueNotSupportedMessage(value: Option<JsValue>, command: Command, modelId: Option<string>): (r: string)
    requires IsReportableValue(value)
    ensures var head := "Value " + ValueText(value) + " for command " + CommandName(command) + " is not supported for ";
      |r| > |head| && r[..|head|] == head && r[|head|..] == ModelPhrase(modelId) + "."
  {
    "Value " + ValueText(value) + " for command " + CommandName(command) + " is not supported for " + ModelPhrase(modelId) + "."
  }

  /** Where the parts of a text built as `a + v + b + n + c + p + d` start. */
  lemma MessageParts(a: string, v: string, b: string, n: string, c: string, p: string, d: string)
    ensures var r := a + v + b + n + c + p + d;
      JsText.OccursAt(v, r, |a|) && JsText.OccursAt(n, r, |a| + |v| + |b|) &&
      JsText.OccursAt(p, r, |r| - |p| - |d|)
  {
    var r := a + v + b + n + c + p + d;
    assert r[|a|..|a| + |v|] == v;
    assert r[|a| + |v| + |b|..|a| + |v| + |b| + |n|] == n;
    assert r[|r| - |p| - |d|..|r| - |d|] == p;
  }

  /** The message names the value, the command and, when it has one, the model. */
  lemma ValueNotSupportedNames(value: Option<JsValue>, command: Command, modelId: Option<string>)
    requires IsReportableValue(value)
    ensures var r := ValueNotSupportedMessage(value, command, modelId);
      JsText.OccursAt(ValueText(value), r, 6) &&
      JsText.OccursAt(CommandName(command), r, 19 + |ValueText(value)|) &&
      (modelId.Some? && modelId.value != "" ==> JsText.OccursAt(modelId.value, r, |r| - |modelId.value| - 1))
  {
    MessageParts("Value ", ValueText(value), " for command ", CommandName(command), " is not supported for ", ModelPhrase(modelId), ".");
    if modelId.Some? && modelId.value != "" {
      var r := ValueNotSupportedMessage(value, command, modelId);
      JsText.OccursAtEnd("RoboVac model ", modelId.value, r, |r| - |ModelPhrase(modelId)| - 1);
    }
  }
}
