/**
 * `RobovacModelDetails` (src/api/model_details/robovac-model-details.ts): the
 * command specs of one RoboVac model, indexed by semantic command and by wire
 * code. The constructor lower-cases the keys of every string-value table and
 * throws on a second spec for a command or a code that is already indexed.
 * Nothing changes an object of this class after its constructor returns, so a
 * constructed object is a value here, and the constructor is a method that
 * either yields it or fails with the error it throws.
 */
module RobovacModelDetails {
  import opened Wrappers
  import opened JsText
  import opened JsEntries
  import opened RobovacCommand

  /** A constructed object: its two readonly fields and its two private indices. */
  datatype ModelDetails = ModelDetails(
    modelId: string,
    modelName: string,
    byCommand: map<Command, CommandSpec>,
    byCode: map<int, CommandSpec>)

  /** The two `Error`s the constructor throws. */
  datatype DuplicateError =
    | DuplicateCommand(command: Command, existingCode: int, duplicateCode: int)
    | DuplicateCode(code: int, existingCommand: Command, duplicateCommand: Command)

  /** The two indices while the constructor fills them. */
  datatype Indices = Indices(byCommand: map<Command, CommandSpec>, byCode: map<int, CommandSpec>)

  // ---------------------------------------------------------------------------
  // Key normalisation
  // ---------------------------------------------------------------------------

  /** `Object.entries(t).map(([k, v]) => [k.toLowerCase(), v])` */
  function LowerKeys<V>(t: Entries<V>): (r: Entries<V>)
    ensures |r| == |t| && forall i :: 0 <= i < |t| ==> r[i] == (Lower(t[i].0), t[i].1)
  {
    seq(|t|, i requires 0 <= i < |t| => (Lower(t[i].0), t[i].1))
  }

  /** The stored copy of a string-value table: `Object.fromEntries` of the lower-cased entries. */
  function NormalizeTable(t: StringTable): StringTable {
    FromEntries(LowerKeys(t))
  }

  /** The stored copy of a spec: `{...spec, stringValues: ...}` rebuilds only the table. */
  function Normalize(spec: CommandSpec): (r: CommandSpec)
    ensures r.command == spec.command && r.code == spec.code && r.valueType == spec.valueType
    ensures r.stringValues.Some? <==> spec.stringValues.Some?
  {
    spec.(stringValues := if spec.stringValues.Some? then Some(NormalizeTable(spec.stringValues.value)) else None)
  }

  /** The stored table has a key exactly for the lower-case form of each source key. */
  lemma NormalizeTableKeys(t: StringTable, k: string)
    ensures HasKey(NormalizeTable(t), k) <==> exists i :: 0 <= i < |t| && Lower(t[i].0) == k
  {
    var es := LowerKeys(t);
    FromEntriesKeys(es, k);
    if HasKey(es, k) {
      var i :| 0 <= i < |es| && es[i].0 == k;
      assert Lower(t[i].0) == k;
    }
    if exists i :: 0 <= i < |t| && Lower(t[i].0) == k {
      var i :| 0 <= i < |t| && Lower(t[i].0) == k;
      assert es[i].0 == k;
    }
  }

  /** Every stored key is in lower case, and the stored table has one entry per key. */
  lemma NormalizeTableLower(t: StringTable)
    ensures DistinctKeys(NormalizeTable(t))
    ensures forall i :: 0 <= i < |NormalizeTable(t)| ==> IsLower(NormalizeTable(t)[i].0)
  {
    var r := NormalizeTable(t);
    FromEntriesDistinct(LowerKeys(t));
    forall i | 0 <= i < |r| ensures IsLower(r[i].0) {
      assert HasKey(r, r[i].0);
      NormalizeTableKeys(t, r[i].0);
    }
  }

  /**
   * A source key is found under its lower-case form with its own value, unless
   * a later key differs from it only in case, whose value then wins.
   */
  lemma NormalizeTableLookup(t: StringTable, i: nat)
    requires i < |t|
    requires forall j :: i < j < |t| ==> Lower(t[j].0) != Lower(t[i].0)
    ensures Get(NormalizeTable(t), Lower(t[i].0)) == Some(t[i].1)
  {
    var es := LowerKeys(t);
    FromEntriesGet(es, es[i].0);
    LastValueAt(es, i);
  }

  /** A table whose lower-cased keys are distinct is stored as its lower-cased entries, in order. */
  lemma NormalizeTableOfDistinct(t: StringTable)
    requires DistinctKeys(LowerKeys(t))
    ensures NormalizeTable(t) == LowerKeys(t)
  {
    FromEntriesOfDistinct(LowerKeys(t));
  }

  /** Storing a stored spec again changes nothing. */
  lemma NormalizeIdempotent(spec: CommandSpec)
    ensures Normalize(Normalize(spec)) == Normalize(spec)
  {
    if spec.stringValues.Some? {
      var r := NormalizeTable(spec.stringValues.value);
      NormalizeTableLower(spec.stringValues.value);
      forall i | 0 <= i < |r| ensures LowerKeys(r)[i] == r[i] {
        LowerOfLower(r[i].0);
      }
      assert LowerKeys(r) == r;
      FromEntriesOfDistinct(r);
    }
  }

  // ---------------------------------------------------------------------------
  // The constructor
  // ---------------------------------------------------------------------------

  /** One turn of the constructor's loop: the command check, then the code check, then indexing. */
  function Insert(ix: Indices, originalCmd: CommandSpec): Result<Indices, DuplicateError> {
    var cmd := Normalize(originalCmd);
    if cmd.command in ix.byCommand then
      Failure(DuplicateCommand(cmd.command, ix.byCommand[cmd.command].code, cmd.code))
    else if cmd.code in ix.byCode then
      Failure(DuplicateCode(cmd.code, ix.byCode[cmd.code].command, cmd.command))
    else
      Success(Indices(ix.byCommand[cmd.command := cmd], ix.byCode[cmd.code := cmd]))
  }

  /** The indices after the loop has run over `specs`, or the error of the first duplicate. */
  function BuildIndices(specs: seq<CommandSpec>): Result<Indices, DuplicateError> {
    if specs == [] then Success(Indices(map[], map[]))
    else
      match BuildIndices(specs[..|specs| - 1])
      case Failure(e) => Failure(e)
      case Success(ix) => Insert(ix, specs[|specs| - 1])
  }

  /** `new RobovacModelDetails(modelId, modelName, commands)`, or the error it throws. */
  function Construct(modelId: string, modelName: string, commands: seq<CommandSpec>): Result<ModelDetails, DuplicateError> {
    match BuildIndices(commands)
    case Failure(e) => Failure(e)
    case Success(ix) => Success(ModelDetails(modelId, modelName, ix.byCommand, ix.byCode))
  }

  /** The constructor's loop over the command specs, with its early throws. */
  method NewModelDetails(modelId: string, modelName: string, commands: seq<CommandSpec>) returns (r: Result<ModelDetails, DuplicateError>)
    ensures r == Construct(modelId, modelName, commands)
  {
    var byCommand: map<Command, CommandSpec> := map[];
    var byCode: map<int, CommandSpec> := map[];
    var n := 0;
    while n < |commands|
      invariant 0 <= n <= |commands|
      invariant BuildIndices(commands[..n]) == Success(Indices(byCommand, byCode))
    {
      var originalCmd := commands[n];
      var cmd := originalCmd.(stringValues :=
        if originalCmd.stringValues.Some? then Some(FromEntries(LowerKeys(originalCmd.stringValues.value))) else None);
      assert commands[..n + 1][..n] == commands[..n];
      if cmd.command in byCommand {
        FailurePersists(commands, n + 1);
        return Failure(DuplicateCommand(cmd.command, byCommand[cmd.command].code, cmd.code));
      }
      if cmd.code in byCode {
        FailurePersists(commands, n + 1);
        return Failure(DuplicateCode(cmd.code, byCode[cmd.code].command, cmd.command));
      }
      byCommand := byCommand[cmd.command := cmd];
      byCode := byCode[cmd.code := cmd];
      n := n + 1;
    }
    assert commands[..n] == commands;
    r := Success(ModelDetails(modelId, modelName, byCommand, byCode));
  }

  /** `getCommandSpecByCommand`: undefined for a command without a spec. */
  function GetCommandSpecByCommand(d: ModelDetails, command: Command): (r: Option<CommandSpec>)
    ensures r.Some? <==> command in d.byCommand
  {
    if command in d.byCommand then Some(d.byCommand[command]) else None
  }

  /** `getCommandSpecByCode`: undefined for a code without a spec. */
  function GetCommandSpecByCode(d: ModelDetails, code: int): (r: Option<CommandSpec>)
    ensures r.Some? <==> code in d.byCode
  {
    if code in d.byCode then Some(d.byCode[code]) else None
  }

  /** The message of the thrown `Error`: it names the model, the clash and both sides of it. */
  function DuplicateMessage(modelId: string, modelName: string, e: DuplicateError): (r: string)
    ensures e.DuplicateCommand? ==>
      var tail := "Existing code=" + NumberText(e.existingCode) + ", duplicate code=" + NumberText(e.duplicateCode);
      |r| > |tail| && r[|r| - |tail|..] == tail
    ensures e.DuplicateCode? ==>
      var tail := "Existing command='" + CommandName(e.existingCommand) + "', duplicate command='" + CommandName(e.duplicateCommand) + "'";
      |r| > |tail| && r[|r| - |tail|..] == tail
  {
    var model := " in model '" + modelId + "' (" + modelName + "). ";
    match e
    case DuplicateCommand(c, existing, duplicate) =>
      var head := "Duplicate RobovacCommand spec for command '" + CommandName(c) + "'" + model;
      var tail := "Existing code=" + NumberText(existing) + ", duplicate code=" + NumberText(duplicate);
      assert (head + tail)[|head|..] == tail;
      head + tail
    case DuplicateCode(k, existing, duplicate) =>
      var head := "Duplicate RobovacCommand spec for code " + NumberText(k) + model;
      var tail := "Existing command='" + CommandName(existing) + "', duplicate command='" + CommandName(duplicate) + "'";
      assert (head + tail)[|head|..] == tail;
      head + tail
  }

  // ---------------------------------------------------------------------------
  // What the constructor guarantees
  // ---------------------------------------------------------------------------

  predicate CommandsDistinct(specs: seq<CommandSpec>) {
    forall i, j :: 0 <= i < j < |specs| ==> specs[i].command != specs[j].command
  }

  predicate CodesDistinct(specs: seq<CommandSpec>) {
    forall i, j :: 0 <= i < j < |specs| ==> specs[i].code != specs[j].code
  }

  /** Once a duplicate has thrown, the specs after it change nothing. */
  lemma {:induction false} FailurePersists(specs: seq<CommandSpec>, n: nat)
    requires n <= |specs|
    requires BuildIndices(specs[..n]).Failure?
    ensures BuildIndices(specs) == BuildIndices(specs[..n])
    decreases |specs| - n
  {
    if n < |specs| {
      assert specs[..n + 1][..n] == specs[..n];
      FailurePersists(specs, n + 1);
    } else {
      assert specs[..n] == specs;
    }
  }

  /** After a successful loop the indices hold exactly the commands and the codes of the specs. */
  lemma {:induction false} BuildKeys(specs: seq<CommandSpec>)
    requires BuildIndices(specs).Success?
    ensures var ix := BuildIndices(specs).value;
      (forall c :: c in ix.byCommand <==> exists i :: 0 <= i < |specs| && specs[i].command == c) &&
      (forall k :: k in ix.byCode <==> exists i :: 0 <= i < |specs| && specs[i].code == k)
  {
    if specs != [] {
      var init := specs[..|specs| - 1];
      BuildKeys(init);
      var ix := BuildIndices(init).value;
      var ix' := BuildIndices(specs).value;
      forall c ensures c in ix'.byCommand <==> exists i :: 0 <= i < |specs| && specs[i].command == c {
        if exists i :: 0 <= i < |specs| && specs[i].command == c {
          var i :| 0 <= i < |specs| && specs[i].command == c;
          if i < |init| {
            assert init[i].command == c;
          }
        }
        if c in ix.byCommand {
          var i :| 0 <= i < |init| && init[i].command == c;
          assert specs[i].command == c;
        }
      }
      forall k ensures k in ix'.byCode <==> exists i :: 0 <= i < |specs| && specs[i].code == k {
        if exists i :: 0 <= i < |specs| && specs[i].code == k {
          var i :| 0 <= i < |specs| && specs[i].code == k;
          if i < |init| {
            assert init[i].code == k;
          }
        }
        if k in ix.byCode {
          var i :| 0 <= i < |init| && init[i].code == k;
          assert specs[i].code == k;
        }
      }
    }
  }

  /** The commands of a spec list, in order. */
  function Commands(specs: seq<CommandSpec>): (r: seq<Command>)
    ensures |r| == |specs| && forall i :: 0 <= i < |specs| ==> r[i] == specs[i].command
  {
    seq(|specs|, i requires 0 <= i < |specs| => specs[i].command)
  }

  /** The codes of a spec list, in order. */
  function Codes(specs: seq<CommandSpec>): (r: seq<int>)
    ensures |r| == |specs| && forall i :: 0 <= i < |specs| ==> r[i] == specs[i].code
  {
    seq(|specs|, i requires 0 <= i < |specs| => specs[i].code)
  }

  /** The keys of the two indices, read off the columns of the spec list. */
  lemma BuildColumns(specs: seq<CommandSpec>)
    requires BuildIndices(specs).Success?
    ensures var ix := BuildIndices(specs).value;
      (forall c :: c in ix.byCommand <==> c in Commands(specs)) &&
      (forall k :: k in ix.byCode <==> k in Codes(specs))
  {
    BuildKeys(specs);
    var ix := BuildIndices(specs).value;
    forall c | c in Commands(specs) ensures c in ix.byCommand {
      var i :| 0 <= i < |specs| && Commands(specs)[i] == c;
    }
    forall k | k in Codes(specs) ensures k in ix.byCode {
      var i :| 0 <= i < |specs| && Codes(specs)[i] == k;
    }
  }

  /** After a successful loop each spec's command and code both map to the stored copy of that spec. */
  lemma {:induction false} BuildContents(specs: seq<CommandSpec>)
    requires BuildIndices(specs).Success?
    ensures var ix := BuildIndices(specs).value;
      forall i :: 0 <= i < |specs| ==>
        specs[i].command in ix.byCommand && ix.byCommand[specs[i].command] == Normalize(specs[i]) &&
        specs[i].code in ix.byCode && ix.byCode[specs[i].code] == Normalize(specs[i])
  {
    BuildKeys(specs);
    if specs != [] {
      var init := specs[..|specs| - 1];
      var last := specs[|specs| - 1];
      BuildKeys(init);
      BuildContents(init);
      var ix := BuildIndices(init).value;
      forall i | 0 <= i < |specs|
        ensures BuildIndices(specs).value.byCommand[specs[i].command] == Normalize(specs[i])
        ensures BuildIndices(specs).value.byCode[specs[i].code] == Normalize(specs[i])
      {
        if i < |init| {
          assert specs[i] == init[i];
          assert init[i].command in ix.byCommand && init[i].code in ix.byCode;
        }
      }
    }
  }

  /** The constructor returns iff no two specs share a command and no two share a code. */
  lemma {:induction false} BuildSucceeds(specs: seq<CommandSpec>)
    ensures BuildIndices(specs).Success? <==> CommandsDistinct(specs) && CodesDistinct(specs)
  {
    if specs != [] {
      var init := specs[..|specs| - 1];
      var last := specs[|specs| - 1];
      BuildSucceeds(init);
      assert CommandsDistinct(specs) && CodesDistinct(specs) ==> CommandsDistinct(init) && CodesDistinct(init) by {
        if CommandsDistinct(specs) && CodesDistinct(specs) {
          forall i, j | 0 <= i < j < |init| ensures init[i].command != init[j].command && init[i].code != init[j].code {
            assert init[i] == specs[i] && init[j] == specs[j];
          }
        }
      }
      if BuildIndices(init).Success? {
        BuildKeys(init);
        var ix := BuildIndices(init).value;
        if BuildIndices(specs).Success? {
          forall i, j | 0 <= i < j < |specs| ensures specs[i].command != specs[j].command && specs[i].code != specs[j].code {
            if j == |specs| - 1 {
              assert init[i].command in ix.byCommand && init[i].code in ix.byCode;
            } else {
              assert specs[i] == init[i] && specs[j] == init[j];
            }
          }
        }
      }
    }
  }

  /**
   * A spec whose command was already indexed throws the command error, naming
   * the code of the earlier spec and its own.
   */
  lemma DuplicateCommandAt(specs: seq<CommandSpec>, j: nat, n: nat)
    requires j < n < |specs|
    requires CommandsDistinct(specs[..n]) && CodesDistinct(specs[..n])
    requires specs[j].command == specs[n].command
    ensures BuildIndices(specs) == Failure(DuplicateCommand(specs[n].command, specs[j].code, specs[n].code))
  {
    var init := specs[..n];
    BuildSucceeds(init);
    BuildContents(init);
    var ix := BuildIndices(init).value;
    assert init[j] == specs[j];
    assert ix.byCommand[specs[n].command] == Normalize(specs[j]);
    var prefix := specs[..n + 1];
    assert prefix[..n] == init && prefix[n] == specs[n];
    assert BuildIndices(prefix) == Insert(ix, specs[n]);
    FailurePersists(specs, n + 1);
  }

  /**
   * A spec whose command is new but whose code was already indexed throws the
   * code error, naming the command of the earlier spec and its own.
   */
  lemma DuplicateCodeAt(specs: seq<CommandSpec>, j: nat, n: nat)
    requires j < n < |specs|
    requires CommandsDistinct(specs[..n]) && CodesDistinct(specs[..n])
    requires forall i :: 0 <= i < n ==> specs[i].command != specs[n].command
    requires specs[j].code == specs[n].code
    ensures BuildIndices(specs) == Failure(DuplicateCode(specs[n].code, specs[j].command, specs[n].command))
  {
    var init := specs[..n];
    BuildSucceeds(init);
    BuildKeys(init);
    BuildContents(init);
    var ix := BuildIndices(init).value;
    assert init[j] == specs[j];
    assert ix.byCode[specs[n].code] == Normalize(specs[j]);
    forall i | 0 <= i < |init| ensures init[i].command != specs[n].command {
      assert init[i] == specs[i];
    }
    assert specs[n].command !in ix.byCommand;
    var prefix := specs[..n + 1];
    assert prefix[..n] == init && prefix[n] == specs[n];
    assert BuildIndices(prefix) == Insert(ix, specs[n]);
    FailurePersists(specs, n + 1);
  }

  /** The stored copy of one spec, under its command and under its code. */
  lemma BuildContentsAt(specs: seq<CommandSpec>, i: nat)
    requires BuildIndices(specs).Success? && i < |specs|
    ensures var ix := BuildIndices(specs).value;
      specs[i].command in ix.byCommand && ix.byCommand[specs[i].command] == Normalize(specs[i]) &&
      specs[i].code in ix.byCode && ix.byCode[specs[i].code] == Normalize(specs[i])
  {
    BuildContents(specs);
  }

  /** A spec without a table is stored as it is, under its command and under its code. */
  lemma BuildPlainAt(specs: seq<CommandSpec>, i: nat)
    requires BuildIndices(specs).Success? && i < |specs| && specs[i].stringValues.None?
    ensures var ix := BuildIndices(specs).value;
      specs[i].command in ix.byCommand && ix.byCommand[specs[i].command] == specs[i] &&
      specs[i].code in ix.byCode && ix.byCode[specs[i].code] == specs[i]
  {
    BuildContentsAt(specs, i);
  }

  /** A spec with a table is stored with the normalized table, under its command and under its code. */
  lemma BuildTableAt(specs: seq<CommandSpec>, i: nat, stored: StringTable)
    requires BuildIndices(specs).Success? && i < |specs| && specs[i].stringValues.Some?
    requires NormalizeTable(specs[i].stringValues.value) == stored
    ensures var ix := BuildIndices(specs).value;
      specs[i].command in ix.byCommand && ix.byCommand[specs[i].command] == specs[i].(stringValues := Some(stored)) &&
      specs[i].code in ix.byCode && ix.byCode[specs[i].code] == ix.byCommand[specs[i].command]
  {
    BuildContentsAt(specs, i);
  }

  /** A constructed object looks every spec up by its command and by its code. */
  lemma ConstructLookups(modelId: string, modelName: string, specs: seq<CommandSpec>, i: nat)
    requires Construct(modelId, modelName, specs).Success?
    requires i < |specs|
    ensures var d := Construct(modelId, modelName, specs).value;
      d.modelId == modelId && d.modelName == modelName &&
      GetCommandSpecByCommand(d, specs[i].command) == Some(Normalize(specs[i])) &&
      GetCommandSpecByCode(d, specs[i].code) == Some(Normalize(specs[i]))
  {
    BuildKeys(specs);
    BuildContents(specs);
  }

  /** Commands and codes that no spec names are looked up as undefined. */
  lemma ConstructMisses(modelId: string, modelName: string, specs: seq<CommandSpec>, c: Command, k: int)
    requires Construct(modelId, modelName, specs).Success?
    ensures var d := Construct(modelId, modelName, specs).value;
      (GetCommandSpecByCommand(d, c).None? <==> forall i :: 0 <= i < |specs| ==> specs[i].command != c) &&
      (GetCommandSpecByCode(d, k).None? <==> forall i :: 0 <= i < |specs| ==> specs[i].code != k)
  {
    BuildKeys(specs);
  }

  /** The two lookups of a constructed object are inverses of each other. */
  lemma LookupsInverse(modelId: string, modelName: string, specs: seq<CommandSpec>, c: Command, k: int)
    requires Construct(modelId, modelName, specs).Success?
    ensures var d := Construct(modelId, modelName, specs).value;
      (GetCommandSpecByCode(d, k).Some? && GetCommandSpecByCode(d, k).value.command == c) <==>
      (GetCommandSpecByCommand(d, c).Some? && GetCommandSpecByCommand(d, c).value.code == k)
  {
    BuildSucceeds(specs);
    BuildKeys(specs);
    BuildContents(specs);
    var d := Construct(modelId, modelName, specs).value;
    if k in d.byCode && d.byCode[k].command == c {
      var i :| 0 <= i < |specs| && specs[i].code == k;
      assert specs[i].command == c;
    }
    if c in d.byCommand && d.byCommand[c].code == k {
      var i :| 0 <= i < |specs| && specs[i].command == c;
      assert specs[i].code == k;
    }
  }
  /**
   * The shape every constructed object has: each spec is filed under its own
   * command and its own code, and the two indices hold the same specs.
   */
  predicate WellFormed(d: ModelDetails) {
    (forall c :: c in d.byCommand ==>
      d.byCommand[c].command == c && d.byCommand[c].code in d.byCode && d.byCode[d.byCommand[c].code] == d.byCommand[c]) &&
    (forall k :: k in d.byCode ==>
      d.byCode[k].code == k && d.byCode[k].command in d.byCommand && d.byCommand[d.byCode[k].command] == d.byCode[k])
  }

  lemma ConstructWellFormed(modelId: string, modelName: string, specs: seq<CommandSpec>)
    requires Construct(modelId, modelName, specs).Success?
    ensures WellFormed(Construct(modelId, modelName, specs).value)
  {
    BuildKeys(specs);
    BuildContents(specs);
    var d := Construct(modelId, modelName, specs).value;
    forall c | c in d.byCommand
      ensures d.byCommand[c].command == c && d.byCommand[c].code in d.byCode && d.byCode[d.byCommand[c].code] == d.byCommand[c]
    {
      var i :| 0 <= i < |specs| && specs[i].command == c;
    }
    forall k | k in d.byCode
      ensures d.byCode[k].code == k && d.byCode[k].command in d.byCommand && d.byCommand[d.byCode[k].command] == d.byCode[k]
    {
      var i :| 0 <= i < |specs| && specs[i].code == k;
    }
  }
}
