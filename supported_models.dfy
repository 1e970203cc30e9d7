/**
 * The model registry (src/api/model_details/supported-models.ts): the list
 * `SUPPORTED_ROBOVAC_MODELS`, the map `SUPPORTED_MODELS_BY_ID` built from it
 * with `new Map`, and `createModelDetailsFromModelId`.
 */
module SupportedModels {
  import opened Wrappers
  import opened JsText
  import opened JsEntries
  import opened RobovacCommand
  import opened RobovacModelDetails
  import DefaultModel
  import T2080Model
  import T2267Model
  import T2275Model
  import T2277Model
  import T2320Model

  /**
   * The classes the list refers to. T2276, T2278 and T2280 are imported by
   * the list but their tables are not part of this model; T2320 is not
   * imported at all, so no entry can name it.
   */
  datatype DetailsClass =
    | DefaultDetails | T2080Details | T2267Details | T2275Details
    | T2276Details | T2277Details | T2278Details | T2280Details

  /** `SupportedRobovacModel` */
  datatype SupportedModel = SupportedModel(modelId: string, modelName: string, detailsClass: DetailsClass)

  /** `SUPPORTED_ROBOVAC_MODELS` (lines 24-205): "T2275" is listed twice. */
  const SupportedRobovacModels: seq<SupportedModel> := [
    SupportedModel("T2080", "RoboVac S1 Pro", T2080Details),
    SupportedModel("T2103", "RoboVac 11C", DefaultDetails),
    SupportedModel("T2117", "RoboVac 35C", DefaultDetails),
    SupportedModel("T2118", "RoboVac 30C", DefaultDetails),
    SupportedModel("T2119", "RoboVac 11S Plus", DefaultDetails),
    SupportedModel("T2120", "RoboVac 15C", DefaultDetails),
    SupportedModel("T2123", "RoboVac 25C", DefaultDetails),
    SupportedModel("T2128", "RoboVac 15C MAX", DefaultDetails),
    SupportedModel("T2130", "RoboVac 30C MAX", DefaultDetails),
    SupportedModel("T2132", "RoboVac 25C MAX", DefaultDetails),
    SupportedModel("T2150", "RoboVac G10 Hybrid", DefaultDetails),
    SupportedModel("T2181", "RoboVac LR30 Hybrid+", DefaultDetails),
    SupportedModel("T2190", "RoboVac L70 Hybrid", DefaultDetails),
    SupportedModel("T2192", "RoboVac L35 Hybrid+", DefaultDetails),
    SupportedModel("T2193", "RoboVac LR30 Hybrid", DefaultDetails),
    SupportedModel("T2194", "RoboVac L35 Hybrid", DefaultDetails),
    SupportedModel("T2250", "RoboVac G30", DefaultDetails),
    SupportedModel("T2251", "RoboVac G30 Edge", DefaultDetails),
    SupportedModel("T2252", "RoboVac G30 Verge", DefaultDetails),
    SupportedModel("T2253", "RoboVac G30 Hybrid", DefaultDetails),
    SupportedModel("T2254", "RoboVac G35", DefaultDetails),
    SupportedModel("T2255", "RoboVac G40", DefaultDetails),
    SupportedModel("T2259", "RoboVac G32 Pro", DefaultDetails),
    SupportedModel("T2261", "RoboVac X8 Hybrid", DefaultDetails),
    SupportedModel("T2262", "RoboVac X8", DefaultDetails),
    SupportedModel("T2267", "RoboVac L60", T2267Details),
    SupportedModel("T2268", "RoboVac L60 Hybrid", T2267Details),
    SupportedModel("T2270", "RoboVac G35+", T2267Details),
    SupportedModel("T2272", "RoboVac G40+", T2267Details),
    SupportedModel("T2273", "RoboVac G40 Hybrid+", T2267Details),
    SupportedModel("T2275", "RoboVac L50 SES", T2275Details),
    SupportedModel("T2275", "RoboVac X8 Pro SES", T2276Details),
    SupportedModel("T2277", "RoboVac L60 SES", T2277Details),
    SupportedModel("T2278", "RoboVac L60 Hybrid SES", T2278Details),
    SupportedModel("T2280", "RoboVac C20 Hybrid SES", T2280Details),
    SupportedModel("T0000", "default", DefaultDetails)
  ]

  /** The pairs `[m.modelId, m]` handed to `new Map`. */
  function ByIdEntries(): (r: Entries<SupportedModel>)
    ensures |r| == |SupportedRobovacModels|
    ensures forall i :: 0 <= i < |r| ==> r[i] == (SupportedRobovacModels[i].modelId, SupportedRobovacModels[i])
  {
    seq(|SupportedRobovacModels|, i requires 0 <= i < |SupportedRobovacModels| =>
      (SupportedRobovacModels[i].modelId, SupportedRobovacModels[i]))
  }

  /** `SUPPORTED_MODELS_BY_ID` (line 210). */
  function ModelsById(): Entries<SupportedModel> {
    FromEntries(ByIdEntries())
  }

  /** The spec list the class's constructor hands to `RobovacModelDetails`, for the classes this model has. */
  function SpecsFor(cls: DetailsClass): (r: Option<seq<CommandSpec>>)
    ensures r.None? <==> cls in {T2276Details, T2278Details, T2280Details}
  {
    match cls
    case DefaultDetails => Some(DefaultModel.DefaultsArray)
    case T2080Details => Some(T2080Model.Specs)
    case T2267Details => Some(T2267Model.Specs)
    case T2275Details => Some(T2275Model.Specs)
    case T2277Details => Some(T2277Model.Specs)
    case _ => None
  }

  /** The message of the `Error` thrown for an unknown id. */
  function UnsupportedMessage(modelId: string): string {
    "Unsupported Robovac modelId '" + modelId + "'. Supported modelIds: " + Join(KeysOf(ModelsById()), ", ")
  }

  /**
   * `createModelDetailsFromModelId(modelId)`: the error message it throws, or
   * the constructed registry; `Success(None)` stands for the construction of
   * a class whose table is not part of this model.
   */
  function CreateModelDetailsFromModelId(modelId: string): Result<Option<ModelDetails>, string> {
    match Get(ModelsById(), modelId)
    case None => Failure(UnsupportedMessage(modelId))
    case Some(entry) =>
      match SpecsFor(entry.detailsClass)
      case None => Success(None)
      case Some(specs) =>
        match Construct(entry.modelId, entry.modelName, specs)
        case Failure(e) => Failure(DuplicateMessage(entry.modelId, entry.modelName, e))
        case Success(d) => Success(Some(d))
  }

  // ---------------------------------------------------------------------------
  // The map built from the list
  // ---------------------------------------------------------------------------

  /** The ids of the list, in order. */
  const MODEL_IDS: seq<string> := ["T2080", "T2103", "T2117", "T2118", "T2119", "T2120", "T2123", "T2128", "T2130", "T2132", "T2150", "T2181", "T2190", "T2192", "T2193", "T2194", "T2250", "T2251", "T2252", "T2253", "T2254", "T2255", "T2259", "T2261", "T2262", "T2267", "T2268", "T2270", "T2272", "T2273", "T2275", "T2275", "T2277", "T2278", "T2280", "T0000"]

  lemma IdsColumn()
    ensures |SupportedRobovacModels| == |MODEL_IDS|
    ensures forall i :: 0 <= i < |MODEL_IDS| ==> SupportedRobovacModels[i].modelId == MODEL_IDS[i]
  {
  }

  lemma IdsDistinctRows0()
    ensures forall i, j :: 0 <= i < 1 && i < j < |MODEL_IDS| && !(i == 30 && j == 31) ==> MODEL_IDS[i] != MODEL_IDS[j]
  {
  }

  lemma IdsDistinctRows1()
    ensures forall i, j :: 1 <= i < 2 && i < j < |MODEL_IDS| && !(i == 30 && j == 31) ==> MODEL_IDS[i] != MODEL_IDS[j]
  {
  }

  lemma IdsDistinctRows2()
    ensures forall i, j :: 2 <= i < 3 && i < j < |MODEL_IDS| && !(i == 30 && j == 31) ==> MODEL_IDS[i] != MODEL_IDS[j]
  {
  }

  lemma IdsDistinctRows3()
    ensures forall i, j :: 3 <= i < 4 && i < j < |MODEL_IDS| && !(i == 30 && j == 31) ==> MODEL_IDS[i] != MODEL_IDS[j]
  {
  }

  lemma IdsDistinctRows4()
    ensures forall i, j :: 4 <= i < 5 && i < j < |MODEL_IDS| && !(i == 30 && j == 31) ==> MODEL_IDS[i] != MODEL_IDS[j]
  {
  }

  lemma IdsDistinctRows5()
    ensures forall i, j :: 5 <= i < 7 && i < j < |MODEL_IDS| && !(i == 30 && j == 31) ==> MODEL_IDS[i] != MODEL_IDS[j]
  {
  }

  lemma IdsDistinctRows6()
    ensures forall i, j :: 7 <= i < 9 && i < j < |MODEL_IDS| && !(i == 30 && j == 31) ==> MODEL_IDS[i] != MODEL_IDS[j]
  {
  }

  lemma IdsDistinctRows7()
    ensures forall i, j :: 9 <= i < 11 && i < j < |MODEL_IDS| && !(i == 30 && j == 31) ==> MODEL_IDS[i] != MODEL_IDS[j]
  {
  }

  lemma IdsDistinctRows8()
    ensures forall i, j :: 11 <= i < 13 && i < j < |MODEL_IDS| && !(i == 30 && j == 31) ==> MODEL_IDS[i] != MODEL_IDS[j]
  {
  }

  lemma IdsDistinctRows9()
    ensures forall i, j :: 13 <= i < 15 && i < j < |MODEL_IDS| && !(i == 30 && j == 31) ==> MODEL_IDS[i] != MODEL_IDS[j]
  {
  }

  lemma IdsDistinctRows10()
    ensures forall i, j :: 15 <= i < 18 && i < j < |MODEL_IDS| && !(i == 30 && j == 31) ==> MODEL_IDS[i] != MODEL_IDS[j]
  {
  }

  lemma IdsDistinctRows11()
    ensures forall i, j :: 18 <= i < 21 && i < j < |MODEL_IDS| && !(i == 30 && j == 31) ==> MODEL_IDS[i] != MODEL_IDS[j]
  {
  }

  lemma IdsDistinctRows12()
    ensures forall i, j :: 21 <= i < 26 && i < j < |MODEL_IDS| && !(i == 30 && j == 31) ==> MODEL_IDS[i] != MODEL_IDS[j]
  {
  }

  lemma IdsDistinctRows13()
    ensures forall i, j :: 26 <= i < 36 && i < j < |MODEL_IDS| && !(i == 30 && j == 31) ==> MODEL_IDS[i] != MODEL_IDS[j]
  {
  }

  /** Apart from the two T2275 entries at 30 and 31, no two entries share an id. */
  lemma IdsDistinct()
    ensures forall i, j :: 0 <= i < j < |SupportedRobovacModels| && !(i == 30 && j == 31) ==>
      SupportedRobovacModels[i].modelId != SupportedRobovacModels[j].modelId
  {
    IdsColumn();
    IdsDistinctRows0();
    IdsDistinctRows1();
    IdsDistinctRows2();
    IdsDistinctRows3();
    IdsDistinctRows4();
    IdsDistinctRows5();
    IdsDistinctRows6();
    IdsDistinctRows7();
    IdsDistinctRows8();
    IdsDistinctRows9();
    IdsDistinctRows10();
    IdsDistinctRows11();
    IdsDistinctRows12();
    IdsDistinctRows13();
  }

  /** The keys of the pairs: only those at 30 and 31 are equal. */
  lemma ByIdKeys()
    ensures ByIdEntries()[30].0 == ByIdEntries()[31].0
    ensures forall p, q :: 0 <= p < q < |ByIdEntries()| && !(p == 30 && q == 31) ==> ByIdEntries()[p].0 != ByIdEntries()[q].0
  {
    IdsDistinct();
  }

  /**
   * The map keeps one entry per id, 35 for the list's 36: the second "T2275"
   * entry takes the place of the first, and all other entries keep theirs.
   */
  lemma ModelsByIdLayout()
    ensures |SupportedRobovacModels| == 36 && SupportedRobovacModels[30].modelId == SupportedRobovacModels[31].modelId
    ensures ModelsById() == ByIdEntries()[..31][30 := ByIdEntries()[31]] + ByIdEntries()[32..]
    ensures |ModelsById()| == 35
  {
    var es := ByIdEntries();
    ByIdKeys();
    DistinctWithout(es, 30, 31);
    FromEntriesOneRepeat(es, 30, 31);
  }

  /** Looking up the id of an entry that no later entry repeats yields that entry. */
  lemma LookupLast(i: nat)
    requires i < |SupportedRobovacModels|
    requires forall j :: i < j < |SupportedRobovacModels| ==> SupportedRobovacModels[j].modelId != SupportedRobovacModels[i].modelId
    ensures Get(ModelsById(), SupportedRobovacModels[i].modelId) == Some(SupportedRobovacModels[i])
  {
    FromEntriesGet(ByIdEntries(), SupportedRobovacModels[i].modelId);
    LastValueAt(ByIdEntries(), i);
  }

  /** Every entry but the first T2275 one is the last with its id. */
  lemma LaterIdsDiffer(i: nat)
    requires i < |SupportedRobovacModels| && i != 30
    ensures forall j :: i < j < |SupportedRobovacModels| ==> SupportedRobovacModels[j].modelId != SupportedRobovacModels[i].modelId
  {
    IdsDistinct();
  }

  // ---------------------------------------------------------------------------
  // createModelDetailsFromModelId
  // ---------------------------------------------------------------------------

  /**
   * For a registered id, the entry's class is constructed with the entry's
   * own id and name, and the constructor of every modelled class succeeds.
   */
  lemma CreateRegistered(modelId: string)
    requires Get(ModelsById(), modelId).Some?
    ensures var entry := Get(ModelsById(), modelId).value;
      entry.modelId == modelId &&
      CreateModelDetailsFromModelId(modelId).Success? &&
      (CreateModelDetailsFromModelId(modelId).value.None? <==> SpecsFor(entry.detailsClass).None?) &&
      (SpecsFor(entry.detailsClass).Some? ==>
        Construct(modelId, entry.modelName, SpecsFor(entry.detailsClass).value) == Success(CreateModelDetailsFromModelId(modelId).value.value))
  {
    var entry := Get(ModelsById(), modelId).value;
    FromEntriesGet(ByIdEntries(), modelId);
    LastValueEntry(ByIdEntries(), modelId);
    match entry.detailsClass
    case DefaultDetails => DefaultModel.Constructs(entry.modelId, entry.modelName);
    case T2080Details => T2080Model.Constructs(entry.modelId, entry.modelName);
    case T2267Details => T2267Model.Constructs(entry.modelId, entry.modelName);
    case T2275Details => T2275Model.Constructs(entry.modelId, entry.modelName);
    case T2277Details => T2277Model.Constructs(entry.modelId, entry.modelName);
    case _ =>
  }

  /** Every key of the map occurs in the message for an unknown id. */
  lemma MessageNamesKey(modelId: string, k: nat)
    requires k < |ModelsById()|
    ensures IsSubstring(ModelsById()[k].0, UnsupportedMessage(modelId))
  {
    JoinContains(KeysOf(ModelsById()), ", ", k);
    SubstringAfterPrefix(ModelsById()[k].0, "Unsupported Robovac modelId '" + modelId + "'. Supported modelIds: ", Join(KeysOf(ModelsById()), ", "));
  }

  /** An unknown id throws an error whose message names the id and every id of the list. */
  lemma CreateUnknown(modelId: string)
    requires forall i :: 0 <= i < |SupportedRobovacModels| ==> SupportedRobovacModels[i].modelId != modelId
    ensures CreateModelDetailsFromModelId(modelId) == Failure(UnsupportedMessage(modelId))
    ensures forall i :: 0 <= i < |SupportedRobovacModels| ==> IsSubstring(SupportedRobovacModels[i].modelId, UnsupportedMessage(modelId))
  {
    FromEntriesKeys(ByIdEntries(), modelId);
    forall i | 0 <= i < |SupportedRobovacModels| ensures IsSubstring(SupportedRobovacModels[i].modelId, UnsupportedMessage(modelId)) {
      var id := SupportedRobovacModels[i].modelId;
      assert ByIdEntries()[i].0 == id;
      FromEntriesKeys(ByIdEntries(), id);
      var k :| 0 <= k < |ModelsById()| && ModelsById()[k].0 == id;
      MessageNamesKey(modelId, k);
    }
  }

  /** "T2275" resolves to the later entry, "RoboVac X8 Pro SES" with the T2276 class; the T2275 class is never constructed. */
  lemma T2275ResolvesToX8()
    ensures Get(ModelsById(), "T2275") == Some(SupportedModel("T2275", "RoboVac X8 Pro SES", T2276Details))
    ensures CreateModelDetailsFromModelId("T2275") == Success(None)
    ensures forall k :: 0 <= k < |ModelsById()| ==> ModelsById()[k].1.detailsClass != T2275Details
  {
    LookupLast(31);
    NoT2275Class();
  }

  /** Only the entry at position 30 names the T2275 class, and the map keeps the entry at 31 in its place. */
  lemma NoT2275Class()
    ensures forall k :: 0 <= k < |ModelsById()| ==> ModelsById()[k].1.detailsClass != T2275Details
  {
    ModelsByIdLayout();
    var es := ByIdEntries();
    assert forall i :: 0 <= i < 36 && i != 30 ==> SupportedRobovacModels[i].detailsClass != T2275Details;
    forall k | 0 <= k < |ModelsById()| ensures ModelsById()[k].1.detailsClass != T2275Details {
      var i := if k < 30 then k else k + 1;
      assert ModelsById()[k] == es[i];
    }
  }

  /** "T0000" builds the default table under the name "default". */
  lemma T0000IsDefault()
    ensures CreateModelDetailsFromModelId("T0000") == Success(Some(DefaultModel.Details("T0000", "default")))
  {
    LookupLast(35);
    DefaultModel.Constructs("T0000", "default");
  }

  /** Constructing the entry at position `i`, when no later entry repeats its id and its class is modelled. */
  lemma CreateAt(i: nat)
    requires i < |SupportedRobovacModels|
    requires forall j :: i < j < |SupportedRobovacModels| ==> SupportedRobovacModels[j].modelId != SupportedRobovacModels[i].modelId
    requires SpecsFor(SupportedRobovacModels[i].detailsClass).Some?
    requires var m := SupportedRobovacModels[i]; Construct(m.modelId, m.modelName, SpecsFor(m.detailsClass).value).Success?
    ensures var m := SupportedRobovacModels[i];
      CreateModelDetailsFromModelId(m.modelId) == Success(Some(Construct(m.modelId, m.modelName, SpecsFor(m.detailsClass).value).value))
  {
    LookupLast(i);
  }

  /** The classes of the two families: T2103 to T2262 at positions 1 to 24, and the T2267 family at 25 to 29. */
  lemma Families()
    ensures forall i :: 1 <= i <= 24 ==> SupportedRobovacModels[i].detailsClass == DefaultDetails
    ensures forall i :: 25 <= i <= 29 ==> SupportedRobovacModels[i].detailsClass == T2267Details
  {
  }

  /** T2267, T2268, T2270, T2272 and T2273 all build the T2267 table, each under its own id and name. */
  lemma T2267Family(i: nat)
    requires 25 <= i <= 29
    ensures SupportedRobovacModels[i].detailsClass == T2267Details
    ensures var m := SupportedRobovacModels[i];
      CreateModelDetailsFromModelId(m.modelId) == Success(Some(T2267Model.Details(m.modelId, m.modelName)))
  {
    Families();
    LaterIdsDiffer(i);
    var m := SupportedRobovacModels[i];
    T2267Model.Constructs(m.modelId, m.modelName);
    CreateAt(i);
  }

  /** The 24 entries from T2103 to T2262 all build the default table. */
  lemma DefaultFamily(i: nat)
    requires 1 <= i <= 24
    ensures SupportedRobovacModels[i].detailsClass == DefaultDetails
    ensures var m := SupportedRobovacModels[i];
      CreateModelDetailsFromModelId(m.modelId) == Success(Some(DefaultModel.Details(m.modelId, m.modelName)))
  {
    Families();
    LaterIdsDiffer(i);
    var m := SupportedRobovacModels[i];
    DefaultModel.Constructs(m.modelId, m.modelName);
    CreateAt(i);
  }

  /** No class of the registry hands the T2320 spec list to the constructor, so no id reaches the constructor that throws. */
  lemma NoT2320(cls: DetailsClass)
    ensures SpecsFor(cls) != Some(T2320Model.Specs)
  {
    match cls
    case DefaultDetails => assert |DefaultModel.DefaultsArray| != |T2320Model.Specs|;
    case T2080Details => assert |T2080Model.Specs| != |T2320Model.Specs|;
    case T2267Details => assert |T2267Model.Specs| != |T2320Model.Specs|;
    case T2275Details => assert |T2275Model.Specs| != |T2320Model.Specs|;
    case T2277Details => assert T2277Model.Specs[1].command != T2320Model.Specs[1].command;
    case _ =>
  }
}
