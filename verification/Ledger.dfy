/** What the normalized tables stand for: an append-only map from run to spec. */
module Ledger {
  import opened Prelude
  import opened Domain
  import opened Timestamps
  import opened Schema
  import opened Entities
  import opened Numbers
  import Uuid

  /** The foreign keys hold, rows carry their keys, and every text column converts. */
  ghost predicate Valid(t: Tables) {
    && ValidSpecs(t) && ValidDatasets(t) && ValidParameters(t) && ValidRefs(t) && ValidRuns(t)
  }

  ghost predicate ValidSpecs(t: Tables) {
    forall id :: id in t.specs ==>
      && t.specs[id].id == id && t.specs[id].projectId in t.projects
      && Uuid.Parse(id).Some? && Uuid.Parse(t.specs[id].projectId).Some?
  }

  /** The ordinals of a spec are 0, 1, 2, ... without a gap. */
  ghost predicate ValidDatasets(t: Tables) {
    forall k :: k in t.datasets ==>
      && k.0 in t.specs && t.datasets[k].ordinal == k.1 && 0 <= k.1
      && (0 < k.1 ==> (k.0, k.1 - 1) in t.datasets)
  }

  ghost predicate ValidParameters(t: Tables) {
    forall k :: k in t.parameters ==> k.0 in t.specs && t.parameters[k].key == k.1
  }

  ghost predicate ValidRefs(t: Tables) {
    forall k :: k in t.presetRefs ==>
      && k.0 in t.specs && t.presetRefs[k].category == k.1 && !k.1.OtherCategory?
      && t.presetRefs[k].presetId in t.presets && Uuid.Parse(t.presetRefs[k].presetId).Some?
  }

  ghost predicate ValidRuns(t: Tables) {
    forall id :: id in t.runs ==>
      && t.runs[id].id == id && t.runs[id].projectId in t.projects && t.runs[id].specId in t.specs
      && RunOf(t.runs[id]).Some?
  }

  // The rows of one spec, as values.

  function OrdinalsFrom(t: Tables, spec: Uuid.Text, i: int): set<(Uuid.Text, int)> {
    set k | k in t.datasets.Keys && k.0 == spec && i <= k.1
  }

  function DatasetsFrom(t: Tables, spec: Uuid.Text, i: int): seq<DatasetRef>
    decreases OrdinalsFrom(t, spec, i)
  {
    if (spec, i) in t.datasets then
      assert (spec, i) in OrdinalsFrom(t, spec, i) && (spec, i) !in OrdinalsFrom(t, spec, i + 1);
      var row := t.datasets[(spec, i)];
      [DatasetRef(row.datasetRef, row.splitName)] + DatasetsFrom(t, spec, i + 1)
    else []
  }

  function ParametersFrom(t: Tables, spec: Uuid.Text): map<string, Value> {
    map k | k in t.parameters && k.0 == spec :: k.1 := JsonNumber(t.parameters[k].value)
  }

  function RefFrom(t: Tables, spec: Uuid.Text, category: Category): Option<Uuid.Id> {
    if (spec, category) in t.presetRefs then Uuid.Parse(t.presetRefs[(spec, category)].presetId) else None
  }

  function RefsFrom(t: Tables, spec: Uuid.Text): Refs {
    Refs(RefFrom(t, spec, TrainerCategory), RefFrom(t, spec, ResourceCategory), RefFrom(t, spec, OutputCategory))
  }

  /** The spec stored under an identifier. */
  function StoredSpec(t: Tables, spec: Uuid.Text): Option<Spec> {
    if spec !in t.specs then None
    else
      var row := t.specs[spec];
      var id, projectId := Uuid.Parse(row.id), Uuid.Parse(row.projectId);
      if id.None? || projectId.None? then None
      else
        Some(Spec(id.value, projectId.value, row.name, row.description, RefsFrom(t, spec), row.baseModel,
                  DatasetsFrom(t, spec, 0), row.resources, ParametersFrom(t, spec)))
  }

  /** The abstract ledger: the spec of each run, by run identifier text. */
  function SpecOfRun(t: Tables, run: Uuid.Text): Option<Spec> {
    if run in t.runs then StoredSpec(t, t.runs[run].specId) else None
  }

  // Extension: rows are added, and no spec or run that is there changes.

  ghost predicate Extends(t: Tables, u: Tables) {
    && t.projects <= u.projects && t.categories <= u.categories && t.presets.Keys <= u.presets.Keys
    && (forall id :: id in t.specs ==> id in u.specs && u.specs[id] == t.specs[id])
    && (forall id :: id in t.runs ==> id in u.runs && u.runs[id] == t.runs[id])
    && SameChildren(t, u)
  }

  /** The child rows of the specs in `ids` are the same in both tables. */
  ghost predicate SameRows<K(!new), V>(ids: set<Uuid.Text>, m: map<(Uuid.Text, K), V>, n: map<(Uuid.Text, K), V>) {
    forall k: (Uuid.Text, K) :: k.0 in ids ==> (k in m <==> k in n) && (k in m ==> n[k] == m[k])
  }

  ghost predicate SameChildren(t: Tables, u: Tables) {
    && SameRows(t.specs.Keys, t.datasets, u.datasets)
    && SameRows(t.specs.Keys, t.parameters, u.parameters)
    && SameRows(t.specs.Keys, t.presetRefs, u.presetRefs)
  }

  lemma RowsAddedElsewhere<K(!new), V>(ids: set<Uuid.Text>, m: map<(Uuid.Text, K), V>, added: map<(Uuid.Text, K), V>, id: Uuid.Text)
    requires id !in ids && forall k :: k in added ==> k.0 == id
    ensures SameRows(ids, m, m + added)
  {
  }

  lemma ExtendsIsTransitive(t: Tables, u: Tables, v: Tables)
    requires Extends(t, u) && Extends(u, v)
    ensures Extends(t, v)
  {
  }

  lemma {:induction false} DatasetsFromExtends(t: Tables, u: Tables, spec: Uuid.Text, i: int)
    requires Extends(t, u) && spec in t.specs
    ensures DatasetsFrom(u, spec, i) == DatasetsFrom(t, spec, i)
    decreases OrdinalsFrom(t, spec, i)
  {
    hide RunOf, FormatNumber;
    if (spec, i) in t.datasets {
      assert (spec, i) in OrdinalsFrom(t, spec, i) && (spec, i) !in OrdinalsFrom(t, spec, i + 1);
      DatasetsFromExtends(t, u, spec, i + 1);
    }
  }

  lemma ParametersFromExtends(t: Tables, u: Tables, spec: Uuid.Text)
    requires Extends(t, u) && spec in t.specs
    ensures ParametersFrom(u, spec) == ParametersFrom(t, spec)
  {
    assert SameRows(t.specs.Keys, t.parameters, u.parameters);
    hide Extends;
  }

  lemma RefsFromExtends(t: Tables, u: Tables, spec: Uuid.Text)
    requires Extends(t, u) && spec in t.specs
    ensures RefsFrom(u, spec) == RefsFrom(t, spec)
  {
    assert SameRows(t.specs.Keys, t.presetRefs, u.presetRefs);
    hide Extends;
  }

  /** A stored spec reads the same in every later state of the ledger. */
  lemma StoredSpecIsStable(t: Tables, u: Tables, spec: Uuid.Text)
    requires Extends(t, u) && spec in t.specs
    ensures StoredSpec(u, spec) == StoredSpec(t, spec)
  {
    DatasetsFromExtends(t, u, spec, 0);
    ParametersFromExtends(t, u, spec);
    RefsFromExtends(t, u, spec);
    hide SameChildren, DatasetsFrom, ParametersFrom, RefsFrom;
  }

  lemma SpecOfRunIsStable(t: Tables, u: Tables, run: Uuid.Text)
    requires Valid(t) && Extends(t, u) && run in t.runs
    ensures SpecOfRun(u, run) == SpecOfRun(t, run)
  {
    hide RunOf, FormatNumber;
    StoredSpecIsStable(t, u, t.runs[run].specId);
  }

  // CreateRun as one step on the tables.

  predicate Known(t: Tables, category: Category, ref: Option<Uuid.Id>) {
    IsSet(ref) ==> category in t.categories && Uuid.String(ref.value) in t.presets
  }

  /** Everything the schema demands of a CreateRun call, checked before it starts. */
  predicate Admits(t: Tables, spec: Spec, run: Run) {
    && Uuid.String(spec.id) !in t.specs && Uuid.String(spec.projectId) in t.projects
    && Known(t, TrainerCategory, spec.refs.trainer)
    && Known(t, ResourceCategory, spec.refs.resource)
    && Known(t, OutputCategory, spec.refs.output)
    && Uuid.String(run.id) !in t.runs && Uuid.String(run.projectId) in t.projects
    && (run.specId == spec.id || Uuid.String(run.specId) in t.specs)
  }

  function DatasetEntries(spec: Spec): map<(Uuid.Text, int), DatasetRow> {
    map i | 0 <= i < |spec.datasets| :: (Uuid.String(spec.id), i) := DatasetRowOf(i, spec.datasets[i])
  }

  function ParameterEntries(spec: Spec): map<(Uuid.Text, string), ParameterRow>
    requires Numeric(spec.parameters)
  {
    map key | key in spec.parameters ::
      (Uuid.String(spec.id), key) := ParameterRow(key, FormatNumber(spec.parameters[key]).value)
  }

  function RefEntry(spec: Spec, category: Category, ref: Option<Uuid.Id>): map<(Uuid.Text, Category), RefRow> {
    if IsSet(ref) then map[(Uuid.String(spec.id), category) := RefRow(category, Uuid.String(ref.value))] else map[]
  }

  function RefEntries(spec: Spec): map<(Uuid.Text, Category), RefRow> {
    RefEntry(spec, TrainerCategory, spec.refs.trainer)
    + RefEntry(spec, ResourceCategory, spec.refs.resource)
    + RefEntry(spec, OutputCategory, spec.refs.output)
  }

  /** The tables a committed CreateRun leaves, whatever order its parameters were written in. */
  function AddRun(t: Tables, spec: Spec, run: Run): Tables
    requires Numeric(spec.parameters)
  {
    t.(specs := t.specs[Uuid.String(spec.id) := SpecRowOf(spec, Stamp(run.lifecycle.createdAt))],
       datasets := t.datasets + DatasetEntries(spec),
       parameters := t.parameters + ParameterEntries(spec),
       presetRefs := t.presetRefs + RefEntries(spec),
       runs := t.runs[Uuid.String(run.id) := RunRowOf(run)])
  }

  /** Every added child row belongs to the added spec. */
  lemma EntriesBelongToTheirSpec(spec: Spec)
    requires Numeric(spec.parameters)
    ensures forall k :: k in DatasetEntries(spec) ==> k.0 == Uuid.String(spec.id)
    ensures forall k :: k in ParameterEntries(spec) ==> k.0 == Uuid.String(spec.id)
    ensures forall k :: k in RefEntries(spec) ==> k.0 == Uuid.String(spec.id)
  {
    hide FormatNumber;
  }

  lemma AddRunExtends(t: Tables, spec: Spec, run: Run)
    requires Convertible(spec) && Admits(t, spec, run)
    ensures Extends(t, AddRun(t, spec, run))
  {
    hide SameChildren, SpecRowOf, RunRowOf, DatasetEntries, ParameterEntries, RefEntries, Known, Numeric;
    AddRunKeepsChildren(t, spec, run);
    var u, id, runId := AddRun(t, spec, run), Uuid.String(spec.id), Uuid.String(run.id);
    assert id !in t.specs && runId !in t.runs;
    assert u.specs == t.specs[id := u.specs[id]] && u.runs == t.runs[runId := u.runs[runId]];
  }

  lemma AddRunKeepsChildren(t: Tables, spec: Spec, run: Run)
    requires Convertible(spec) && Admits(t, spec, run)
    ensures SameChildren(t, AddRun(t, spec, run))
  {
    EntriesBelongToTheirSpec(spec);
    RowsAddedElsewhere(t.specs.Keys, t.datasets, DatasetEntries(spec), Uuid.String(spec.id));
    RowsAddedElsewhere(t.specs.Keys, t.parameters, ParameterEntries(spec), Uuid.String(spec.id));
    RowsAddedElsewhere(t.specs.Keys, t.presetRefs, RefEntries(spec), Uuid.String(spec.id));
    hide DatasetEntries, ParameterEntries, RefEntries, RunRowOf, SpecRowOf, FormatNumber, Known;
    hide SameRows;
  }

  lemma AddRunKeepsRuns(t: Tables, spec: Spec, run: Run)
    requires Valid(t) && Convertible(spec) && Admits(t, spec, run)
    ensures ValidRuns(AddRun(t, spec, run))
  {
    StoredRunReadsBack(run);
    hide DatasetEntries, ParameterEntries, RefEntries, RunOf, FormatNumber, Known;
    hide ValidSpecs, ValidDatasets, ValidParameters, ValidRefs;
  }

  lemma AddRunKeepsSpecs(t: Tables, spec: Spec, run: Run)
    requires Valid(t) && Convertible(spec) && Admits(t, spec, run)
    ensures ValidSpecs(AddRun(t, spec, run))
  {
    hide DatasetEntries, ParameterEntries, RefEntries, RunRowOf, FormatNumber, Known;
    hide ValidRuns, ValidDatasets, ValidRefs, ValidParameters;
  }

  lemma AddRunKeepsParameters(t: Tables, spec: Spec, run: Run)
    requires Valid(t) && Convertible(spec) && Admits(t, spec, run)
    ensures ValidParameters(AddRun(t, spec, run))
  {
    hide DatasetEntries, RefEntries, SpecRowOf, RunRowOf, FormatNumber, Known;
    hide ValidRuns, ValidDatasets, ValidRefs, ValidSpecs;
  }

  lemma AddRunKeepsDatasets(t: Tables, spec: Spec, run: Run)
    requires Valid(t) && Convertible(spec) && Admits(t, spec, run)
    ensures ValidDatasets(AddRun(t, spec, run))
  {
    hide ParameterEntries, RefEntries, RunRowOf, SpecRowOf, FormatNumber, Known;
    hide ValidRuns, ValidSpecs, ValidRefs, ValidParameters;
    var u, id := AddRun(t, spec, run), Uuid.String(spec.id);
    forall k | k in u.datasets
      ensures k.0 in u.specs && u.datasets[k].ordinal == k.1 && 0 <= k.1 && (0 < k.1 ==> (k.0, k.1 - 1) in u.datasets)
    {
      if k in DatasetEntries(spec) && 0 < k.1 {
        assert (id, k.1 - 1) in DatasetEntries(spec);
      }
    }
  }

  lemma AddRunKeepsRefs(t: Tables, spec: Spec, run: Run)
    requires Valid(t) && Convertible(spec) && Admits(t, spec, run)
    ensures ValidRefs(AddRun(t, spec, run))
  {
    hide ParameterEntries, DatasetEntries, RefEntries, RunRowOf, SpecRowOf, Known;
    hide ValidRuns, ValidSpecs, ValidDatasets, ValidParameters;
    var u := AddRun(t, spec, run);
    forall k | k in u.presetRefs
      ensures k.0 in u.specs && u.presetRefs[k].category == k.1 && !k.1.OtherCategory?
      ensures u.presetRefs[k].presetId in u.presets && Uuid.Parse(u.presetRefs[k].presetId).Some?
    {
      if k in RefEntries(spec) {
        RefEntriesAreKnown(t, spec, run, k);
      }
    }
  }

  lemma AddRunKeepsValid(t: Tables, spec: Spec, run: Run)
    requires Valid(t) && Convertible(spec) && Admits(t, spec, run)
    ensures Valid(AddRun(t, spec, run))
  {
    AddRunKeepsSpecs(t, spec, run);
    AddRunKeepsParameters(t, spec, run);
    AddRunKeepsDatasets(t, spec, run);
    AddRunKeepsRefs(t, spec, run);
    AddRunKeepsRuns(t, spec, run);
    hide ValidSpecs, ValidDatasets, ValidParameters, ValidRefs, ValidRuns, AddRun, Admits;
  }

  lemma RefEntriesAreKnown(t: Tables, spec: Spec, run: Run, k: (Uuid.Text, Category))
    requires Admits(t, spec, run) && k in RefEntries(spec)
    ensures k.0 == Uuid.String(spec.id) && RefEntries(spec)[k].category == k.1 && !k.1.OtherCategory?
    ensures RefEntries(spec)[k].presetId in t.presets && Uuid.Parse(RefEntries(spec)[k].presetId).Some?
  {
    hide RunOf, FormatNumber;
    var refs := spec.refs;
  }

  lemma {:induction false} ContiguousDatasets(t: Tables, spec: Uuid.Text, datasets: seq<DatasetRef>, i: nat)
    requires i <= |datasets| && forall j :: (spec, j) in t.datasets <==> 0 <= j < |datasets|
    requires forall j :: 0 <= j < |datasets| ==> t.datasets[(spec, j)] == DatasetRowOf(j, datasets[j])
    ensures DatasetsFrom(t, spec, i) == datasets[i..]
    decreases |datasets| - i
  {
    if i < |datasets| {
      ContiguousDatasets(t, spec, datasets, i + 1);
    }
  }

  lemma AddedDatasets(t: Tables, spec: Spec, run: Run)
    requires Valid(t) && Convertible(spec) && Admits(t, spec, run)
    ensures DatasetsFrom(AddRun(t, spec, run), Uuid.String(spec.id), 0) == spec.datasets
  {
    hide ParameterEntries, RefEntries, RunRowOf, SpecRowOf, Known;
    hide ValidSpecs, ValidParameters, ValidRefs, ValidRuns, Numeric;
    var u, id := AddRun(t, spec, run), Uuid.String(spec.id);
    forall j
      ensures (id, j) in u.datasets <==> 0 <= j < |spec.datasets|
    {
      assert (id, j) !in t.datasets;
      assert (id, j) in DatasetEntries(spec) <==> 0 <= j < |spec.datasets|;
    }
    ContiguousDatasets(u, id, spec.datasets, 0);
  }

  lemma ParametersAdded(t: Tables, id: Uuid.Text, added: map<(Uuid.Text, string), ParameterRow>, u: Tables, parameters: map<string, Value>)
    requires u.parameters == t.parameters + added && forall key :: (id, key) !in t.parameters
    requires forall key :: (id, key) in added <==> key in parameters
    requires forall key :: key in parameters ==> FormatNumber(parameters[key]) == Some(added[(id, key)].value)
    ensures ParametersFrom(u, id) == NormalParameters(parameters)
  {
    hide FormatNumber;
    forall key
      ensures (id, key) in u.parameters <==> key in parameters
      ensures key in parameters ==> u.parameters[(id, key)] == added[(id, key)]
    {
    }
    assert ParametersFrom(u, id).Keys == parameters.Keys;
  }

  lemma AddedParameters(t: Tables, spec: Spec, run: Run)
    requires Valid(t) && Convertible(spec) && Admits(t, spec, run)
    ensures ParametersFrom(AddRun(t, spec, run), Uuid.String(spec.id)) == NormalParameters(spec.parameters)
  {
    hide DatasetEntries, RefEntries, RunRowOf, SpecRowOf, FormatNumber, Known;
    hide ValidSpecs, ValidDatasets, ValidRefs, ValidRuns;
    var id, added := Uuid.String(spec.id), ParameterEntries(spec);
    assert forall key :: (id, key) in added <==> key in spec.parameters;
    assert forall key :: (id, key) !in t.parameters;
    ParametersAdded(t, id, added, AddRun(t, spec, run), spec.parameters);
  }

  lemma RefEntriesByCategory(spec: Spec, category: Category, ref: Option<Uuid.Id>)
    requires (category, ref) in
        {(TrainerCategory, spec.refs.trainer), (ResourceCategory, spec.refs.resource), (OutputCategory, spec.refs.output)}
    ensures
      var k := (Uuid.String(spec.id), category);
      && (k in RefEntries(spec) <==> IsSet(ref))
      && (IsSet(ref) ==> RefEntries(spec)[k] == RefRow(category, Uuid.String(ref.value)))
  {
  }

  lemma AddedRef(t: Tables, spec: Spec, run: Run, category: Category, ref: Option<Uuid.Id>)
    requires Valid(t) && Convertible(spec) && Admits(t, spec, run)
    requires (category, ref) in
        {(TrainerCategory, spec.refs.trainer), (ResourceCategory, spec.refs.resource), (OutputCategory, spec.refs.output)}
    ensures RefFrom(AddRun(t, spec, run), Uuid.String(spec.id), category) == NormalRef(ref)
  {
    RefEntriesByCategory(spec, category, ref);
    if IsSet(ref) {
    }
    hide RefEntries, ParameterEntries, DatasetEntries, RunRowOf, SpecRowOf, Known;
    hide ValidSpecs, ValidParameters, ValidDatasets, ValidRuns, Numeric;
    assert (Uuid.String(spec.id), category) !in t.presetRefs;
  }

  lemma AddedRefs(t: Tables, spec: Spec, run: Run)
    requires Valid(t) && Convertible(spec) && Admits(t, spec, run)
    ensures RefsFrom(AddRun(t, spec, run), Uuid.String(spec.id)) == NormalRefs(spec.refs)
  {
    AddedRef(t, spec, run, TrainerCategory, spec.refs.trainer);
    AddedRef(t, spec, run, ResourceCategory, spec.refs.resource);
    AddedRef(t, spec, run, OutputCategory, spec.refs.output);
    hide AddRun, RefFrom, NormalRef, Valid, Convertible, Admits;
  }

  /** The round trip: what a committed CreateRun stored reads back as the submitted spec, normalized. */
  lemma CreatedSpecReadsBack(t: Tables, spec: Spec, run: Run)
    requires Valid(t) && Convertible(spec) && Admits(t, spec, run)
    ensures StoredSpec(AddRun(t, spec, run), Uuid.String(spec.id)) == Some(Normal(spec))
  {
    hide RunOf, FormatNumber;
    AddedDatasets(t, spec, run);
    AddedParameters(t, spec, run);
    AddedRefs(t, spec, run);
  }

  /** CreateRun adds exactly one entry to the abstract ledger and changes none. */
  lemma CreateRunAppends(t: Tables, spec: Spec, run: Run, id: Uuid.Text)
    requires Valid(t) && Convertible(spec) && Admits(t, spec, run)
    ensures SpecOfRun(AddRun(t, spec, run), id) ==
            if id != Uuid.String(run.id) then SpecOfRun(t, id)
            else if run.specId == spec.id then Some(Normal(spec))
            else StoredSpec(t, Uuid.String(run.specId))
  {
    hide RunOf, FormatNumber;
    var u := AddRun(t, spec, run);
    AddRunExtends(t, spec, run);
    if id == Uuid.String(run.id) {
      if run.specId == spec.id {
        CreatedSpecReadsBack(t, spec, run);
      } else {
        StoredSpecIsStable(t, u, Uuid.String(run.specId));
      }
    } else if id in t.runs {
      SpecOfRunIsStable(t, u, id);
    }
  }

  /** The text CreateRun stores for a parameter is a JSON number if and only if the literal it came with is one. */
  lemma StoredParameterIsJsonIff(t: Tables, spec: Spec, run: Run, key: string)
    requires Convertible(spec) && key in spec.parameters
    ensures
      var k, literal := (Uuid.String(spec.id), key), OwnLiteral(spec.parameters[key]);
      && k in AddRun(t, spec, run).parameters
      && (IsJsonNumber(AddRun(t, spec, run).parameters[k].value) <==> (literal.Some? ==> IsJsonNumber(literal.value)))
  {
    assert FormatNumber(spec.parameters[key]).Some?;
    FormattedIsJsonIff(spec.parameters[key]);
    assert (Uuid.String(spec.id), key) in ParameterEntries(spec);
    hide FormatNumber, IsJsonNumber, OwnLiteral, DatasetEntries, RefEntries;
  }

  /** Such a literal is possible: `json.Number("abc")` converts and is stored as it is. */
  lemma AnyLiteralIsStored(t: Tables, spec: Spec, run: Run, key: string)
    requires spec.id != Uuid.Nil && spec.projectId != Uuid.Nil && spec.parameters == map[key := JsonNumber("abc")]
    ensures Convertible(spec) && !IsJsonNumber("abc")
    ensures (Uuid.String(spec.id), key) in AddRun(t, spec, run).parameters
    ensures AddRun(t, spec, run).parameters[(Uuid.String(spec.id), key)].value == "abc"
  {
    AbcIsNoNumber();
    hide DatasetEntries, RefEntries, IsJsonNumber, SpecRowOf, RunRowOf;
    assert Convertible(spec);
    AddedParametersByColumn(t, spec, run, (Uuid.String(spec.id), key));
    hide AddRun;
  }

  lemma AbcIsNoNumber()
    ensures !IsJsonNumber("abc")
  {
    assert LeadingDigits("abc") == 0;
  }

  /** What a stored parameter reads back as: a literal that is the text its value has to have. */
  predicate ReadsBackAs(stored: map<string, Value>, key: string, v: Value) {
    key in stored && stored[key].JsonNumber? && IsTextOf(stored[key].literal, v)
  }

  /** A spec as the ledger gives it back, field by field, and no matter how it was stored. */
  ghost predicate ReadsBack(stored: Spec, spec: Spec) {
    && stored.id == spec.id && stored.projectId == spec.projectId && stored.name == spec.name
    && stored.description == spec.description && stored.baseModel == spec.baseModel
    && stored.datasets == spec.datasets && stored.resources == spec.resources
    && SameUnlessNil(stored.refs.trainer, spec.refs.trainer) && SameUnlessNil(stored.refs.resource, spec.refs.resource)
    && SameUnlessNil(stored.refs.output, spec.refs.output)
    && stored.parameters.Keys == spec.parameters.Keys
    && forall key :: key in spec.parameters ==> ReadsBackAs(stored.parameters, key, spec.parameters[key])
  }

  /** A Nil reference comes back as none. */
  predicate SameUnlessNil(stored: Option<Uuid.Id>, ref: Option<Uuid.Id>) {
    if ref == Some(Uuid.Nil) then stored.None? else stored == ref
  }

  lemma NormalReadsBack(spec: Spec)
    requires Convertible(spec)
    ensures ReadsBack(Normal(spec), spec)
  {
    hide FormatNumber, IsTextOf;
    var p := spec.parameters;
    assert NormalParameters(p).Keys == p.Keys;
    forall key | key in p
      ensures ReadsBackAs(NormalParameters(p), key, p[key])
    {
      FormatNumberMeaning(p[key]);
    }
    hide NormalParameters, ReadsBackAs;
  }

  /** What CreateRun stored reads back field by field, every number as its own text. */
  lemma CreatedSpecReadsBackByField(t: Tables, spec: Spec, run: Run)
    requires Valid(t) && Convertible(spec) && Admits(t, spec, run)
    ensures
      var stored := StoredSpec(AddRun(t, spec, run), Uuid.String(spec.id));
      stored.Some? && ReadsBack(stored.value, spec)
  {
    hide Valid, Admits, AddRun, StoredSpec, Normal, ReadsBack, FormatNumber;
    CreatedSpecReadsBack(t, spec, run);
    NormalReadsBack(spec);
  }

  /** The rows CreateRun adds, column by column. */
  lemma AddedRowsByColumn(t: Tables, spec: Spec, run: Run)
    requires Convertible(spec)
    ensures
      var u, id, runId := AddRun(t, spec, run), Uuid.Canonical(spec.id), Uuid.Canonical(run.id);
      && u.specs == t.specs[id := SpecRow(id, Uuid.Canonical(spec.projectId), spec.name, spec.description, spec.baseModel,
                                          spec.resources, Stamp(run.lifecycle.createdAt))]
      && u.runs == t.runs[runId := RunRow(runId, Uuid.Canonical(run.projectId), Uuid.Canonical(run.specId), None,
                                          run.lifecycle.status, None, Stamp(run.lifecycle.createdAt), None, None)]
      && u.projects == t.projects && u.categories == t.categories && u.presets == t.presets
  {
    hide DatasetEntries, ParameterEntries, RefEntries, Numeric;
  }

  lemma AddedDatasetsByColumn(t: Tables, spec: Spec, run: Run, k: (Uuid.Text, int))
    requires Convertible(spec)
    ensures
      var u := AddRun(t, spec, run);
      if k.0 == Uuid.Canonical(spec.id) && 0 <= k.1 < |spec.datasets| then
        k in u.datasets && u.datasets[k] == DatasetRow(k.1, spec.datasets[k.1].path, spec.datasets[k.1].split)
      else (k in u.datasets <==> k in t.datasets) && (k in t.datasets ==> u.datasets[k] == t.datasets[k])
  {
    hide ParameterEntries, RefEntries, Numeric, SpecRowOf, RunRowOf;
  }

  lemma AddedParametersByColumn(t: Tables, spec: Spec, run: Run, k: (Uuid.Text, string))
    requires Convertible(spec)
    ensures
      var u := AddRun(t, spec, run);
      if k.0 == Uuid.Canonical(spec.id) && k.1 in spec.parameters then
        k in u.parameters && u.parameters[k].key == k.1 && IsTextOf(u.parameters[k].value, spec.parameters[k.1])
      else (k in u.parameters <==> k in t.parameters) && (k in t.parameters ==> u.parameters[k] == t.parameters[k])
  {
    if k.1 in spec.parameters {
      assert FormatNumber(spec.parameters[k.1]).Some?;
      FormatNumberMeaning(spec.parameters[k.1]);
    }
    hide FormatNumber, IsTextOf, DatasetEntries, RefEntries, SpecRowOf, RunRowOf;
  }

  function RefOf(refs: Refs, category: Category): Option<Uuid.Id> {
    match category
    case TrainerCategory => refs.trainer
    case ResourceCategory => refs.resource
    case OutputCategory => refs.output
    case OtherCategory(_) => None
  }

  lemma RefEntriesByColumn(spec: Spec, k: (Uuid.Text, Category))
    ensures
      var ref := RefOf(spec.refs, k.1);
      if k.0 == Uuid.Canonical(spec.id) && ref.Some? && ref.value != Uuid.Nil then
        k in RefEntries(spec) && RefEntries(spec)[k] == RefRow(k.1, Uuid.Canonical(ref.value))
      else k !in RefEntries(spec)
  {
  }

  lemma AddedRefsByColumn(t: Tables, spec: Spec, run: Run, k: (Uuid.Text, Category))
    requires Convertible(spec)
    ensures
      var u, ref := AddRun(t, spec, run), RefOf(spec.refs, k.1);
      if k.0 == Uuid.Canonical(spec.id) && ref.Some? && ref.value != Uuid.Nil then
        k in u.presetRefs && u.presetRefs[k] == RefRow(k.1, Uuid.Canonical(ref.value))
      else (k in u.presetRefs <==> k in t.presetRefs) && (k in t.presetRefs ==> u.presetRefs[k] == t.presetRefs[k])
  {
    hide DatasetEntries, ParameterEntries, RefEntries, SpecRowOf, RunRowOf, Numeric;
    RefEntriesByColumn(spec, k);
  }

  /** Storing a spec read back from the ledger writes the very same rows, all tables included. */
  lemma NormalStoresTheSame(t: Tables, spec: Spec, run: Run)
    requires Convertible(spec)
    ensures Convertible(Normal(spec)) && AddRun(t, Normal(spec), run) == AddRun(t, spec, run)
  {
    hide FormatNumber;
    var n := Normal(spec);
    assert spec.parameters.Keys == n.parameters.Keys;
    NormalTextIsTheText(spec);
    assert DatasetEntries(n) == DatasetEntries(spec);
    assert ParameterEntries(n) == ParameterEntries(spec);
    assert RefEntries(n) == RefEntries(spec);
  }

  lemma NormalTextIsTheText(spec: Spec)
    requires Numeric(spec.parameters)
    ensures Normal(spec).parameters.Keys == spec.parameters.Keys
    ensures forall key :: key in spec.parameters ==> FormatNumber(Normal(spec).parameters[key]) == FormatNumber(spec.parameters[key])
  {
  }

  lemma MigrateKeepsLedgerRows(t: Tables)
    ensures Migrate(t).specs == t.specs && Migrate(t).datasets == t.datasets && Migrate(t).parameters == t.parameters
    ensures Migrate(t).presetRefs == t.presetRefs && Migrate(t).runs == t.runs && Migrate(t).projects == t.projects
    ensures t.categories <= Migrate(t).categories && t.presets.Keys <= Migrate(t).presets.Keys
  {
    hide Migrate;
  }

  lemma MigrateExtends(t: Tables)
    requires Valid(t)
    ensures Valid(Migrate(t)) && Extends(t, Migrate(t))
  {
    MigrateKeepsLedgerRows(t);
    hide Migrate, RunOf;
  }

  /** Migrating an open ledger again changes no spec of any run. */
  lemma MigrateChangesNoSpec(t: Tables, id: Uuid.Text)
    requires Valid(t)
    ensures SpecOfRun(Migrate(t), id) == SpecOfRun(t, id)
  {
    MigrateExtends(t);
    MigrateKeepsLedgerRows(t);
    if id in t.runs {
      SpecOfRunIsStable(t, Migrate(t), id);
    }
  }

  // CreateRun as the statements it sends.

  function DatasetInserts(spec: Uuid.Text, rows: seq<DatasetRow>): seq<Statement> {
    seq(|rows|, i requires 0 <= i < |rows| => InsertDataset(spec, rows[i]))
  }

  function ParameterInserts(spec: Uuid.Text, rows: seq<ParameterRow>): seq<Statement> {
    seq(|rows|, i requires 0 <= i < |rows| => InsertParameter(spec, rows[i]))
  }

  function RefInsert(spec: Uuid.Text, category: Category, ref: Option<Uuid.Id>): seq<Statement> {
    if IsSet(ref) then [InsertRef(spec, RefRow(category, Uuid.String(ref.value)))] else []
  }

  function RefInserts(spec: Uuid.Text, refs: Refs): seq<Statement> {
    RefInsert(spec, TrainerCategory, refs.trainer) + RefInsert(spec, ResourceCategory, refs.resource)
    + RefInsert(spec, OutputCategory, refs.output)
  }

  /** The preset inserts of the first `n` categories. */
  function RefInsertsUpTo(spec: Uuid.Text, refs: seq<(Category, Option<Uuid.Id>)>, n: nat): seq<Statement>
    requires n <= |refs|
  {
    if n == 0 then [] else RefInsertsUpTo(spec, refs, n - 1) + RefInsert(spec, refs[n - 1].0, refs[n - 1].1)
  }

  function RefList(refs: Refs): (list: seq<(Category, Option<Uuid.Id>)>)
    ensures |list| == 3
  {
    [(TrainerCategory, refs.trainer), (ResourceCategory, refs.resource), (OutputCategory, refs.output)]
  }

  lemma RefInsertsInOrder(spec: Uuid.Text, refs: Refs)
    ensures RefInserts(spec, refs) == RefInsertsUpTo(spec, RefList(refs), 3)
  {
    hide RefInsert;
    var list := RefList(refs);
    assert RefInsertsUpTo(spec, list, 1) == RefInsert(spec, TrainerCategory, refs.trainer);
    assert RefInsertsUpTo(spec, list, 2)
        == RefInsert(spec, TrainerCategory, refs.trainer) + RefInsert(spec, ResourceCategory, refs.resource);
  }

  lemma {:induction false} RefInsertsGrow(spec: Uuid.Text, refs: seq<(Category, Option<Uuid.Id>)>, n: nat, m: nat)
    requires n <= m <= |refs|
    ensures RefInsertsUpTo(spec, refs, n) <= RefInsertsUpTo(spec, refs, m)
  {
    hide RefInsert;
    if n < m {
      RefInsertsGrow(spec, refs, n, m - 1);
    }
  }

  /** What was sent before, and then the preset inserts of the first `n` categories. */
  function WithRefs(sent: seq<Statement>, spec: Uuid.Text, refs: seq<(Category, Option<Uuid.Id>)>, n: nat): seq<Statement>
    requires n <= |refs|
  {
    sent + RefInsertsUpTo(spec, refs, n)
  }

  lemma NextRefInserts(sent: seq<Statement>, spec: Uuid.Text, refs: seq<(Category, Option<Uuid.Id>)>, i: nat)
    requires i < |refs|
    ensures WithRefs(sent, spec, refs, i) + RefInsert(spec, refs[i].0, refs[i].1) == WithRefs(sent, spec, refs, i + 1)
    ensures WithRefs(sent, spec, refs, i + 1) <= WithRefs(sent, spec, refs, |refs|)
  {
    hide RefInsert;
    RefInsertsGrow(spec, refs, i + 1, |refs|);
  }

  /** What was sent before, and then the inserts of the first `n` rows. */
  function WithDatasets(sent: seq<Statement>, spec: Uuid.Text, rows: seq<DatasetRow>, n: nat): seq<Statement>
    requires n <= |rows|
  {
    sent + DatasetInserts(spec, rows[..n])
  }

  lemma WithDatasetsAtTheEnds(sent: seq<Statement>, spec: Uuid.Text, rows: seq<DatasetRow>)
    ensures WithDatasets(sent, spec, rows, 0) == sent
    ensures WithDatasets(sent, spec, rows, |rows|) == sent + DatasetInserts(spec, rows)
  {
    assert rows[..|rows|] == rows;
  }

  lemma NextDatasetInserts(sent: seq<Statement>, spec: Uuid.Text, rows: seq<DatasetRow>, i: nat)
    requires i < |rows|
    ensures WithDatasets(sent, spec, rows, i) + [InsertDataset(spec, rows[i])] == WithDatasets(sent, spec, rows, i + 1)
    ensures WithDatasets(sent, spec, rows, i + 1) <= WithDatasets(sent, spec, rows, |rows|)
  {
  }

  /** What was sent before, and then the inserts of the first `n` rows. */
  function WithParameters(sent: seq<Statement>, spec: Uuid.Text, rows: seq<ParameterRow>, n: nat): seq<Statement>
    requires n <= |rows|
  {
    sent + ParameterInserts(spec, rows[..n])
  }

  lemma WithParametersAtTheEnds(sent: seq<Statement>, spec: Uuid.Text, rows: seq<ParameterRow>)
    ensures WithParameters(sent, spec, rows, 0) == sent
    ensures WithParameters(sent, spec, rows, |rows|) == sent + ParameterInserts(spec, rows)
  {
    assert rows[..|rows|] == rows;
  }

  lemma NextParameterInserts(sent: seq<Statement>, spec: Uuid.Text, rows: seq<ParameterRow>, i: nat)
    requires i < |rows|
    ensures WithParameters(sent, spec, rows, i) + [InsertParameter(spec, rows[i])] == WithParameters(sent, spec, rows, i + 1)
    ensures WithParameters(sent, spec, rows, i + 1) <= WithParameters(sent, spec, rows, |rows|)
  {
  }

  function SpecInserts(e: SpecEntity): seq<Statement> {
    [InsertSpec(e.row)] + DatasetInserts(e.row.id, e.datasets) + ParameterInserts(e.row.id, e.parameters)
    + RefInserts(e.row.id, e.refs)
  }

  /** `insertSpec`, then `insertRun`. */
  function Inserts(e: SpecEntity, run: Run): seq<Statement> {
    SpecInserts(e) + [InsertRun(RunRowOf(run))]
  }

  lemma MergeThenPut<K, V>(m: map<K, V>, added: map<K, V>, k: K, v: V)
    ensures (m + added)[k := v] == m + added[k := v]
  {
  }

  lemma {:induction false} DatasetsExecute(t: Tables, spec: Uuid.Text, rows: seq<DatasetRow>, all: map<(Uuid.Text, int), DatasetRow>)
    requires spec in t.specs
    requires forall i :: 0 <= i < |rows| ==> (rows[i].ordinal == i && (spec, i) !in t.datasets)
    requires forall k :: k in all <==> k.0 == spec && 0 <= k.1 < |rows|
    requires forall i :: 0 <= i < |rows| ==> all[(spec, i)] == rows[i]
    ensures ExecuteAll(t, DatasetInserts(spec, rows)) == Some(t.(datasets := t.datasets + all))
  {
    if rows == [] {
      assert all == map[];
      assert t.datasets + all == t.datasets;
    } else {
      var n := |rows| - 1;
      var less := map k | k in all && k.1 != n :: all[k];
      assert DatasetInserts(spec, rows) == DatasetInserts(spec, rows[..n]) + [InsertDataset(spec, rows[n])];
      assert less[(spec, n) := rows[n]] == all && (spec, n) !in less;
      hide DatasetInserts;
      DatasetsExecute(t, spec, rows[..n], less);
      ExecuteAllOfAppend(t, DatasetInserts(spec, rows[..n]), InsertDataset(spec, rows[n]));
      hide ExecuteAll;
      DatasetExecutes(t, spec, less, rows[n]);
    }
  }

  lemma DatasetExecutes(t: Tables, spec: Uuid.Text, added: map<(Uuid.Text, int), DatasetRow>, row: DatasetRow)
    requires spec in t.specs && (spec, row.ordinal) !in t.datasets && (spec, row.ordinal) !in added
    ensures Execute(t.(datasets := t.datasets + added), InsertDataset(spec, row)) ==
            Some(t.(datasets := t.datasets + added[(spec, row.ordinal) := row]))
  {
    MergeThenPut(t.datasets, added, (spec, row.ordinal), row);
  }

  lemma {:induction false} ParametersExecute(t: Tables, spec: Uuid.Text, rows: seq<ParameterRow>,
                                             all: map<(Uuid.Text, string), ParameterRow>)
    requires spec in t.specs && DistinctKeys(rows)
    requires forall i :: 0 <= i < |rows| ==>
               ((spec, rows[i].key) !in t.parameters && (spec, rows[i].key) in all && all[(spec, rows[i].key)] == rows[i])
    requires forall k :: k in all ==> k.0 == spec && HasKey(rows, k.1)
    ensures ExecuteAll(t, ParameterInserts(spec, rows)) == Some(t.(parameters := t.parameters + all))
  {
    if rows == [] {
      assert all == map[];
      assert t.parameters + all == t.parameters;
    } else {
      var n := |rows| - 1;
      var less := map k | k in all && k.1 != rows[n].key :: all[k];
      AllButLast(spec, rows, all, less);
      assert ParameterInserts(spec, rows) == ParameterInserts(spec, rows[..n]) + [InsertParameter(spec, rows[n])];
      hide DistinctKeys, HasKey, ParameterInserts;
      ParametersExecute(t, spec, rows[..n], less);
      ExecuteAllOfAppend(t, ParameterInserts(spec, rows[..n]), InsertParameter(spec, rows[n]));
      ParameterExecutes(t, spec, less, rows[n]);
    }
  }

  lemma ParameterExecutes(t: Tables, spec: Uuid.Text, added: map<(Uuid.Text, string), ParameterRow>, row: ParameterRow)
    requires spec in t.specs && (spec, row.key) !in t.parameters && (spec, row.key) !in added
    ensures Execute(t.(parameters := t.parameters + added), InsertParameter(spec, row)) ==
            Some(t.(parameters := t.parameters + added[(spec, row.key) := row]))
  {
    MergeThenPut(t.parameters, added, (spec, row.key), row);
  }

  lemma AllButLast(spec: Uuid.Text, rows: seq<ParameterRow>, all: map<(Uuid.Text, string), ParameterRow>,
                   less: map<(Uuid.Text, string), ParameterRow>)
    requires rows != [] && DistinctKeys(rows)
    requires forall i :: 0 <= i < |rows| ==> ((spec, rows[i].key) in all && all[(spec, rows[i].key)] == rows[i])
    requires forall k :: k in all ==> k.0 == spec && HasKey(rows, k.1)
    requires less == map k | k in all && k.1 != rows[|rows| - 1].key :: all[k]
    ensures DistinctKeys(rows[..|rows| - 1])
    ensures forall k :: k in less ==> HasKey(rows[..|rows| - 1], k.1)
    ensures less[(spec, rows[|rows| - 1].key) := rows[|rows| - 1]] == all
    ensures forall i :: 0 <= i < |rows| - 1 ==> ((spec, rows[i].key) in less && less[(spec, rows[i].key)] == rows[i])
    ensures (spec, rows[|rows| - 1].key) !in less
  {
    var n := |rows| - 1;
    forall k | k in less
      ensures HasKey(rows[..n], k.1)
    {
      var i :| 0 <= i < |rows| && rows[i].key == k.1;
      assert rows[..n][i].key == k.1;
    }
  }

  function AddEntries(t: Tables, entries: map<(Uuid.Text, Category), RefRow>): Tables {
    t.(presetRefs := t.presetRefs + entries)
  }

  lemma RefExecutes(t: Tables, spec: Spec, category: Category, ref: Option<Uuid.Id>)
    requires Uuid.String(spec.id) in t.specs && (Uuid.String(spec.id), category) !in t.presetRefs
    ensures ExecuteAll(t, RefInsert(Uuid.String(spec.id), category, ref)) ==
            if Known(t, category, ref) then Some(AddEntries(t, RefEntry(spec, category, ref))) else None
  {
    hide RunOf, FormatNumber;
    var id := Uuid.String(spec.id);
    var ss := RefInsert(id, category, ref);
    if IsSet(ref) {
      assert ss[..0] == [];
      assert ExecuteAll(t, ss) == Execute(t, ss[0]);
      var row := RefRow(category, Uuid.String(ref.value));
      assert t.presetRefs[(id, category) := row] == t.presetRefs + map[(id, category) := row];
    } else {
      assert t.presetRefs + RefEntry(spec, category, ref) == t.presetRefs;
    }
  }

  predicate AllKnown(t: Tables, refs: Refs) {
    Known(t, TrainerCategory, refs.trainer) && Known(t, ResourceCategory, refs.resource)
    && Known(t, OutputCategory, refs.output)
  }

  lemma TwoRefsExecute(t: Tables, spec: Spec)
    requires Uuid.String(spec.id) in t.specs && forall c :: (Uuid.String(spec.id), c) !in t.presetRefs
    ensures ExecuteAll(t, RefInsert(Uuid.String(spec.id), TrainerCategory, spec.refs.trainer)
                          + RefInsert(Uuid.String(spec.id), ResourceCategory, spec.refs.resource)) ==
            if Known(t, TrainerCategory, spec.refs.trainer) && Known(t, ResourceCategory, spec.refs.resource)
            then Some(AddEntries(t, RefEntry(spec, TrainerCategory, spec.refs.trainer)
                                    + RefEntry(spec, ResourceCategory, spec.refs.resource)))
            else None
  {
    var id, refs := Uuid.String(spec.id), spec.refs;
    var x, y := RefEntry(spec, TrainerCategory, refs.trainer), RefEntry(spec, ResourceCategory, refs.resource);
    var u := AddEntries(t, x);
    RefExecutes(t, spec, TrainerCategory, refs.trainer);
    RefExecutes(u, spec, ResourceCategory, refs.resource);
    ExecuteAllOfConcat(t, RefInsert(id, TrainerCategory, refs.trainer), RefInsert(id, ResourceCategory, refs.resource));
    AddEntriesTwice(t, x, y);
    assert Known(u, ResourceCategory, refs.resource) == Known(t, ResourceCategory, refs.resource);
    hide RefInsert, RefEntry, ExecuteAll, AddEntries, Known;
  }

  lemma RefsExecute(t: Tables, spec: Spec)
    requires Uuid.String(spec.id) in t.specs && forall c :: (Uuid.String(spec.id), c) !in t.presetRefs
    ensures ExecuteAll(t, RefInserts(Uuid.String(spec.id), spec.refs)) ==
            if AllKnown(t, spec.refs) then Some(AddEntries(t, RefEntries(spec))) else None
  {
    var id, refs := Uuid.String(spec.id), spec.refs;
    var a, b := RefInsert(id, TrainerCategory, refs.trainer) + RefInsert(id, ResourceCategory, refs.resource),
                RefInsert(id, OutputCategory, refs.output);
    var x, y := RefEntry(spec, TrainerCategory, refs.trainer) + RefEntry(spec, ResourceCategory, refs.resource),
                RefEntry(spec, OutputCategory, refs.output);
    var u := AddEntries(t, x);
    TwoRefsExecute(t, spec);
    RefExecutes(u, spec, OutputCategory, refs.output);
    ExecuteAllOfConcat(t, a, b);
    AddEntriesTwice(t, x, y);
    assert Known(u, OutputCategory, refs.output) == Known(t, OutputCategory, refs.output);
    assert RefInserts(id, refs) == a + b && RefEntries(spec) == x + y;
    hide RefInsert, RefEntry, RefInserts, RefEntries, ExecuteAll, AddEntries, Known;
  }

  lemma AddEntriesTwice(t: Tables, x: map<(Uuid.Text, Category), RefRow>, y: map<(Uuid.Text, Category), RefRow>)
    ensures AddEntries(AddEntries(t, x), y) == AddEntries(t, x + y)
  {
    assert (t.presetRefs + x) + y == t.presetRefs + (x + y);
  }

  /** The tables after the spec row and its datasets and parameters. */
  function WithoutRefs(t: Tables, spec: Spec, createdAt: TimeText): Tables
    requires Numeric(spec.parameters)
  {
    t.(specs := t.specs[Uuid.String(spec.id) := SpecRowOf(spec, createdAt)],
       datasets := t.datasets + DatasetEntries(spec),
       parameters := t.parameters + ParameterEntries(spec))
  }

  lemma RowsExecute(t: Tables, e: SpecEntity, spec: Spec, createdAt: TimeText)
    requires Valid(t) && Flattens(e, spec, createdAt)
    ensures ExecuteAll(t, [InsertSpec(e.row)] + DatasetInserts(e.row.id, e.datasets) + ParameterInserts(e.row.id, e.parameters))
            == if Uuid.String(spec.id) !in t.specs && Uuid.String(spec.projectId) in t.projects
               then Some(WithoutRefs(t, spec, createdAt)) else None
  {
    hide RunOf, FormatNumber;
    var id := e.row.id;
    var first, second, third := InsertSpec(e.row), DatasetInserts(id, e.datasets), ParameterInserts(id, e.parameters);
    ExecuteOne(t, first);
    ExecuteAllOfConcat(t, [first], second);
    ExecuteAllOfConcat(t, [first] + second, third);
    hide DatasetInserts, ParameterInserts, ExecuteAll;
    if Permits(t, first) {
      ChildrenExecute(t, Insert(t, first), e, spec, createdAt);
      hide SpecRowOf, DatasetEntries, ParameterEntries, Flattens;
    } else {
      hide SpecRowOf, Numeric, FlattensParameters;
    }
  }

  lemma ChildrenExecute(t: Tables, u: Tables, e: SpecEntity, spec: Spec, createdAt: TimeText)
    requires Valid(t) && Flattens(e, spec, createdAt) && e.row.id !in t.specs
    requires u == t.(specs := t.specs[e.row.id := e.row])
    ensures ExecuteAll(u, DatasetInserts(e.row.id, e.datasets)) == Some(u.(datasets := u.datasets + DatasetEntries(spec)))
    ensures ExecuteAll(u.(datasets := u.datasets + DatasetEntries(spec)), ParameterInserts(e.row.id, e.parameters))
         == Some(WithoutRefs(t, spec, createdAt))
  {
    hide ExecuteAll, DatasetInserts, ParameterInserts, FormatNumber, FlattensParameters;
    hide ValidSpecs, ValidRefs, ValidRuns;
    var id := e.row.id;
    assert id == Uuid.String(spec.id);
    assert forall i :: (id, i) !in t.datasets;
    assert forall key :: (id, key) !in t.parameters;
    DatasetsExecute(u, id, e.datasets, DatasetEntries(spec));
    FlattenedParametersExecute(u.(datasets := u.datasets + DatasetEntries(spec)), e.parameters, spec);
  }

  lemma FlattenedParametersExecute(t: Tables, rows: seq<ParameterRow>, spec: Spec)
    requires Uuid.String(spec.id) in t.specs && forall key :: (Uuid.String(spec.id), key) !in t.parameters
    requires Numeric(spec.parameters) && FlattensParameters(rows, spec.parameters)
    ensures ExecuteAll(t, ParameterInserts(Uuid.String(spec.id), rows))
         == Some(t.(parameters := t.parameters + ParameterEntries(spec)))
  {
    hide FormatNumber, ExecuteAll, ParameterInserts;
    ParametersExecute(t, Uuid.String(spec.id), rows, ParameterEntries(spec));
  }

  /**
   * The whole transaction body succeeds exactly when the schema admits the call, and then leaves
   * the same tables for every order of the parameter rows.
   */
  lemma InsertsExecute(t: Tables, e: SpecEntity, spec: Spec, run: Run)
    requires Valid(t) && Flattens(e, spec, Stamp(run.lifecycle.createdAt))
    ensures ExecuteAll(t, Inserts(e, run)) == if Admits(t, spec, run) then Some(AddRun(t, spec, run)) else None
  {
    hide RunOf, FormatNumber;
    var createdAt, id := Stamp(run.lifecycle.createdAt), Uuid.String(spec.id);
    var rows := [InsertSpec(e.row)] + DatasetInserts(id, e.datasets) + ParameterInserts(id, e.parameters);
    var refs, last := RefInserts(id, spec.refs), InsertRun(RunRowOf(run));
    assert Inserts(e, run) == rows + refs + [last];
    RowsExecute(t, e, spec, createdAt);
    ExecuteAllOfConcat(t, rows, refs);
    ExecuteAllOfConcat(t, rows + refs, [last]);
    if id !in t.specs && Uuid.String(spec.projectId) in t.projects {
      hide DatasetInserts, ParameterInserts, Inserts, SpecInserts, FormatNumber, Flattens, RefInserts;
      hide DatasetEntries, ParameterEntries, RefEntries, SpecRowOf, RunRowOf, AddRun, ExecuteAll;
      hide ValidDatasets, ValidParameters, ValidRuns, ValidSpecs;
      var u := WithoutRefs(t, spec, createdAt);
      RefsExecute(u, spec);
      RunExecutes(t, spec, run);
    }
  }

  lemma RunExecutes(t: Tables, spec: Spec, run: Run)
    requires Numeric(spec.parameters)
    ensures
      var v := AddEntries(WithoutRefs(t, spec, Stamp(run.lifecycle.createdAt)), RefEntries(spec));
      ExecuteAll(v, [InsertRun(RunRowOf(run))]) ==
      if Uuid.String(run.id) !in t.runs && Uuid.String(run.projectId) in t.projects
         && (run.specId == spec.id || Uuid.String(run.specId) in t.specs)
      then Some(AddRun(t, spec, run)) else None
  {
    hide FormatNumber, DatasetEntries, ParameterEntries, RefEntries, SpecRowOf;
    ExecuteOne(AddEntries(WithoutRefs(t, spec, Stamp(run.lifecycle.createdAt)), RefEntries(spec)), InsertRun(RunRowOf(run)));
    hide ExecuteAll;
  }

  lemma ExecuteOne(t: Tables, s: Statement)
    ensures ExecuteAll(t, [s]) == Execute(t, s)
  {
    assert [s][..0] == [];
  }
}
