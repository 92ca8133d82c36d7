/**
 * The ledger tables, each keyed by its primary key, and the INSERT statements with the
 * PRIMARY KEY, UNIQUE and REFERENCES checks of the schema.
 */
module Schema {
  import opened Prelude
  import opened Domain
  import opened Timestamps
  import Uuid
  import opened Phase0

  datatype Category = TrainerCategory | ResourceCategory | OutputCategory | OtherCategory(text: string)

  datatype SpecRow = SpecRow(
    id: Uuid.Text, projectId: Uuid.Text, name: string, description: string, baseModel: string,
    resources: Resources, createdAt: TimeText)

  datatype DatasetRow = DatasetRow(ordinal: int, datasetRef: string, splitName: string)

  datatype ParameterRow = ParameterRow(key: string, value: string)

  datatype RefRow = RefRow(category: Category, presetId: Uuid.Text)

  datatype RunRow = RunRow(
    id: Uuid.Text, projectId: Uuid.Text, specId: Uuid.Text, idempotencyKey: Option<string>, status: Status,
    failureReason: Option<string>, createdAt: TimeText, startedAt: Option<TimeText>, finishedAt: Option<TimeText>)

  datatype Tables = Tables(
    projects: set<Uuid.Text>,
    categories: set<Category>,
    presets: map<Uuid.Text, Category>,
    specs: map<Uuid.Text, SpecRow>,
    datasets: map<(Uuid.Text, int), DatasetRow>,
    parameters: map<(Uuid.Text, string), ParameterRow>,
    presetRefs: map<(Uuid.Text, Category), RefRow>,
    runs: map<Uuid.Text, RunRow>)

  datatype Statement =
    | InsertSpec(spec: SpecRow)
    | InsertDataset(datasetSpec: Uuid.Text, dataset: DatasetRow)
    | InsertParameter(parameterSpec: Uuid.Text, parameter: ParameterRow)
    | InsertRef(refSpec: Uuid.Text, ref: RefRow)
    | InsertRun(run: RunRow)

  /** UNIQUE(project_id, idempotency_key): NULL keys never conflict. */
  predicate KeyTaken(t: Tables, row: RunRow) {
    row.idempotencyKey.Some?
    && exists id :: id in t.runs && t.runs[id].projectId == row.projectId && t.runs[id].idempotencyKey == row.idempotencyKey
  }

  /** The constraints one INSERT is checked against. */
  predicate Permits(t: Tables, s: Statement) {
    match s
    case InsertSpec(row) => row.id !in t.specs && row.projectId in t.projects
    case InsertDataset(spec, row) => (spec, row.ordinal) !in t.datasets && spec in t.specs
    case InsertParameter(spec, row) => (spec, row.key) !in t.parameters && spec in t.specs
    case InsertRef(spec, row) =>
      (spec, row.category) !in t.presetRefs && spec in t.specs && row.category in t.categories && row.presetId in t.presets
    case InsertRun(row) =>
      row.id !in t.runs && row.projectId in t.projects && row.specId in t.specs && !KeyTaken(t, row)
  }

  /** The tables after a permitted INSERT. */
  function Insert(t: Tables, s: Statement): Tables {
    match s
    case InsertSpec(row) => t.(specs := t.specs[row.id := row])
    case InsertDataset(spec, row) => t.(datasets := t.datasets[(spec, row.ordinal) := row])
    case InsertParameter(spec, row) => t.(parameters := t.parameters[(spec, row.key) := row])
    case InsertRef(spec, row) => t.(presetRefs := t.presetRefs[(spec, row.category) := row])
    case InsertRun(row) => t.(runs := t.runs[row.id := row])
  }

  function Execute(t: Tables, s: Statement): Option<Tables> {
    if Permits(t, s) then Some(Insert(t, s)) else None
  }

  /** A transaction body: the statements in order, or nothing once one is refused. */
  function ExecuteAll(t: Tables, ss: seq<Statement>): Option<Tables> {
    if ss == [] then Some(t)
    else
      match ExecuteAll(t, ss[..|ss| - 1])
      case None => None
      case Some(u) => Execute(u, ss[|ss| - 1])
  }

  lemma {:induction false} ExecuteAllOfConcat(t: Tables, a: seq<Statement>, b: seq<Statement>)
    ensures ExecuteAll(t, a + b) ==
            match ExecuteAll(t, a) case None => None case Some(u) => ExecuteAll(u, b)
  {
    if b == [] {
      assert a + b == a;
    } else {
      assert (a + b)[..|a + b| - 1] == a + b[..|b| - 1];
      ExecuteAllOfConcat(t, a, b[..|b| - 1]);
    }
  }

  lemma ExecuteAllOfAppend(t: Tables, ss: seq<Statement>, s: Statement)
    ensures ExecuteAll(t, ss + [s]) ==
            match ExecuteAll(t, ss) case None => None case Some(u) => Execute(u, s)
  {
    assert (ss + [s])[..|ss|] == ss;
  }

  /** Once a statement is refused, nothing sent after it can succeed. */
  lemma RefusalIsFinal(t: Tables, sent: seq<Statement>, all: seq<Statement>)
    requires sent <= all && ExecuteAll(t, sent).None?
    ensures ExecuteAll(t, all).None?
  {
    assert all == sent + all[|sent|..];
    ExecuteAllOfConcat(t, sent, all[|sent|..]);
  }

  const EmptyTables := Tables({}, {}, map[], map[], map[], map[], map[], map[])

  /** `INSERT OR IGNORE` of one preset: an existing row stays as it is. */
  function InsertOrIgnorePreset(t: Tables, id: Uuid.Text, category: Category): (u: Tables)
    ensures u == t.(presets := u.presets) && u.presets.Keys == t.presets.Keys + {id}
  {
    if id in t.presets then t else t.(presets := t.presets[id := category])
  }

  /** The migration: creates what is missing and never touches a ledger row. */
  function Migrate(t: Tables): (u: Tables)
    ensures u == t.(categories := u.categories, presets := u.presets)
    ensures u.categories == t.categories + {TrainerCategory, ResourceCategory, OutputCategory}
    ensures u.presets.Keys == t.presets.Keys + {Uuid.String(Axolotl), Uuid.String(Unsloth)}
  {
    var seeded := t.(categories := t.categories + {TrainerCategory, ResourceCategory, OutputCategory});
    InsertOrIgnorePreset(InsertOrIgnorePreset(seeded, Uuid.String(Axolotl), TrainerCategory), Uuid.String(Unsloth), TrainerCategory)
  }

  predicate Seeded(t: Tables) {
    {TrainerCategory, ResourceCategory, OutputCategory} <= t.categories && {Uuid.String(Axolotl), Uuid.String(Unsloth)} <= t.presets.Keys
  }

  lemma MigrateIsIdempotent(t: Tables)
    ensures Seeded(Migrate(t)) && Migrate(Migrate(t)) == Migrate(t)
    ensures Seeded(t) ==> Migrate(t) == t
  {
    var c := {TrainerCategory, ResourceCategory, OutputCategory};
    if Seeded(t) {
      assert t.categories + c == t.categories;
    }
    assert Migrate(t).categories + c == Migrate(t).categories;
  }

  // The constraints as the schema declares them, on whole tables.

  /** REFERENCES and UNIQUE of the ledger tables; primary keys are the keys of the maps. */
  ghost predicate Consistent(t: Tables) {
    && SpecsConsistent(t) && DatasetsConsistent(t) && ParametersConsistent(t) && RefsConsistent(t) && RunsConsistent(t)
  }

  ghost predicate SpecsConsistent(t: Tables) {
    forall id :: id in t.specs ==> t.specs[id].projectId in t.projects
  }

  ghost predicate DatasetsConsistent(t: Tables) {
    forall k :: k in t.datasets ==> k.0 in t.specs
  }

  ghost predicate ParametersConsistent(t: Tables) {
    forall k :: k in t.parameters ==> k.0 in t.specs
  }

  ghost predicate RefsConsistent(t: Tables) {
    forall k :: k in t.presetRefs ==> k.0 in t.specs && k.1 in t.categories && t.presetRefs[k].presetId in t.presets
  }

  ghost predicate RunsConsistent(t: Tables) {
    && (forall id :: id in t.runs ==> t.runs[id].projectId in t.projects && t.runs[id].specId in t.specs)
    && (forall q, r :: q in t.runs && r in t.runs && q != r ==> !SameKey(t.runs[q], t.runs[r]))
  }

  predicate SameKey(a: RunRow, b: RunRow) {
    a.projectId == b.projectId && a.idempotencyKey.Some? && a.idempotencyKey == b.idempotencyKey
  }

  /** The primary key of the row to insert is not taken. */
  predicate HasNewKey(t: Tables, s: Statement) {
    match s
    case InsertSpec(row) => row.id !in t.specs
    case InsertDataset(spec, row) => (spec, row.ordinal) !in t.datasets
    case InsertParameter(spec, row) => (spec, row.key) !in t.parameters
    case InsertRef(spec, row) => (spec, row.category) !in t.presetRefs
    case InsertRun(row) => row.id !in t.runs
  }

  lemma PermitsSpecIff(t: Tables, row: SpecRow)
    requires Consistent(t)
    ensures Permits(t, InsertSpec(row)) <==> row.id !in t.specs && Consistent(Insert(t, InsertSpec(row)))
  {
    assert Insert(t, InsertSpec(row)).specs[row.id] == row;
  }

  lemma PermitsRunIff(t: Tables, row: RunRow)
    requires Consistent(t)
    ensures Permits(t, InsertRun(row)) <==> row.id !in t.runs && Consistent(Insert(t, InsertRun(row)))
  {
    var u := Insert(t, InsertRun(row));
    assert row.id in u.runs && u.runs[row.id] == row;
    if row.id !in t.runs && KeyTaken(t, row) {
      var id :| id in t.runs && t.runs[id].projectId == row.projectId && t.runs[id].idempotencyKey == row.idempotencyKey;
      assert SameKey(u.runs[id], u.runs[row.id]);
    }
  }

  lemma PermitsRefIff(t: Tables, spec: Uuid.Text, row: RefRow)
    requires Consistent(t)
    ensures Permits(t, InsertRef(spec, row)) <==>
            (spec, row.category) !in t.presetRefs && Consistent(Insert(t, InsertRef(spec, row)))
  {
    assert Insert(t, InsertRef(spec, row)).presetRefs[(spec, row.category)] == row;
  }

  lemma PermitsChildIff(t: Tables, s: Statement)
    requires Consistent(t) && (s.InsertDataset? || s.InsertParameter?)
    ensures Permits(t, s) <==> HasNewKey(t, s) && Consistent(Insert(t, s))
  {
    match s
    case InsertDataset(spec, row) =>
      var u := Insert(t, s);
      assert (spec, row.ordinal) in u.datasets;
      assert SpecsConsistent(u) && ParametersConsistent(u) && RefsConsistent(u) && RunsConsistent(u);
    case InsertParameter(spec, row) =>
      var u := Insert(t, s);
      assert (spec, row.key) in u.parameters;
      assert SpecsConsistent(u) && DatasetsConsistent(u) && RefsConsistent(u) && RunsConsistent(u);
  }

  /** An INSERT is permitted if and only if its primary key is new and the tables stay consistent. */
  lemma PermitsIff(t: Tables, s: Statement)
    requires Consistent(t)
    ensures Permits(t, s) <==> HasNewKey(t, s) && Consistent(Insert(t, s))
  {
    hide Consistent;
    match s
    case InsertSpec(row) => PermitsSpecIff(t, row);
    case InsertRun(row) => PermitsRunIff(t, row);
    case InsertRef(spec, row) => PermitsRefIff(t, spec, row);
    case _ => PermitsChildIff(t, s);
  }
}
