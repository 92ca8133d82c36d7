/** `entity.Spec` and `entity.Run`: flattening a spec into rows and rebuilding it from them. */
module Entities {
  import opened Prelude
  import opened Domain
  import opened Timestamps
  import opened Schema
  import opened Numbers
  import Uuid

  datatype SpecEntity = SpecEntity(
    row: SpecRow, refs: Refs, datasets: seq<DatasetRow>, parameters: seq<ParameterRow>)

  predicate Numeric(parameters: map<string, Value>) {
    forall key :: key in parameters ==> FormatNumber(parameters[key]).Some?
  }

  /** What `FromData` demands of a spec. */
  predicate Convertible(spec: Spec) {
    spec.id != Uuid.Nil && spec.projectId != Uuid.Nil && Numeric(spec.parameters)
  }

  function SpecRowOf(spec: Spec, createdAt: TimeText): SpecRow {
    SpecRow(Uuid.String(spec.id), Uuid.String(spec.projectId), spec.name, spec.description, spec.baseModel,
            spec.resources, createdAt)
  }

  function DatasetRowOf(i: int, d: DatasetRef): DatasetRow { DatasetRow(i, d.path, d.split) }

  /**
   * `e` is a flattening of `spec`. The parameter rows stand in the order Go's map iteration
   * happened to take, so a spec has many flattenings.
   */
  ghost predicate Flattens(e: SpecEntity, spec: Spec, createdAt: TimeText) {
    && Convertible(spec)
    && e.row == SpecRowOf(spec, createdAt)
    && e.refs == spec.refs
    && |e.datasets| == |spec.datasets|
    && (forall i :: 0 <= i < |e.datasets| ==> e.datasets[i] == DatasetRowOf(i, spec.datasets[i]))
    && FlattensParameters(e.parameters, spec.parameters)
  }

  ghost predicate FlattensParameters(rows: seq<ParameterRow>, parameters: map<string, Value>) {
    && DistinctKeys(rows)
    && (forall i :: 0 <= i < |rows| ==>
          rows[i].key in parameters && FormatNumber(parameters[rows[i].key]) == Some(rows[i].value))
    && (forall key :: key in parameters ==> HasKey(rows, key))
  }

  ghost predicate DistinctKeys(rows: seq<ParameterRow>) {
    forall i, j :: 0 <= i < j < |rows| ==> rows[i].key != rows[j].key
  }

  ghost predicate HasKey(rows: seq<ParameterRow>, key: string) {
    exists i :: 0 <= i < |rows| && rows[i].key == key
  }

  /** Column by column what a flattening holds; each parameter as the text its value has to have. */
  ghost predicate HasColumns(e: SpecEntity, spec: Spec, createdAt: TimeText) {
    && e.row.id == Uuid.Canonical(spec.id) && e.row.projectId == Uuid.Canonical(spec.projectId)
    && e.row.name == spec.name && e.row.description == spec.description && e.row.baseModel == spec.baseModel
    && e.row.resources == spec.resources && e.row.createdAt == createdAt && e.refs == spec.refs
    && |e.datasets| == |spec.datasets|
    && (forall i :: 0 <= i < |e.datasets| ==>
          && e.datasets[i].ordinal == i && e.datasets[i].datasetRef == spec.datasets[i].path
          && e.datasets[i].splitName == spec.datasets[i].split)
    && DistinctKeys(e.parameters) && (forall key :: key in spec.parameters <==> HasKey(e.parameters, key))
    && (forall i :: 0 <= i < |e.parameters| && e.parameters[i].key in spec.parameters ==>
          IsTextOf(e.parameters[i].value, spec.parameters[e.parameters[i].key]))
  }

  lemma FlatteningHasColumns(e: SpecEntity, spec: Spec, createdAt: TimeText)
    requires Flattens(e, spec, createdAt)
    ensures HasColumns(e, spec, createdAt)
  {
    hide FormatNumber, IsTextOf;
    forall i | 0 <= i < |e.parameters|
      ensures IsTextOf(e.parameters[i].value, spec.parameters[e.parameters[i].key])
    {
      FormatNumberMeaning(spec.parameters[e.parameters[i].key]);
    }
  }

  predicate AllNumbers(parameters: map<string, Value>) {
    forall key :: key in parameters ==> IsNumber(parameters[key])
  }

  lemma NumericIff(parameters: map<string, Value>)
    ensures Numeric(parameters) <==> AllNumbers(parameters)
  {
    hide FormatNumber, IsNumber;
    forall key | key in parameters
      ensures FormatNumber(parameters[key]).Some? <==> IsNumber(parameters[key])
    {
      FormatNumberMeaning(parameters[key]);
    }
  }

  method FromData(source: Spec, createdAt: TimeText) returns (result: Option<SpecEntity>)
    ensures result.Some? <==> source.id != Uuid.Nil && source.projectId != Uuid.Nil && AllNumbers(source.parameters)
    ensures result.Some? ==> HasColumns(result.value, source, createdAt)
    ensures result.Some? <==> Convertible(source)
    ensures result.Some? ==> Flattens(result.value, source, createdAt)
  {
    NumericIff(source.parameters);
    hide FormatNumber, IsTextOf, AllNumbers;
    if source.id == Uuid.Nil || source.projectId == Uuid.Nil {
      return None;
    }
    var datasets: seq<DatasetRow> := [];
    for i := 0 to |source.datasets|
      invariant |datasets| == i
      invariant forall j :: 0 <= j < i ==> datasets[j] == DatasetRowOf(j, source.datasets[j])
    {
      datasets := datasets + [DatasetRow(i, source.datasets[i].path, source.datasets[i].split)];
    }
    var parameters: seq<ParameterRow> := [];
    var todo := source.parameters.Keys;
    while todo != {}
      invariant todo <= source.parameters.Keys
      invariant DistinctKeys(parameters)
      invariant forall i :: 0 <= i < |parameters| ==>
                  parameters[i].key in source.parameters.Keys - todo
                  && FormatNumber(source.parameters[parameters[i].key]) == Some(parameters[i].value)
      invariant forall key :: key in source.parameters && key !in todo ==> HasKey(parameters, key)
      decreases todo
    {
      var key :| key in todo;
      var serialized := FormatNumber(source.parameters[key]);
      if serialized.None? {
        return None;
      }
      ghost var before := parameters;
      parameters := parameters + [ParameterRow(key, serialized.value)];
      todo := todo - {key};
      forall k | k in source.parameters && k !in todo
        ensures HasKey(parameters, k)
      {
        if k == key {
          assert parameters[|before|].key == k;
        } else {
          var i :| 0 <= i < |before| && before[i].key == k;
          assert parameters[i].key == k;
        }
      }
    }
    forall key | key in source.parameters
      ensures FormatNumber(source.parameters[key]).Some?
    {
      assert HasKey(parameters, key);
    }
    result := Some(SpecEntity(SpecRowOf(source, createdAt), source.refs, datasets, parameters));
    hide HasColumns;
    FlatteningHasColumns(result.value, source, createdAt);
  }

  /** Parameter rows as a map; a later row of the same key would win. */
  function ParametersOf(rows: seq<ParameterRow>): map<string, Value> {
    if rows == [] then map[]
    else
      var last := rows[|rows| - 1];
      ParametersOf(rows[..|rows| - 1])[last.key := JsonNumber(last.value)]
  }

  function DatasetsOf(rows: seq<DatasetRow>): seq<DatasetRef> {
    seq(|rows|, i requires 0 <= i < |rows| => DatasetRef(rows[i].datasetRef, rows[i].splitName))
  }

  /** The spec an entity stands for, if its identifiers parse. */
  function SpecOf(e: SpecEntity): Option<Spec> {
    var id, projectId := Uuid.Parse(e.row.id), Uuid.Parse(e.row.projectId);
    if id.None? || projectId.None? then None
    else
      Some(Spec(id.value, projectId.value, e.row.name, e.row.description, e.refs, e.row.baseModel,
                DatasetsOf(e.datasets), e.row.resources, ParametersOf(e.parameters)))
  }

  method ToData(e: SpecEntity) returns (result: Option<Spec>)
    ensures result == SpecOf(e)
  {
    var id := Uuid.Parse(e.row.id);
    if id.None? {
      return None;
    }
    var projectId := Uuid.Parse(e.row.projectId);
    if projectId.None? {
      return None;
    }
    var datasets: seq<DatasetRef> := [];
    for i := 0 to |e.datasets|
      invariant datasets == DatasetsOf(e.datasets[..i])
    {
      datasets := datasets + [DatasetRef(e.datasets[i].datasetRef, e.datasets[i].splitName)];
    }
    var parameters: map<string, Value> := map[];
    for i := 0 to |e.parameters|
      invariant parameters == ParametersOf(e.parameters[..i])
    {
      parameters := parameters[e.parameters[i].key := JsonNumber(e.parameters[i].value)];
      assert e.parameters[..i + 1][..i] == e.parameters[..i];
    }
    assert e.datasets[..|e.datasets|] == e.datasets && e.parameters[..|e.parameters|] == e.parameters;
    result := Some(Spec(id.value, projectId.value, e.row.name, e.row.description, e.refs, e.row.baseModel,
                        datasets, e.row.resources, parameters));
  }

  /** Parameters as the ledger gives them back: their number literals. */
  function NormalParameters(parameters: map<string, Value>): map<string, Value> {
    map key | key in parameters && FormatNumber(parameters[key]).Some? :: JsonNumber(FormatNumber(parameters[key]).value)
  }

  function NormalRef(ref: Option<Uuid.Id>): Option<Uuid.Id> {
    if IsSet(ref) then ref else None
  }

  function NormalRefs(refs: Refs): Refs {
    Refs(NormalRef(refs.trainer), NormalRef(refs.resource), NormalRef(refs.output))
  }

  /** The one normalization a stored spec undergoes. */
  function Normal(spec: Spec): Spec {
    spec.(refs := NormalRefs(spec.refs), parameters := NormalParameters(spec.parameters))
  }

  lemma {:induction false} ParametersOfKeys(rows: seq<ParameterRow>, key: string)
    ensures key in ParametersOf(rows) <==> HasKey(rows, key)
  {
    if rows != [] {
      var n := |rows| - 1;
      ParametersOfKeys(rows[..n], key);
      if HasKey(rows, key) && key != rows[n].key {
        var i :| 0 <= i < |rows| && rows[i].key == key;
        assert rows[..n][i].key == key;
      }
      if HasKey(rows[..n], key) {
        var i :| 0 <= i < n && rows[..n][i].key == key;
        assert rows[i].key == key;
      }
    }
  }

  lemma {:induction false} ParametersOfValue(rows: seq<ParameterRow>, i: nat)
    requires DistinctKeys(rows) && i < |rows|
    ensures rows[i].key in ParametersOf(rows) && ParametersOf(rows)[rows[i].key] == JsonNumber(rows[i].value)
  {
    var n := |rows| - 1;
    if i < n {
      ParametersOfValue(rows[..n], i);
    }
  }

  lemma FlattenedParametersReadBack(rows: seq<ParameterRow>, parameters: map<string, Value>)
    requires FlattensParameters(rows, parameters) && Numeric(parameters)
    ensures ParametersOf(rows) == NormalParameters(parameters)
  {
    var read := ParametersOf(rows);
    forall key | key in parameters
      ensures key in read && read[key] == JsonNumber(FormatNumber(parameters[key]).value)
    {
      var i :| 0 <= i < |rows| && rows[i].key == key;
      ParametersOfValue(rows, i);
    }
    forall key | key in read
      ensures key in parameters
    {
      ParametersOfKeys(rows, key);
    }
  }

  /** Flatten, then rebuild: the same spec with its parameters as number literals, in every iteration order. */
  lemma SpecRoundTrip(e: SpecEntity, spec: Spec, createdAt: TimeText)
    requires Flattens(e, spec, createdAt)
    ensures SpecOf(e) == Some(spec.(parameters := NormalParameters(spec.parameters)))
  {
    FlattenedParametersReadBack(e.parameters, spec.parameters);
    assert DatasetsOf(e.datasets) == spec.datasets;
  }

  /** Normalizing again changes nothing, and a normalized spec flattens to the same parameter rows. */
  lemma NormalIsIdempotent(spec: Spec)
    requires Convertible(spec)
    ensures Convertible(Normal(spec)) && Normal(Normal(spec)) == Normal(spec)
    ensures forall rows :: FlattensParameters(rows, Normal(spec).parameters) <==> FlattensParameters(rows, spec.parameters)
  {
    var p, q := spec.parameters, Normal(spec).parameters;
    assert p.Keys == q.Keys;
    assert forall key :: key in p ==> FormatNumber(q[key]) == FormatNumber(p[key]);
    assert NormalParameters(q) == q;
  }

  /** The row `insertRun` writes: five columns, the others NULL. */
  function RunRowOf(run: Run): RunRow {
    RunRow(Uuid.String(run.id), Uuid.String(run.projectId), Uuid.String(run.specId), None, run.lifecycle.status,
           None, Stamp(run.lifecycle.createdAt), None, None)
  }

  function ParseOptionalTime(text: Option<TimeText>): Option<Option<Instant>> {
    match text
    case None => Some(None)
    case Some(s) => match ReadTime(s) case None => None case Some(t) => Some(Some(t))
  }

  /** `entity.Run.ToData`. */
  function RunOf(row: RunRow): Option<Run> {
    var id, projectId, specId := Uuid.Parse(row.id), Uuid.Parse(row.projectId), Uuid.Parse(row.specId);
    var createdAt := ReadTime(row.createdAt);
    var startedAt, finishedAt := ParseOptionalTime(row.startedAt), ParseOptionalTime(row.finishedAt);
    if id.None? || projectId.None? || specId.None? || createdAt.None? || startedAt.None? || finishedAt.None? then None
    else
      Some(Run(id.value, projectId.value, specId.value, row.idempotencyKey,
               LifecycleState(row.status, row.failureReason, createdAt.value, startedAt.value, finishedAt.value)))
  }

  /** The row with every column of a run filled in. */
  function FullRow(run: Run): RunRow {
    RunRow(Uuid.Canonical(run.id), Uuid.Canonical(run.projectId), Uuid.Canonical(run.specId), run.idempotencyKey,
           run.lifecycle.status, run.lifecycle.failureReason, Stamp(run.lifecycle.createdAt),
           OptionalStamp(run.lifecycle.startedAt), OptionalStamp(run.lifecycle.finishedAt))
  }

  function OptionalStamp(at: Option<Instant>): Option<TimeText> {
    if at.Some? then Some(Stamp(at.value)) else None
  }

  /** A row stands for a run if and only if it is the run's own full row, optional columns included. */
  lemma RunOfIff(row: RunRow, run: Run)
    ensures RunOf(row) == Some(run) <==> row == FullRow(run)
  {
  }

  /** A row stands for no run if and only if an identifier or a time in it is malformed. */
  predicate HasMalformedColumn(row: RunRow) {
    || row.id.Malformed? || row.projectId.Malformed? || row.specId.Malformed? || row.createdAt.NotATime?
    || (row.startedAt.Some? && row.startedAt.value.NotATime?) || (row.finishedAt.Some? && row.finishedAt.value.NotATime?)
  }

  method RunToData(row: RunRow) returns (result: Option<Run>)
    ensures result.None? <==> HasMalformedColumn(row)
    ensures result.Some? ==> row == FullRow(result.value)
    ensures result == RunOf(row)
  {
    var id := Uuid.Parse(row.id);
    var projectId := Uuid.Parse(row.projectId);
    var specId := Uuid.Parse(row.specId);
    var createdAt := ReadTime(row.createdAt);
    if id.None? || projectId.None? || specId.None? || createdAt.None? {
      return None;
    }
    var lifecycle := LifecycleState(row.status, None, createdAt.value, None, None);
    if row.failureReason.Some? {
      lifecycle := lifecycle.(failureReason := row.failureReason);
    }
    if row.startedAt.Some? {
      var startedAt := ReadTime(row.startedAt.value);
      if startedAt.None? {
        return None;
      }
      lifecycle := lifecycle.(startedAt := startedAt);
    }
    if row.finishedAt.Some? {
      var finishedAt := ReadTime(row.finishedAt.value);
      if finishedAt.None? {
        return None;
      }
      lifecycle := lifecycle.(finishedAt := finishedAt);
    }
    var data := Run(id.value, projectId.value, specId.value, None, lifecycle);
    if row.idempotencyKey.Some? {
      data := data.(idempotencyKey := row.idempotencyKey);
    }
    result := Some(data);
  }

  /** A stored run reads back with its optional fields absent. */
  lemma StoredRunReadsBack(run: Run)
    ensures RunOf(RunRowOf(run)) ==
            Some(run.(idempotencyKey := None,
                      lifecycle := run.lifecycle.(failureReason := None, startedAt := None, finishedAt := None)))
  {
  }

  /**
   * The ledger gives a run back exactly as submitted if and only if it carries none of the four
   * optional fields: `insertRun` writes no other column.
   */
  lemma RunRoundTripIff(run: Run)
    ensures RunOf(RunRowOf(run)) == Some(run)
        <==> run.idempotencyKey.None? && run.lifecycle.failureReason.None?
             && run.lifecycle.startedAt.None? && run.lifecycle.finishedAt.None?
  {
    StoredRunReadsBack(run);
    hide RunOf, RunRowOf;
  }
}
