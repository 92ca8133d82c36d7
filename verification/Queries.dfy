/** The SELECT statements, and how their rows rebuild a spec in whatever order they come. */
module Queries {
  import opened Prelude
  import opened Domain
  import opened Timestamps
  import opened Schema
  import opened Entities
  import opened Ledger
  import Uuid

  // SELECT ... FROM spec_preset_refs / spec_training_parameters WHERE spec_id = ?: each matching row once, in any order.

  ghost predicate SelectsRefs(t: Tables, spec: Uuid.Text, rows: seq<RefRow>) {
    && (forall i, j :: 0 <= i < j < |rows| ==> rows[i].category != rows[j].category)
    && (forall i :: 0 <= i < |rows| ==>
          ((spec, rows[i].category) in t.presetRefs && t.presetRefs[(spec, rows[i].category)] == rows[i]))
    && (forall c :: (spec, c) in t.presetRefs ==> HasCategory(rows, c))
  }

  ghost predicate HasCategory(rows: seq<RefRow>, c: Category) {
    exists i :: 0 <= i < |rows| && rows[i].category == c
  }

  ghost predicate SelectsParameters(t: Tables, spec: Uuid.Text, rows: seq<ParameterRow>) {
    && DistinctKeys(rows)
    && (forall i :: 0 <= i < |rows| ==>
          ((spec, rows[i].key) in t.parameters && t.parameters[(spec, rows[i].key)] == rows[i]))
    && (forall key :: (spec, key) in t.parameters ==> HasKey(rows, key))
  }

  /** SELECT ... FROM spec_datasets WHERE spec_id = ? ORDER BY ordinal. */
  ghost predicate SelectsDatasets(t: Tables, spec: Uuid.Text, rows: seq<DatasetRow>) {
    && (forall i, j :: 0 <= i < j < |rows| ==> rows[i].ordinal < rows[j].ordinal)
    && (forall i :: 0 <= i < |rows| ==>
          ((spec, rows[i].ordinal) in t.datasets && t.datasets[(spec, rows[i].ordinal)] == rows[i]))
    && (forall o :: (spec, o) in t.datasets ==> HasOrdinal(rows, o))
  }

  ghost predicate HasOrdinal(rows: seq<DatasetRow>, o: int) {
    exists i :: 0 <= i < |rows| && rows[i].ordinal == o
  }

  // The loop over preset rows.

  function PutRef(refs: Refs, row: RefRow): Option<Refs> {
    var id := Uuid.Parse(row.presetId);
    if id.None? then None
    else
      match row.category
      case TrainerCategory => Some(refs.(trainer := id))
      case ResourceCategory => Some(refs.(resource := id))
      case OutputCategory => Some(refs.(output := id))
      case OtherCategory(_) => None
  }

  function RefsOf(rows: seq<RefRow>): Option<Refs> {
    if rows == [] then Some(Refs(None, None, None))
    else
      match RefsOf(rows[..|rows| - 1])
      case None => None
      case Some(refs) => PutRef(refs, rows[|rows| - 1])
  }

  function RefIn(rows: seq<RefRow>, c: Category): Option<Uuid.Id> {
    if rows == [] then None
    else if rows[|rows| - 1].category == c then Uuid.Parse(rows[|rows| - 1].presetId)
    else RefIn(rows[..|rows| - 1], c)
  }

  lemma {:induction false} RefsOfByCategory(rows: seq<RefRow>)
    requires forall i :: 0 <= i < |rows| ==> (Uuid.Parse(rows[i].presetId).Some? && !rows[i].category.OtherCategory?)
    ensures RefsOf(rows) == Some(Refs(RefIn(rows, TrainerCategory), RefIn(rows, ResourceCategory), RefIn(rows, OutputCategory)))
  {
    if rows != [] {
      RefsOfByCategory(rows[..|rows| - 1]);
    }
  }

  lemma {:induction false} RefInPresent(rows: seq<RefRow>, i: nat)
    requires i < |rows| && forall j, k :: 0 <= j < k < |rows| ==> rows[j].category != rows[k].category
    ensures RefIn(rows, rows[i].category) == Uuid.Parse(rows[i].presetId)
  {
    if i < |rows| - 1 {
      RefInPresent(rows[..|rows| - 1], i);
    }
  }

  lemma {:induction false} RefInAbsent(rows: seq<RefRow>, c: Category)
    requires !HasCategory(rows, c)
    ensures RefIn(rows, c).None?
  {
    if rows != [] {
      assert rows[|rows| - 1].category != c;
      assert forall i :: 0 <= i < |rows| - 1 ==> rows[..|rows| - 1][i] == rows[i];
      RefInAbsent(rows[..|rows| - 1], c);
    }
  }

  lemma SelectedRef(t: Tables, spec: Uuid.Text, rows: seq<RefRow>, c: Category)
    requires SelectsRefs(t, spec, rows)
    ensures RefIn(rows, c) == RefFrom(t, spec, c)
  {
    if (spec, c) in t.presetRefs {
      var i :| 0 <= i < |rows| && rows[i].category == c;
      RefInPresent(rows, i);
    } else {
      RefInAbsent(rows, c);
    }
  }

  lemma SelectedRefs(t: Tables, spec: Uuid.Text, rows: seq<RefRow>)
    requires Valid(t) && SelectsRefs(t, spec, rows)
    ensures RefsOf(rows) == Some(RefsFrom(t, spec))
  {
    hide ValidRuns, ValidSpecs, ValidDatasets, ValidParameters;
    RefsOfByCategory(rows);
    SelectedRef(t, spec, rows, TrainerCategory);
    SelectedRef(t, spec, rows, ResourceCategory);
    SelectedRef(t, spec, rows, OutputCategory);
  }

  lemma SelectedParameters(t: Tables, spec: Uuid.Text, rows: seq<ParameterRow>)
    requires Valid(t) && SelectsParameters(t, spec, rows)
    ensures ParametersOf(rows) == ParametersFrom(t, spec)
  {
    hide ValidRuns, ValidSpecs, ValidDatasets, ValidRefs;
    var got, want := ParametersOf(rows), ParametersFrom(t, spec);
    forall key | key in want
      ensures key in got && got[key] == want[key]
    {
      assert (spec, key) in t.parameters;
      var i :| 0 <= i < |rows| && rows[i].key == key;
      ParametersOfValue(rows, i);
    }
    forall key | key in got
      ensures key in want
    {
      ParametersOfKeys(rows, key);
      var i :| 0 <= i < |rows| && rows[i].key == key;
      assert (spec, key) in t.parameters;
    }
  }

  /** A strictly increasing sequence of naturals that is closed downwards is 0, 1, 2, ... */
  lemma {:induction false} GapFree(os: seq<int>, i: nat)
    requires i < |os| && forall j, k :: 0 <= j < k < |os| ==> os[j] < os[k]
    requires forall j, o :: 0 <= j < |os| && 0 <= o <= os[j] ==> o in os
    requires forall j :: 0 <= j < |os| ==> 0 <= os[j]
    ensures os[i] == i
  {
    if i > 0 {
      GapFree(os, i - 1);
    }
    assert i <= os[i];
    assert i in os;
  }

  /** Ordered rows of gap-free ordinals stand at their ordinal. */
  lemma OrdinalIsPosition(t: Tables, spec: Uuid.Text, rows: seq<DatasetRow>, i: nat)
    requires ValidDatasets(t) && SelectsDatasets(t, spec, rows) && i < |rows|
    ensures rows[i].ordinal == i
  {
    var os := seq(|rows|, j requires 0 <= j < |rows| => rows[j].ordinal);
    assert forall j :: 0 <= j < |os| ==> 0 <= os[j];
    forall j, o | 0 <= j < |os| && 0 <= o <= os[j]
      ensures o in os
    {
      SmallerOrdinal(t, spec, rows, j, o);
      hide SelectsDatasets;
      var k :| 0 <= k < |rows| && rows[k].ordinal == o;
      assert os[k] == o;
    }
    hide HasOrdinal, ValidDatasets;
    GapFree(os, i);
  }

  lemma SmallerOrdinal(t: Tables, spec: Uuid.Text, rows: seq<DatasetRow>, j: nat, o: nat)
    requires ValidDatasets(t) && SelectsDatasets(t, spec, rows) && j < |rows| && o <= rows[j].ordinal
    ensures HasOrdinal(rows, o)
  {
    DownTo(t, spec, rows[j].ordinal, o);
    hide ValidDatasets, HasOrdinal;
  }

  /** Without gaps, every smaller ordinal is there too. */
  lemma {:induction false} DownTo(t: Tables, spec: Uuid.Text, from: int, to: nat)
    requires ValidDatasets(t) && (spec, from) in t.datasets && to <= from
    ensures (spec, to) in t.datasets
    decreases from
  {
    if to < from {
      DownTo(t, spec, from - 1, to);
    }
  }

  lemma SelectedDatasets(t: Tables, spec: Uuid.Text, rows: seq<DatasetRow>)
    requires Valid(t) && SelectsDatasets(t, spec, rows)
    ensures DatasetsOf(rows) == DatasetsFrom(t, spec, 0)
  {
    hide ValidRuns, ValidSpecs, ValidParameters, ValidRefs;
    forall i: nat | i < |rows|
      ensures rows[i].ordinal == i
    {
      OrdinalIsPosition(t, spec, rows, i);
    }
    forall o
      ensures (spec, o) in t.datasets <==> 0 <= o < |rows|
    {
      if (spec, o) in t.datasets {
        var i :| 0 <= i < |rows| && rows[i].ordinal == o;
      }
      if 0 <= o < |rows| {
        assert rows[o].ordinal == o;
      }
    }
    ContiguousDatasets(t, spec, DatasetsOf(rows), 0);
  }

  /**
   * The four queries of GetSpec on one state rebuild exactly the stored spec,
   * for every order of the two unordered results.
   */
  lemma RowsRebuildSpec(t: Tables, spec: Uuid.Text, refs: seq<RefRow>, datasets: seq<DatasetRow>, parameters: seq<ParameterRow>)
    requires Valid(t) && spec in t.specs
    requires SelectsRefs(t, spec, refs) && SelectsDatasets(t, spec, datasets) && SelectsParameters(t, spec, parameters)
    ensures RefsOf(refs).Some?
    ensures SpecOf(SpecEntity(t.specs[spec], RefsOf(refs).value, datasets, parameters)) == StoredSpec(t, spec)
    ensures StoredSpec(t, spec).Some?
  {
    assert Uuid.Parse(t.specs[spec].id).Some? && Uuid.Parse(t.specs[spec].projectId).Some?;
    SelectedRefs(t, spec, refs);
    SelectedDatasets(t, spec, datasets);
    SelectedParameters(t, spec, parameters);
    hide Valid;
    hide RefsOf, DatasetsOf, ParametersOf, RefsFrom, DatasetsFrom, ParametersFrom;
    hide ValidRuns, ValidDatasets, ValidParameters, ValidRefs, SelectsRefs, SelectsDatasets, SelectsParameters;
  }

  /** A query on a later state sees the rows an earlier one would have seen. */
  lemma SelectionIsStable(t: Tables, u: Tables, spec: Uuid.Text)
    requires Extends(t, u) && spec in t.specs
    ensures forall rows :: SelectsRefs(u, spec, rows) <==> SelectsRefs(t, spec, rows)
    ensures forall rows :: SelectsParameters(u, spec, rows) <==> SelectsParameters(t, spec, rows)
    ensures forall rows :: SelectsDatasets(u, spec, rows) <==> SelectsDatasets(t, spec, rows)
  {
    var ids := t.specs.Keys;
    assert SameRows(ids, t.presetRefs, u.presetRefs) && SameRows(ids, t.parameters, u.parameters)
           && SameRows(ids, t.datasets, u.datasets);
    hide Extends, DistinctKeys, HasKey, HasCategory, HasOrdinal;
  }

  // SELECT ... FROM runs WHERE project_id = ? ORDER BY created_at DESC LIMIT ?

  function RunsOf(t: Tables, project: Uuid.Text): set<Uuid.Text> {
    set id | id in t.runs && t.runs[id].projectId == project
  }

  function Selected(rows: seq<RunRow>): set<Uuid.Text> {
    set row | row in rows :: row.id
  }

  /** Newest text first; a negative limit is no limit; ties may fall either way. */
  ghost predicate SelectsRuns(t: Tables, project: Uuid.Text, limit: int, rows: seq<RunRow>) {
    && (forall i, j :: 0 <= i < j < |rows| ==> rows[i].id != rows[j].id)
    && (forall i :: 0 <= i < |rows| ==> (rows[i].id in RunsOf(t, project) && t.runs[rows[i].id] == rows[i]))
    && (forall i, j :: 0 <= i < j < |rows| ==> !Newer(rows[j].createdAt, rows[i].createdAt))
    && |rows| == (if 0 <= limit < |RunsOf(t, project)| then limit else |RunsOf(t, project)|)
    && (forall i, id :: 0 <= i < |rows| && id in RunsOf(t, project) - Selected(rows) ==>
          !Newer(t.runs[id].createdAt, rows[i].createdAt))
  }

  /** Whatever the fractions of a second, a listing never goes back to a later second. */
  lemma ListingKeepsSeconds(t: Tables, project: Uuid.Text, limit: int, rows: seq<RunRow>, i: nat, j: nat)
    requires Valid(t) && SelectsRuns(t, project, limit, rows) && i < j < |rows|
    ensures RunOf(rows[i]).Some? && RunOf(rows[j]).Some?
    ensures !EarlierSecond(RunOf(rows[i]).value.lifecycle.createdAt, RunOf(rows[j]).value.lifecycle.createdAt)
  {
    hide ValidSpecs, ValidDatasets, ValidParameters, ValidRefs, FormatTime, EarlierSecond;
    assert rows[i].id in RunsOf(t, project) && rows[j].id in RunsOf(t, project);
    TextOrderKeepsSeconds(RunOf(rows[i]).value.lifecycle.createdAt, RunOf(rows[j]).value.lifecycle.createdAt);
  }

  /** With a limit no run left out is in a later second than a listed one. */
  lemma ListingOmitsNoLaterSecond(t: Tables, project: Uuid.Text, limit: int, rows: seq<RunRow>, i: nat, id: Uuid.Text)
    requires Valid(t) && SelectsRuns(t, project, limit, rows) && i < |rows|
    requires id in RunsOf(t, project) - Selected(rows)
    ensures RunOf(rows[i]).Some? && RunOf(t.runs[id]).Some?
    ensures !EarlierSecond(RunOf(rows[i]).value.lifecycle.createdAt, RunOf(t.runs[id]).value.lifecycle.createdAt)
  {
    hide ValidSpecs, ValidDatasets, ValidParameters, ValidRefs, FormatTime, EarlierSecond;
    assert rows[i].id in RunsOf(t, project);
    TextOrderKeepsSeconds(RunOf(rows[i]).value.lifecycle.createdAt, RunOf(t.runs[id]).value.lifecycle.createdAt);
  }
}
