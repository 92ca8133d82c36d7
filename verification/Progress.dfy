/**
 * What every client can bring to an end by its own steps, whenever the connection is free: a Submit its
 * commit, a GetSpec and a listing their answer.
 */
module Progress {
  import opened Prelude
  import opened Domain
  import opened Timestamps
  import opened Schema
  import opened Entities
  import opened Numbers
  import opened Ledger
  import opened Queries
  import opened Repository
  import opened LedgerProtocol
  import opened LedgerRuns
  import opened SubmitRuns
  import Uuid

  // For every query there are rows it can return.

  lemma {:induction false} RefRowsExist(t: Tables, spec: Uuid.Text, ks: set<(Uuid.Text, Category)>) returns (rows: seq<RefRow>)
    requires ValidRefs(t) && forall k :: k in ks ==> k in t.presetRefs && k.0 == spec
    ensures forall i, j :: 0 <= i < j < |rows| ==> rows[i].category != rows[j].category
    ensures forall i :: 0 <= i < |rows| ==> (spec, rows[i].category) in ks && t.presetRefs[(spec, rows[i].category)] == rows[i]
    ensures forall k :: k in ks ==> HasCategory(rows, k.1)
  {
    if ks == {} {
      return [];
    }
    var k :| k in ks;
    var before := RefRowsExist(t, spec, ks - {k});
    rows := before + [t.presetRefs[k]];
    forall other | other in ks
      ensures HasCategory(rows, other.1)
    {
      if other == k {
        assert rows[|before|].category == k.1;
      } else {
        assert HasCategory(before, other.1);
        var i :| 0 <= i < |before| && before[i].category == other.1;
        assert rows[i].category == other.1;
      }
    }
  }

  lemma SomeRefs(t: Tables, spec: Uuid.Text) returns (rows: seq<RefRow>)
    requires ValidRefs(t)
    ensures SelectsRefs(t, spec, rows)
  {
    var ks := set k | k in t.presetRefs && k.0 == spec;
    rows := RefRowsExist(t, spec, ks);
    forall c | (spec, c) in t.presetRefs
      ensures HasCategory(rows, c)
    {
      assert (spec, c) in ks;
    }
    hide HasCategory;
  }

  lemma {:induction false} ParameterRowsExist(t: Tables, spec: Uuid.Text, ks: set<(Uuid.Text, string)>) returns (rows: seq<ParameterRow>)
    requires ValidParameters(t) && forall k :: k in ks ==> k in t.parameters && k.0 == spec
    ensures DistinctKeys(rows)
    ensures forall i :: 0 <= i < |rows| ==> (spec, rows[i].key) in ks && t.parameters[(spec, rows[i].key)] == rows[i]
    ensures forall k :: k in ks ==> HasKey(rows, k.1)
  {
    if ks == {} {
      return [];
    }
    var k :| k in ks;
    var before := ParameterRowsExist(t, spec, ks - {k});
    rows := before + [t.parameters[k]];
    forall other | other in ks
      ensures HasKey(rows, other.1)
    {
      if other == k {
        assert rows[|before|].key == k.1;
      } else {
        assert HasKey(before, other.1);
        var i :| 0 <= i < |before| && before[i].key == other.1;
        assert rows[i].key == other.1;
      }
    }
  }

  lemma SomeParameters(t: Tables, spec: Uuid.Text) returns (rows: seq<ParameterRow>)
    requires ValidParameters(t)
    ensures SelectsParameters(t, spec, rows)
  {
    var ks := set k | k in t.parameters && k.0 == spec;
    rows := ParameterRowsExist(t, spec, ks);
    forall key | (spec, key) in t.parameters
      ensures HasKey(rows, key)
    {
      assert (spec, key) in ks;
    }
    hide HasKey, DistinctKeys;
  }

  predicate IsRowAt(t: Tables, spec: Uuid.Text, o: int, row: DatasetRow) {
    (spec, o) in t.datasets && t.datasets[(spec, o)] == row && row.ordinal == o
  }

  /** The rows of the first ordinals, completed. */
  lemma {:induction false} DatasetRowsExist(t: Tables, spec: Uuid.Text, before: seq<DatasetRow>) returns (rows: seq<DatasetRow>)
    requires ValidDatasets(t) && forall j :: 0 <= j < |before| ==> IsRowAt(t, spec, j, before[j])
    ensures forall j :: 0 <= j < |rows| ==> IsRowAt(t, spec, j, rows[j])
    ensures (spec, |rows|) !in t.datasets
    decreases OrdinalsFrom(t, spec, |before|)
  {
    var n := |before|;
    if (spec, n) !in t.datasets {
      return before;
    }
    assert (spec, n) in OrdinalsFrom(t, spec, n) && (spec, n) !in OrdinalsFrom(t, spec, n + 1);
    rows := DatasetRowsExist(t, spec, before + [t.datasets[(spec, n)]]);
  }

  lemma SomeDatasets(t: Tables, spec: Uuid.Text) returns (rows: seq<DatasetRow>)
    requires ValidDatasets(t)
    ensures SelectsDatasets(t, spec, rows)
  {
    rows := DatasetRowsExist(t, spec, []);
    assert forall j :: 0 <= j < |rows| ==> IsRowAt(t, spec, j, rows[j]) && rows[j].ordinal == j;
    forall o | (spec, o) in t.datasets
      ensures HasOrdinal(rows, o)
    {
      NoOrdinalBeyond(t, spec, |rows|, o);
      assert rows[o].ordinal == o;
    }
    hide HasOrdinal, ValidDatasets;
  }

  lemma NoOrdinalBeyond(t: Tables, spec: Uuid.Text, n: nat, o: int)
    requires ValidDatasets(t) && (spec, n) !in t.datasets && (spec, o) in t.datasets
    ensures 0 <= o < n
  {
    if o >= n {
      DownTo(t, spec, o, n);
    }
  }

  lemma {:induction false} RunRowsExist(t: Tables, project: Uuid.Text, limit: int, todo: set<Uuid.Text>, before: seq<RunRow>)
      returns (rows: seq<RunRow>)
    requires ValidRuns(t) && todo <= RunsOf(t, project) && ListedSoFar(t.runs, RunsOf(t, project), todo, before)
    requires 0 <= limit ==> |before| <= limit
    ensures SelectsRuns(t, project, limit, rows)
    decreases todo
  {
    hide ListedSoFar, SelectsRuns, Newer, RunOf;
    if todo == {} || |before| == limit {
      Repository.Listed(t, project, limit, todo, before);
      return before;
    }
    NewestRun(t.runs, todo);
    var id :| id in todo && forall other :: other in todo ==> !Newer(t.runs[other].createdAt, t.runs[id].createdAt);
    NextListed(t.runs, RunsOf(t, project), todo, before, id);
    rows := RunRowsExist(t, project, limit, todo - {id}, before + [t.runs[id]]);
  }

  lemma SomeRuns(t: Tables, project: Uuid.Text, limit: int) returns (rows: seq<RunRow>)
    requires ValidRuns(t)
    ensures SelectsRuns(t, project, limit, rows)
  {
    hide SelectsRuns, Newer, RunOf;
    assert ListedSoFar(t.runs, RunsOf(t, project), RunsOf(t, project), []) by { assert Selected([]) == {}; }
    hide ListedSoFar;
    rows := RunRowsExist(t, project, limit, RunsOf(t, project), []);
  }

  // For every spec that converts there is a flattening.

  lemma {:induction false} FlatRowsExist(parameters: map<string, Value>, keys: set<string>) returns (rows: seq<ParameterRow>)
    requires Numeric(parameters) && keys <= parameters.Keys
    ensures DistinctKeys(rows)
    ensures forall i :: 0 <= i < |rows| ==> rows[i].key in keys && FormatNumber(parameters[rows[i].key]) == Some(rows[i].value)
    ensures forall key :: key in keys ==> HasKey(rows, key)
  {
    hide FormatNumber;
    if keys == {} {
      return [];
    }
    var key :| key in keys;
    var before := FlatRowsExist(parameters, keys - {key});
    rows := before + [ParameterRow(key, FormatNumber(parameters[key]).value)];
    forall other | other in keys
      ensures HasKey(rows, other)
    {
      if other == key {
        assert rows[|before|].key == key;
      } else {
        assert HasKey(before, other);
        var i :| 0 <= i < |before| && before[i].key == other;
        assert rows[i].key == other;
      }
    }
  }

  lemma SomeFlattening(spec: Spec, createdAt: TimeText) returns (e: SpecEntity)
    requires Convertible(spec)
    ensures Flattens(e, spec, createdAt)
  {
    hide FormatNumber;
    var rows := FlatRowsExist(spec.parameters, spec.parameters.Keys);
    var datasets := seq(|spec.datasets|, i requires 0 <= i < |spec.datasets| => DatasetRowOf(i, spec.datasets[i]));
    e := SpecEntity(SpecRowOf(spec, createdAt), spec.refs, datasets, rows);
    hide HasKey, DistinctKeys;
  }

  // Paths of steps.

  /** The labels lead from `s` to `u`, and client `c` takes every step. */
  ghost predicate IsPath(states: seq<State>, labels: seq<Label>, s: State, u: State) {
    && |states| == |labels| + 1 && states[0] == s && states[|labels|] == u
    && forall i :: 0 <= i < |labels| ==> StepsTo(states, labels, i)
  }

  /** All the steps are `c`'s own. */
  predicate AllBy(labels: seq<Label>, c: nat) {
    forall i :: 0 <= i < |labels| ==> !labels[i].Reopen? && !labels[i].AddProject? && labels[i].c == c
  }

  ghost predicate CanReach(s: State, u: State, c: nat) {
    exists states, labels :: IsPath(states, labels, s, u) && AllBy(labels, c)
  }

  lemma ReachesItself(s: State, c: nat)
    ensures CanReach(s, s, c)
  {
    assert IsPath([s], [], s, s) && AllBy([], c);
  }

  lemma OneMoreReach(s: State, m: State, l: Label, c: nat)
    requires CanReach(s, m, c) && Enabled(m, l) && !l.Reopen? && !l.AddProject? && l.c == c
    ensures CanReach(s, Apply(m, l), c)
  {
    var states, labels :| IsPath(states, labels, s, m) && AllBy(labels, c);
    hide Enabled, Apply;
    var more, moreLabels := states + [Apply(m, l)], labels + [l];
    forall i | 0 <= i < |moreLabels|
      ensures StepsTo(more, moreLabels, i)
    {
      if i < |labels| {
        assert StepsTo(states, labels, i);
      }
    }
    assert IsPath(more, moreLabels, s, Apply(m, l)) && AllBy(moreLabels, c);
  }

  /** Where a path has come: client `c` of `m` is at `client`, nobody else has moved. */
  ghost predicate Arrived(s: State, m: State, c: nat, client: Client) {
    CanReach(s, m, c) && Inv(m) && ClientOf(m, c) == client && m.open.None?
  }

  lemma OneMoreArrival(s: State, m: State, l: Label, c: nat, client: Client)
    requires CanReach(s, m, c) && Inv(m) && Enabled(m, l) && !l.Reopen? && !l.AddProject? && l.c == c
    requires ClientOf(Apply(m, l), c) == client && Apply(m, l).open.None?
    ensures Arrived(s, Apply(m, l), c, client)
  {
    hide Inv, CanReach, Enabled, Apply, Extends;
    StepKeepsInv(m, l);
    OneMoreReach(s, m, l, c);
  }

  // GetSpec.

  lemma AsksSpec(s: State, c: nat, runId: Uuid.Id) returns (u: State)
    requires Inv(s) && ClientOf(s, c).Idle? && s.open.None?
    ensures Arrived(s, u, c, AskingRow(runId)) && u.tables == s.tables
  {
    hide Inv, CanReach;
    ReachesItself(s, c);
    OneMoreArrival(s, s, GetSpec(c, runId), c, AskingRow(runId));
    u := Apply(s, GetSpec(c, runId));
  }

  lemma ReadsRow(s: State, m: State, c: nat, runId: Uuid.Id, row: SpecRow) returns (u: State)
    requires Arrived(s, m, c, AskingRow(runId)) && JoinedRow(m.tables, runId) == Some(row)
    ensures Arrived(s, u, c, AskingRefs(runId, row)) && u.tables == m.tables
  {
    hide Inv, CanReach, JoinedRow;
    OneMoreArrival(s, m, QueryRow(c), c, AskingRefs(runId, row));
    u := Apply(m, QueryRow(c));
  }

  lemma RefsAreNext(m: State, c: nat, rows: seq<RefRow>)
    requires ClientOf(m, c).AskingRefs? && m.open.None? && SelectsRefs(m.tables, ClientOf(m, c).row.id, rows)
    ensures Enabled(m, QueryRefs(c, rows))
    ensures
      var u, client := Apply(m, QueryRefs(c, rows)), ClientOf(m, c);
      && u.open.None? && u.tables == m.tables
      && ClientOf(u, c) == match RefsOf(rows)
                           case Some(refs) => AskingDatasets(client.runId, client.row, refs)
                           case None => Broken(client.runId)
  {
    hide SelectsRefs, RefsOf;
  }

  lemma DatasetsAreNext(m: State, c: nat, rows: seq<DatasetRow>)
    requires ClientOf(m, c).AskingDatasets? && m.open.None? && SelectsDatasets(m.tables, ClientOf(m, c).row.id, rows)
    ensures Enabled(m, QueryDatasets(c, rows))
    ensures
      var u, client := Apply(m, QueryDatasets(c, rows)), ClientOf(m, c);
      u.open.None? && u.tables == m.tables && ClientOf(u, c) == AskingParameters(client.runId, client.row, client.refs, rows)
  {
    hide SelectsDatasets;
  }

  lemma ParametersAreNext(m: State, c: nat, rows: seq<ParameterRow>)
    requires ClientOf(m, c).AskingParameters? && m.open.None? && SelectsParameters(m.tables, ClientOf(m, c).row.id, rows)
    ensures Enabled(m, QueryParameters(c, rows))
    ensures
      var u, runId := Apply(m, QueryParameters(c, rows)), ClientOf(m, c).runId;
      && u.open.None? && u.tables == m.tables
      && (ClientOf(u, c) == Broken(runId) || (ClientOf(u, c).Got? && ClientOf(u, c).runId == runId))
  {
    hide SelectsParameters, SpecOf;
  }

  lemma ReadsRefs(s: State, m: State, c: nat, runId: Uuid.Id, row: SpecRow) returns (u: State, refs: Refs)
    requires Arrived(s, m, c, AskingRefs(runId, row))
    ensures Arrived(s, u, c, AskingDatasets(runId, row, refs)) && u.tables == m.tables
  {
    assert ValidRefs(m.tables);
    hide Inv, CanReach, SelectsRefs, RefsOf, ValidRefs, Extends;
    var rows := SomeRefs(m.tables, row.id);
    var l := QueryRefs(c, rows);
    RefsAreNext(m, c, rows);
    hide Enabled, Apply;
    StepKeepsInv(m, l);
    u := Apply(m, l);
    NotBroken(u, c);
    refs := RefsOf(rows).value;
    OneMoreArrival(s, m, l, c, AskingDatasets(runId, row, refs));
  }

  lemma ReadsDatasets(s: State, m: State, c: nat, runId: Uuid.Id, row: SpecRow, refs: Refs) returns (u: State, rows: seq<DatasetRow>)
    requires Arrived(s, m, c, AskingDatasets(runId, row, refs))
    ensures Arrived(s, u, c, AskingParameters(runId, row, refs, rows)) && u.tables == m.tables
  {
    assert ValidDatasets(m.tables);
    hide Inv, CanReach, SelectsDatasets, ValidDatasets;
    rows := SomeDatasets(m.tables, row.id);
    DatasetsAreNext(m, c, rows);
    hide Enabled, Apply;
    OneMoreArrival(s, m, QueryDatasets(c, rows), c, AskingParameters(runId, row, refs, rows));
    u := Apply(m, QueryDatasets(c, rows));
  }

  lemma ReadsParameters(s: State, m: State, c: nat, runId: Uuid.Id, row: SpecRow, refs: Refs, datasets: seq<DatasetRow>)
      returns (u: State, answer: Spec)
    requires Arrived(s, m, c, AskingParameters(runId, row, refs, datasets))
    ensures Arrived(s, u, c, Got(runId, answer)) && u.tables == m.tables
  {
    assert ValidParameters(m.tables);
    hide Inv, CanReach, SelectsParameters, SpecOf, ValidParameters, Extends;
    var rows := SomeParameters(m.tables, row.id);
    var l := QueryParameters(c, rows);
    ParametersAreNext(m, c, rows);
    hide Enabled, Apply;
    StepKeepsInv(m, l);
    u := Apply(m, l);
    NotBroken(u, c);
    answer := ClientOf(u, c).answer;
    OneMoreArrival(s, m, l, c, Got(runId, answer));
  }

  lemma NotBroken(s: State, c: nat)
    requires Inv(s)
    ensures !ClientOf(s, c).Broken? && !ClientOf(s, c).BrokenListing?
  {
    hide Valid, OpenOk, Flattens, JoinedRow, RefsFrom, SelectsDatasets, SpecOfRun, StillThere;
    assert c in s.clients ==> ClientOk(s.tables, s.clients[c]);
  }

  /** Asking for a committed run can always be carried to the right answer while the connection is free. */
  lemma GetSpecCanFinish(s: State, c: nat, runId: Uuid.Id) returns (u: State)
    requires Inv(s) && ClientOf(s, c).Idle? && s.open.None? && Uuid.String(runId) in s.tables.runs
    ensures CanReach(s, u, c) && ClientOf(u, c).Got? && ClientOf(u, c).runId == runId && u.tables == s.tables
    ensures SpecOfRun(s.tables, Uuid.String(runId)) == Some(ClientOf(u, c).answer)
  {
    assert JoinedRow(s.tables, runId).Some? by { hide ClientsOk, OpenOk, RunOf; }
    var row := JoinedRow(s.tables, runId).value;
    hide Inv, CanReach, SpecOfRun, JoinedRow;
    u := AsksSpec(s, c, runId);
    u := ReadsRow(s, u, c, runId, row);
    var refs;
    u, refs := ReadsRefs(s, u, c, runId, row);
    var datasets;
    u, datasets := ReadsDatasets(s, u, c, runId, row, refs);
    var answer;
    u, answer := ReadsParameters(s, u, c, runId, row, refs, datasets);
    AnswerIsRight(u, c);
  }

  // Listings.

  lemma AsksRuns(s: State, c: nat, project: Uuid.Id, limit: int) returns (u: State)
    requires Inv(s) && ClientOf(s, c).Idle? && s.open.None?
    ensures Arrived(s, u, c, AskingProject(project, limit)) && u.tables == s.tables
  {
    hide Inv, CanReach;
    ReachesItself(s, c);
    OneMoreArrival(s, s, ListRuns(c, project, limit), c, AskingProject(project, limit));
    u := Apply(s, ListRuns(c, project, limit));
  }

  lemma ReadsProject(s: State, m: State, c: nat, project: Uuid.Id, limit: int) returns (u: State)
    requires Arrived(s, m, c, AskingProject(project, limit)) && Uuid.String(project) in m.tables.projects
    ensures Arrived(s, u, c, AskingRuns(project, limit)) && u.tables == m.tables
  {
    hide Inv, CanReach;
    OneMoreArrival(s, m, QueryProject(c), c, AskingRuns(project, limit));
    u := Apply(m, QueryProject(c));
  }

  /** Listing an existing project can always be carried to a correct selection while the connection is free. */
  lemma ListingCanFinish(s: State, c: nat, project: Uuid.Id, limit: int) returns (u: State)
    requires Inv(s) && ClientOf(s, c).Idle? && s.open.None? && Uuid.String(project) in s.tables.projects
    ensures CanReach(s, u, c) && ClientOf(u, c).Listed? && u.tables == s.tables
    ensures SelectsRuns(s.tables, Uuid.String(project), limit, ClientOf(u, c).listed)
  {
    assert ValidRuns(s.tables);
    hide Inv, CanReach, SelectsRuns, RunOf, ValidRuns, Enabled, Apply;
    var asking := AsksRuns(s, c, project, limit);
    var known := ReadsProject(s, asking, c, project, limit);
    var rows := SomeRuns(s.tables, Uuid.String(project), limit);
    u := ReadsRuns(s, known, c, project, limit, rows);
  }

  lemma ReadsRuns(s: State, m: State, c: nat, project: Uuid.Id, limit: int, rows: seq<RunRow>) returns (u: State)
    requires Arrived(s, m, c, AskingRuns(project, limit)) && SelectsRuns(m.tables, Uuid.String(project), limit, rows)
    ensures Arrived(s, u, c, Listed(project, limit, rows)) && u.tables == m.tables
  {
    hide Inv, CanReach, SelectsRuns, RunOf;
    var l := QueryRuns(c, rows);
    StepKeepsInv(m, l);
    hide Extends;
    u := Apply(m, l);
    NotBroken(u, c);
    OneMoreArrival(s, m, l, c, Listed(project, limit, rows));
  }

  // Submit.

  /** A client inside its transaction, on its way through the statements. */
  ghost predicate IsSending(s: State, m: State, c: nat, spec: Spec, run: Run, entity: SpecEntity) {
    && CanReach(s, m, c) && SubmitInv(m) && ClientOf(m, c) == InTransaction(spec, run, entity)
    && m.open.Some? && m.open.value.owner == c && m.open.value.sent <= |Inserts(entity, run)|
  }

  lemma OneMoreSubmitReach(s: State, m: State, l: Label, c: nat)
    requires CanReach(s, m, c) && SubmitInv(m) && Enabled(m, l) && !l.Reopen? && !l.AddProject? && !l.CreateRun? && l.c == c
    ensures CanReach(s, Apply(m, l), c) && SubmitInv(Apply(m, l))
  {
    hide SubmitInv, CanReach, Enabled, Apply;
    SubmitStepKeepsInv(m, l);
    OneMoreReach(s, m, l, c);
  }

  lemma SendsOne(s: State, m: State, c: nat, spec: Spec, run: Run, entity: SpecEntity) returns (u: State)
    requires IsSending(s, m, c, spec, run, entity) && m.open.value.sent < |Inserts(entity, run)|
    ensures IsSending(s, u, c, spec, run, entity) && u.open.value.sent == m.open.value.sent + 1
  {
    hide SubmitInv, CanReach, Inserts, Execute;
    SubmitIsNeverRefused(m, c);
    OneMoreSubmitReach(s, m, Send(c), c);
    u := Apply(m, Send(c));
  }

  lemma {:induction false} SendsAll(s: State, m: State, c: nat, spec: Spec, run: Run, entity: SpecEntity) returns (u: State)
    requires IsSending(s, m, c, spec, run, entity)
    ensures IsSending(s, u, c, spec, run, entity) && u.open.value.sent == |Inserts(entity, run)|
    decreases |Inserts(entity, run)| - m.open.value.sent
  {
    hide SubmitInv, CanReach, Inserts;
    if m.open.value.sent == |Inserts(entity, run)| {
      return m;
    }
    var next := SendsOne(s, m, c, spec, run, entity);
    u := SendsAll(s, next, c, spec, run, entity);
  }

  lemma Begins(s: State, m: State, c: nat, spec: Spec, run: Run, entity: SpecEntity) returns (u: State)
    requires CanReach(s, m, c) && SubmitInv(m) && ClientOf(m, c) == Waiting(spec, run, entity) && m.open.None?
    ensures IsSending(s, u, c, spec, run, entity)
  {
    hide SubmitInv, CanReach, Inserts;
    OneMoreSubmitReach(s, m, Begin(c), c);
    u := Apply(m, Begin(c));
  }

  lemma CommitIsNext(m: State, c: nat)
    requires ReadyToCommit(m, c)
    ensures Enabled(m, Commit(c)) && ClientOf(Apply(m, Commit(c)), c) == Created(ClientOf(m, c).run)
  {
    hide Inserts;
  }

  lemma EndsInCommit(s: State, m: State, c: nat, spec: Spec, run: Run, entity: SpecEntity) returns (u: State)
    requires IsSending(s, m, c, spec, run, entity) && m.open.value.sent == |Inserts(entity, run)|
    ensures CanReach(s, u, c) && ClientOf(u, c) == Created(run)
    ensures SpecOfRun(u.tables, Uuid.String(run.id)) == Some(Normal(spec))
  {
    hide SubmitInv, CanReach, Inserts, SpecOfRun, Normal, StoredSpec, Inv, Enabled, Apply;
    PendingOwnsItsSpec(m, c);
    SubmitInvIsInv(m);
    CommitIsNext(m, c);
    OneMoreSubmitReach(s, m, Commit(c), c);
    u := Apply(m, Commit(c));
    StepRefinesAppendOnlyMap(m, Commit(c), Uuid.String(run.id));
  }

  lemma PendingOwnsItsSpec(s: State, c: nat)
    requires SubmitInv(s) && InFlight(ClientOf(s, c))
    ensures ClientOf(s, c).run.specId == ClientOf(s, c).spec.id
  {
    hide Inv, Conserved, Admits, Convertible;
    assert PendingClientOk(s.tables, s.issued, ClientOf(s, c));
  }

  lemma SubmitInvIsInv(s: State)
    requires SubmitInv(s)
    ensures Inv(s)
  {
    hide Inv;
  }

  /** From the call to the build. */
  lemma CanBuild(s: State, c: nat, d: Draft) returns (u: State)
    requires SubmitInv(s) && ClientOf(s, c).Idle? && s.open.None? && Uuid.String(d.projectId) in s.tables.projects
    ensures CanReach(s, u, c) && SubmitInv(u) && ClientOf(u, c) == Building(d) && u.open.None? && u.issued == s.issued
  {
    hide SubmitInv, CanReach;
    ReachesItself(s, c);
    OneMoreSubmitReach(s, s, Submit(c, d), c);
    var checking := Apply(s, Submit(c, d));
    OneMoreSubmitReach(s, checking, CheckProject(c), c);
    u := Apply(checking, CheckProject(c));
  }

  /** The build, with any fresh identifiers. */
  lemma Builds(s: State, m: State, c: nat, d: Draft, specId: Uuid.Id, runId: Uuid.Id, now: Instant) returns (u: State)
    requires CanReach(s, m, c) && SubmitInv(m) && ClientOf(m, c) == Building(d) && m.open.None? && IsSubmittable(d)
    requires specId != runId && Uuid.Nil !in {specId, runId} && m.issued !! {specId, runId}
    ensures CanReach(s, u, c) && SubmitInv(u) && ClientOf(u, c).Waiting? && u.open.None?
    ensures StoresDraft(Normal(ClientOf(u, c).spec), d, specId) && ClientOf(u, c).run == QueuedRun(runId, specId, d.projectId, now)
  {
    hide SubmitInv, CanReach, StoresDraft, Normal, KnowsItsPresets, AllNumbers, Submitted, Convertible, Flattens;
    SubmittedIs(d, specId);
    SubmittedConvertsIff(d, specId);
    NumericIff(d.parameters);
    hide Numeric;
    var entity := SomeFlattening(Submitted(d, specId).value, Stamp(now));
    var l := BuildSpec(c, specId, runId, now, entity);
    OneMoreSubmitReach(s, m, l, c);
    BuiltStoresDraft(m, l);
    u := Apply(m, l);
  }

  /**
   * A submittable draft for an existing project can always be carried from the call to its commit while the
   * connection is free, and its run then shows what the draft says.
   */
  lemma SubmitCanFinish(s: State, c: nat, d: Draft, specId: Uuid.Id, runId: Uuid.Id, now: Instant) returns (u: State)
    requires SubmitInv(s) && ClientOf(s, c).Idle? && s.open.None?
    requires IsSubmittable(d) && Uuid.String(d.projectId) in s.tables.projects
    requires specId != runId && Uuid.Nil !in {specId, runId} && s.issued !! {specId, runId}
    ensures CanReach(s, u, c) && ClientOf(u, c) == Created(QueuedRun(runId, specId, d.projectId, now))
    ensures SpecOfRun(u.tables, Uuid.String(runId)).Some?
    ensures StoresDraft(SpecOfRun(u.tables, Uuid.String(runId)).value, d, specId)
  {
    hide SubmitInv, CanReach, SpecOfRun, StoresDraft, Normal, IsSubmittable, Inserts;
    var m := CanBuild(s, c, d);
    m := Builds(s, m, c, d, specId, runId, now);
    var client := ClientOf(m, c);
    m := Begins(s, m, c, client.spec, client.run, client.entity);
    m := SendsAll(s, m, c, client.spec, client.run, client.entity);
    u := EndsInCommit(s, m, c, client.spec, client.run, client.entity);
  }
}
