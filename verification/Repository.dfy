/** The SQLite handle with its one connection, and the run repository on top of it. */
module Repository {
  import opened Prelude
  import opened Domain
  import opened Timestamps
  import opened Schema
  import opened Entities
  import opened Ledger
  import opened Queries
  import Uuid

  datatype ExecResult = Executed | Violation | Interrupted

  /** At most one transaction is open: the pool holds a single connection. */
  class Database {
    var committed: Tables
    var staged: Option<Tables>
    /** How often the driver, or a context that ended, has failed an access. */
    ghost var failures: nat

    constructor (t: Tables)
      ensures committed == t && staged.None?
    {
      committed, staged := t, None;
      failures := 0;
    }

    method Begin() returns (ok: bool)
      requires staged.None?
      modifies this`staged, this`failures
      ensures staged == if ok then Some(committed) else None
      ensures failures == if ok then old(failures) else old(failures) + 1
    {
      if * {
        failures := failures + 1;
        return false;
      }
      staged := Some(committed);
      ok := true;
    }

    /** One INSERT in the open transaction; the driver or a cancelled context may fail it at any time. */
    method Exec(s: Statement) returns (r: ExecResult)
      requires staged.Some?
      modifies this`staged, this`failures
      ensures r == Executed ==> staged.Some? && staged == Execute(old(staged).value, s)
      ensures r == Violation ==> Execute(old(staged).value, s).None?
      ensures r != Executed ==> staged == old(staged)
      ensures failures == if r == Interrupted then old(failures) + 1 else old(failures)
    {
      if * {
        failures := failures + 1;
        return Interrupted;
      }
      var next := Execute(staged.value, s);
      if next.None? {
        return Violation;
      }
      staged := next;
      r := Executed;
    }

    method Commit() returns (ok: bool)
      requires staged.Some?
      modifies this
      ensures ok ==> committed == old(staged).value && staged.None?
      ensures !ok ==> committed == old(committed) && staged == old(staged)
      ensures failures == if ok then old(failures) else old(failures) + 1
    {
      if * {
        failures := failures + 1;
        return false;
      }
      committed, staged := staged.value, None;
      ok := true;
    }

    /** Discards the open transaction; a no-op after a commit. */
    method Rollback()
      modifies this`staged
      ensures staged.None?
    {
      staged := None;
    }

    /** Whether a query gets through; the driver or a cancelled context may fail it at any time. */
    method Query() returns (ok: bool)
      modifies this`failures
      ensures failures == if ok then old(failures) else old(failures) + 1
    {
      if * {
        failures := failures + 1;
        return false;
      }
      ok := true;
    }

    /** SELECT of a spec's preset refs; the order of the rows is whatever the storage yields. */
    method SelectRefs(spec: Uuid.Text) returns (rows: seq<RefRow>)
      requires Valid(committed)
      ensures SelectsRefs(committed, spec, rows)
    {
      hide ValidRuns, ValidSpecs, ValidDatasets, ValidParameters;
      rows := [];
      var todo := set k | k in committed.presetRefs && k.0 == spec;
      while todo != {}
        invariant todo <= committed.presetRefs.Keys && forall k :: k in todo ==> k.0 == spec
        invariant SelectsRefs(committed.(presetRefs := committed.presetRefs - todo), spec, rows)
        decreases todo
      {
        var k :| k in todo;
        RefSelected(committed.(presetRefs := committed.presetRefs - todo), spec, rows, k, committed.presetRefs[k]);
        assert (committed.presetRefs - todo)[k := committed.presetRefs[k]] == committed.presetRefs - (todo - {k});
        rows := rows + [committed.presetRefs[k]];
        todo := todo - {k};
      }
      assert committed.presetRefs - {} == committed.presetRefs;
    }

    method SelectParameters(spec: Uuid.Text) returns (rows: seq<ParameterRow>)
      requires Valid(committed)
      ensures SelectsParameters(committed, spec, rows)
    {
      hide ValidRuns, ValidSpecs, ValidDatasets, ValidRefs;
      rows := [];
      var todo := set k | k in committed.parameters && k.0 == spec;
      while todo != {}
        invariant todo <= committed.parameters.Keys && forall k :: k in todo ==> k.0 == spec
        invariant SelectsParameters(committed.(parameters := committed.parameters - todo), spec, rows)
        decreases todo
      {
        var k :| k in todo;
        ParameterSelected(committed.(parameters := committed.parameters - todo), spec, rows, k, committed.parameters[k]);
        assert (committed.parameters - todo)[k := committed.parameters[k]] == committed.parameters - (todo - {k});
        rows := rows + [committed.parameters[k]];
        todo := todo - {k};
      }
      assert committed.parameters - {} == committed.parameters;
    }

    /** SELECT of a spec's datasets, ORDER BY ordinal. */
    method SelectDatasets(spec: Uuid.Text) returns (rows: seq<DatasetRow>)
      requires Valid(committed)
      ensures SelectsDatasets(committed, spec, rows)
    {
      hide ValidRuns, ValidSpecs, ValidParameters, ValidRefs;
      rows := [];
      var todo := set k | k in committed.datasets && k.0 == spec;
      assert SelectsDatasets(committed.(datasets := committed.datasets - todo), spec, rows) && AllBelow(rows, todo);
      assert forall k :: k in todo ==> committed.datasets[k].ordinal == k.1;
      hide ValidDatasets, SelectsDatasets, AllBelow;
      while todo != {}
        invariant todo <= committed.datasets.Keys
        invariant forall k :: k in todo ==> (k.0 == spec && committed.datasets[k].ordinal == k.1)
        invariant SelectsDatasets(committed.(datasets := committed.datasets - todo), spec, rows)
        invariant AllBelow(rows, todo)
        decreases todo
      {
        var k := PickLeast(todo);
        NextDataset(committed, spec, rows, todo, k);
        rows := rows + [committed.datasets[k]];
        todo := todo - {k};
      }
      assert committed.datasets - {} == committed.datasets;
    }

    /** SELECT of a project's runs, ORDER BY created_at DESC LIMIT. */
    method SelectRuns(project: Uuid.Text, limit: int) returns (rows: seq<RunRow>)
      requires Valid(committed)
      ensures SelectsRuns(committed, project, limit, rows)
    {
      hide ValidSpecs, ValidDatasets, ValidParameters, ValidRefs, RunOf;
      rows := [];
      var todo := set id | id in committed.runs && committed.runs[id].projectId == project;
      ghost var all := RunsOf(committed, project);
      assert ListedSoFar(committed.runs, all, todo, rows) by { assert Selected([]) == {}; }
      hide ListedSoFar, SelectsRuns, Less;
      while todo != {} && |rows| != limit
        invariant todo <= all && ListedSoFar(committed.runs, all, todo, rows)
        invariant 0 <= limit ==> |rows| <= limit
        decreases todo
      {
        var id := PickNewest(committed.runs, todo);
        NextListed(committed.runs, all, todo, rows, id);
        rows := rows + [committed.runs[id]];
        todo := todo - {id};
      }
      Listed(committed, project, limit, todo, rows);
    }
  }

  lemma Listed(t: Tables, project: Uuid.Text, limit: int, todo: set<Uuid.Text>, rows: seq<RunRow>)
    requires todo <= RunsOf(t, project) && ListedSoFar(t.runs, RunsOf(t, project), todo, rows)
    requires (0 <= limit ==> |rows| <= limit) && (todo == {} || |rows| == limit)
    ensures SelectsRuns(t, project, limit, rows)
  {
    hide Newer;
  }

  /** The rows listed and the runs still to list. */
  ghost predicate ListedSoFar(runs: map<Uuid.Text, RunRow>, all: set<Uuid.Text>, todo: set<Uuid.Text>, rows: seq<RunRow>)
    requires all <= runs.Keys && todo <= all
  {
    DistinctRuns(runs, all, todo, rows) && NewestFirst(rows) && NoneNewer(runs, todo, rows)
  }

  ghost predicate DistinctRuns(runs: map<Uuid.Text, RunRow>, all: set<Uuid.Text>, todo: set<Uuid.Text>, rows: seq<RunRow>)
    requires all <= runs.Keys
  {
    && todo == all - Selected(rows) && |rows| + |todo| == |all|
    && (forall i, j :: 0 <= i < j < |rows| ==> rows[i].id != rows[j].id)
    && (forall i :: 0 <= i < |rows| ==> (rows[i].id in all && runs[rows[i].id] == rows[i]))
  }

  ghost predicate NewestFirst(rows: seq<RunRow>) {
    forall i, j :: 0 <= i < j < |rows| ==> !Newer(rows[j].createdAt, rows[i].createdAt)
  }

  ghost predicate NoneNewer(runs: map<Uuid.Text, RunRow>, todo: set<Uuid.Text>, rows: seq<RunRow>)
    requires todo <= runs.Keys
  {
    forall i, id :: 0 <= i < |rows| && id in todo ==> !Newer(runs[id].createdAt, rows[i].createdAt)
  }

  lemma NextListed(runs: map<Uuid.Text, RunRow>, all: set<Uuid.Text>, todo: set<Uuid.Text>, rows: seq<RunRow>, id: Uuid.Text)
    requires all <= runs.Keys && todo <= all && ListedSoFar(runs, all, todo, rows)
    requires id in todo && runs[id].id == id
    requires forall other :: other in todo ==> !Newer(runs[other].createdAt, runs[id].createdAt)
    ensures ListedSoFar(runs, all, todo - {id}, rows + [runs[id]])
  {
    hide Newer;
    NextDistinct(runs, all, todo, rows, id);
    assert NewestFirst(rows + [runs[id]]);
    assert NoneNewer(runs, todo - {id}, rows + [runs[id]]);
    hide DistinctRuns;
  }

  lemma NextDistinct(runs: map<Uuid.Text, RunRow>, all: set<Uuid.Text>, todo: set<Uuid.Text>, rows: seq<RunRow>, id: Uuid.Text)
    requires all <= runs.Keys && todo <= all && DistinctRuns(runs, all, todo, rows)
    requires id in todo && runs[id].id == id
    ensures DistinctRuns(runs, all, todo - {id}, rows + [runs[id]])
  {
    SelectedMore(rows, runs[id]);
    InSelected(rows);
    hide Selected;
  }

  lemma InSelected(rows: seq<RunRow>)
    ensures forall i :: 0 <= i < |rows| ==> rows[i].id in Selected(rows)
  {
  }

  lemma SelectedMore(rows: seq<RunRow>, row: RunRow)
    ensures Selected(rows + [row]) == Selected(rows) + {row.id}
  {
    assert forall r :: r in rows + [row] <==> r in rows || r == row;
  }

  lemma RefSelected(t: Tables, spec: Uuid.Text, rows: seq<RefRow>, k: (Uuid.Text, Category), row: RefRow)
    requires SelectsRefs(t, spec, rows) && k.0 == spec && k !in t.presetRefs && row.category == k.1
    ensures SelectsRefs(t.(presetRefs := t.presetRefs[k := row]), spec, rows + [row])
  {
    var more := rows + [row];
    assert more[|rows|] == row;
    forall c | (spec, c) in t.presetRefs[k := row]
      ensures HasCategory(more, c)
    {
      if c != k.1 {
        var i :| 0 <= i < |rows| && rows[i].category == c;
        assert more[i].category == c;
      }
    }
  }

  lemma ParameterSelected(t: Tables, spec: Uuid.Text, rows: seq<ParameterRow>, k: (Uuid.Text, string), row: ParameterRow)
    requires SelectsParameters(t, spec, rows) && k.0 == spec && k !in t.parameters && row.key == k.1
    ensures SelectsParameters(t.(parameters := t.parameters[k := row]), spec, rows + [row])
  {
    var more := rows + [row];
    assert more[|rows|] == row;
    forall key | (spec, key) in t.parameters[k := row]
      ensures HasKey(more, key)
    {
      if key != k.1 {
        var i :| 0 <= i < |rows| && rows[i].key == key;
        assert more[i].key == key;
      }
    }
  }

  lemma DatasetSelected(t: Tables, spec: Uuid.Text, rows: seq<DatasetRow>, k: (Uuid.Text, int), row: DatasetRow)
    requires SelectsDatasets(t, spec, rows) && k.0 == spec && k !in t.datasets && row.ordinal == k.1
    requires AllBelow(rows, {k})
    ensures SelectsDatasets(t.(datasets := t.datasets[k := row]), spec, rows + [row])
  {
    var more := rows + [row];
    assert more[|rows|] == row;
    forall o | (spec, o) in t.datasets[k := row]
      ensures HasOrdinal(more, o)
    {
      if o != k.1 {
        var i :| 0 <= i < |rows| && rows[i].ordinal == o;
        assert more[i].ordinal == o;
      }
    }
  }

  ghost predicate AllBelow(rows: seq<DatasetRow>, ks: set<(Uuid.Text, int)>) {
    forall i, k :: 0 <= i < |rows| && k in ks ==> rows[i].ordinal < k.1
  }

  lemma NextDataset(t: Tables, spec: Uuid.Text, rows: seq<DatasetRow>, todo: set<(Uuid.Text, int)>, k: (Uuid.Text, int))
    requires k in todo && todo <= t.datasets.Keys
    requires SelectsDatasets(t.(datasets := t.datasets - todo), spec, rows) && AllBelow(rows, todo)
    requires forall other :: other in todo ==> (other.0 == spec && k.1 <= other.1)
    requires t.datasets[k].ordinal == k.1
    ensures SelectsDatasets(t.(datasets := t.datasets - (todo - {k})), spec, rows + [t.datasets[k]])
    ensures AllBelow(rows + [t.datasets[k]], todo - {k})
  {
    AllBelowOne(rows, todo, k);
    AllBelowNext(rows, todo, k, t.datasets[k]);
    hide AllBelow, SelectsDatasets;
    DatasetSelected(t.(datasets := t.datasets - todo), spec, rows, k, t.datasets[k]);
    assert (t.datasets - todo)[k := t.datasets[k]] == t.datasets - (todo - {k});
  }

  lemma AllBelowOne(rows: seq<DatasetRow>, ks: set<(Uuid.Text, int)>, k: (Uuid.Text, int))
    requires AllBelow(rows, ks) && k in ks
    ensures AllBelow(rows, {k})
  {
  }

  method PickLeast(ks: set<(Uuid.Text, int)>) returns (k: (Uuid.Text, int))
    requires ks != {}
    ensures k in ks && forall other :: other in ks ==> k.1 <= other.1
  {
    LeastOrdinal(ks);
    k :| k in ks && forall other :: other in ks ==> k.1 <= other.1;
  }

  method PickNewest(runs: map<Uuid.Text, RunRow>, ids: set<Uuid.Text>) returns (id: Uuid.Text)
    requires ids != {} && ids <= runs.Keys
    ensures id in ids && forall other :: other in ids ==> !Newer(runs[other].createdAt, runs[id].createdAt)
  {
    NewestRun(runs, ids);
    id :| id in ids && forall other :: other in ids ==> !Newer(runs[other].createdAt, runs[id].createdAt);
  }

  lemma AllBelowNext(rows: seq<DatasetRow>, ks: set<(Uuid.Text, int)>, k: (Uuid.Text, int), row: DatasetRow)
    requires AllBelow(rows, ks) && k in ks && row.ordinal == k.1
    requires forall other :: other in ks ==> other.0 == k.0 && k.1 <= other.1
    ensures AllBelow(rows + [row], ks - {k})
  {
    forall i, other | 0 <= i < |rows + [row]| && other in ks - {k}
      ensures (rows + [row])[i].ordinal < other.1
    {
      assert other.1 != k.1;
    }
  }

  lemma {:induction false} LeastOrdinal(ks: set<(Uuid.Text, int)>)
    requires ks != {}
    ensures exists k :: k in ks && forall other :: other in ks ==> k.1 <= other.1
  {
    var k :| k in ks;
    if ks != {k} {
      LeastOrdinal(ks - {k});
      var least :| least in ks - {k} && forall other :: other in ks - {k} ==> least.1 <= other.1;
      var winner := if k.1 <= least.1 then k else least;
      assert forall other :: other in ks ==> other == k || other in ks - {k};
      assert winner in ks && forall other :: other in ks ==> winner.1 <= other.1;
    }
  }

  lemma {:induction false} NewestRun(runs: map<Uuid.Text, RunRow>, ids: set<Uuid.Text>)
    requires ids != {} && ids <= runs.Keys
    ensures exists id :: id in ids && forall other :: other in ids ==> !Newer(runs[other].createdAt, runs[id].createdAt)
  {
    var id :| id in ids;
    LessIsIrreflexive(Characters(runs[id].createdAt));
    if ids == {id} {
      assert forall other :: other in ids ==> other == id;
    } else {
      NewestRun(runs, ids - {id});
      var newest :| newest in ids - {id}
                    && forall other :: other in ids - {id} ==> !Newer(runs[other].createdAt, runs[newest].createdAt);
      if Newer(runs[id].createdAt, runs[newest].createdAt) {
        LessIsAsymmetric(Characters(runs[newest].createdAt), Characters(runs[id].createdAt));
        forall other | other in ids
          ensures !Newer(runs[other].createdAt, runs[id].createdAt)
        {
          if other != id {
            assert other in ids - {id};
            NotLessIsTransitive(Characters(runs[id].createdAt), Characters(runs[newest].createdAt),
                                Characters(runs[other].createdAt));
          }
        }
      } else {
        assert forall other :: other in ids ==> other == id || other in ids - {id};
        assert newest in ids;
      }
    }
  }

  datatype CreateError = Inconvertible | Refused | Failed

  datatype GetError = NotFound | Corrupt | Failed

  class RunRepository {
    const db: Database

    constructor (db: Database)
      ensures this.db == db
    {
      this.db := db;
    }

    /** Unless the query fails, whether the project is there. */
    method ProjectExists(project: Uuid.Id) returns (r: Result<(), GetError>)
      modifies db`failures
      ensures r == Err(GetError.Failed) <==> db.failures > old(db.failures)
      ensures db.failures >= old(db.failures)
      ensures db.failures == old(db.failures) ==>
                r == if Uuid.String(project) in db.committed.projects then Ok(()) else Err(NotFound)
    {
      var ok := db.Query();
      if !ok {
        return Err(GetError.Failed);
      }
      r := if Uuid.String(project) in db.committed.projects then Ok(()) else Err(NotFound);
    }

    /**
     * Stores a spec and its run, or nothing at all. It is refused exactly when the spec does not
     * convert or the schema does not admit it; otherwise only a failing driver can stop it.
     */
    method CreateRun(spec: Spec, run: Run) returns (r: Result<(), CreateError>)
      requires Valid(db.committed) && db.staged.None?
      modifies db
      ensures Valid(db.committed) && db.staged.None?
      ensures r.Ok? ==> Convertible(spec) && Admits(old(db.committed), spec, run)
                        && db.committed == AddRun(old(db.committed), spec, run)
      ensures r.Err? ==> db.committed == old(db.committed)
      ensures r == Err(Inconvertible) <==> !Convertible(spec)
      ensures r == Err(Refused) ==> !Admits(old(db.committed), spec, run)
      ensures r == Err(CreateError.Failed) <==> db.failures > old(db.failures)
      ensures db.failures >= old(db.failures)
      ensures db.failures == old(db.failures) ==> (r.Ok? <==> Convertible(spec) && Admits(old(db.committed), spec, run))
    {
      hide ValidSpecs, ValidDatasets, ValidParameters, ValidRefs, ValidRuns;
      hide Convertible, Admits, AddRun, ExecuteAll, SpecInserts;
      ghost var t := db.committed;
      var createdAt := Stamp(run.lifecycle.createdAt);
      var entity := FromData(spec, createdAt);
      if entity.None? {
        return Err(Inconvertible);
      }
      var began := db.Begin();
      if !began {
        return Err(CreateError.Failed);
      }
      InsertsExecute(t, entity.value, spec, run);
      ghost var first := SpecInserts(entity.value);
      assert Inserts(entity.value, run) == first + [InsertRun(RunRowOf(run))];
      hide Inserts, RunRowOf;
      var done := SendSpec(entity.value, t);
      if done == Executed {
        done := Send(t, first, InsertRun(RunRowOf(run)));
      } else if done == Violation {
        RefusalIsFinal(t, first, Inserts(entity.value, run));
      }
      if done != Executed {
        db.Rollback();
        return Err(if done == Violation then Refused else CreateError.Failed);
      }
      var committed := db.Commit();
      if !committed {
        db.Rollback();
        return Err(CreateError.Failed);
      }
      AddRunKeepsValid(t, spec, run);
      return Ok(());
    }

    /** Sends one more statement of a transaction that started on `t` and has executed `sent`. */
    method Send(ghost t: Tables, ghost sent: seq<Statement>, s: Statement) returns (r: ExecResult)
      requires db.staged.Some? && db.staged == ExecuteAll(t, sent)
      modifies db`staged, db`failures
      ensures r == Executed ==> db.staged.Some? && db.staged == ExecuteAll(t, sent + [s])
      ensures r == Violation ==> ExecuteAll(t, sent + [s]).None?
      ensures db.failures == if r == Interrupted then old(db.failures) + 1 else old(db.failures)
    {
      ExecuteAllOfAppend(t, sent, s);
      r := db.Exec(s);
    }

    /** `insertSpec`: the spec row, then its datasets, parameters and set preset refs. */
    method SendSpec(e: SpecEntity, ghost t: Tables) returns (r: ExecResult)
      requires db.staged == Some(t)
      modifies db`staged, db`failures
      ensures r == Executed ==> db.staged.Some? && db.staged == ExecuteAll(t, SpecInserts(e))
      ensures r == Violation ==> ExecuteAll(t, SpecInserts(e)).None?
      ensures db.failures == if r == Interrupted then old(db.failures) + 1 else old(db.failures)
    {
      var id := e.row.id;
      ghost var first, second := [InsertSpec(e.row)], DatasetInserts(id, e.datasets);
      ghost var third, fourth := ParameterInserts(id, e.parameters), RefInserts(id, e.refs);
      assert SpecInserts(e) == first + second + third + fourth;
      RefInsertsInOrder(id, e.refs);
      assert ExecuteAll(t, []) == Some(t);
      assert first == [] + [InsertSpec(e.row)];
      hide ExecuteAll, SpecInserts, RefInserts;
      r := Send(t, [], InsertSpec(e.row));
      if r != Executed {
        if r == Violation {
          RefusalIsFinal(t, first, SpecInserts(e));
        }
        return;
      }
      r := SendDatasets(t, first, id, e.datasets);
      if r != Executed {
        if r == Violation {
          RefusalIsFinal(t, first + second, SpecInserts(e));
        }
        return;
      }
      r := SendParameters(t, first + second, id, e.parameters);
      if r != Executed {
        if r == Violation {
          RefusalIsFinal(t, first + second + third, SpecInserts(e));
        }
        return;
      }
      r := SendRefs(t, first + second + third, id, RefList(e.refs));
    }

    method SendDatasets(ghost t: Tables, ghost sent: seq<Statement>, id: Uuid.Text, rows: seq<DatasetRow>) returns (r: ExecResult)
      requires db.staged.Some? && db.staged == ExecuteAll(t, sent)
      modifies db`staged, db`failures
      ensures r == Executed ==> db.staged.Some? && db.staged == ExecuteAll(t, sent + DatasetInserts(id, rows))
      ensures r == Violation ==> ExecuteAll(t, sent + DatasetInserts(id, rows)).None?
      ensures db.failures == if r == Interrupted then old(db.failures) + 1 else old(db.failures)
    {
      WithDatasetsAtTheEnds(sent, id, rows);
      hide ExecuteAll, WithDatasets, DatasetInserts;
      for i := 0 to |rows|
        invariant db.staged.Some? && db.staged == ExecuteAll(t, WithDatasets(sent, id, rows, i))
        invariant db.failures == old(db.failures)
      {
        NextDatasetInserts(sent, id, rows, i);
        r := Send(t, WithDatasets(sent, id, rows, i), InsertDataset(id, rows[i]));
        if r == Violation {
          RefusalIsFinal(t, WithDatasets(sent, id, rows, i + 1), WithDatasets(sent, id, rows, |rows|));
        }
        if r != Executed {
          return;
        }
      }
      r := Executed;
    }

    method SendParameters(ghost t: Tables, ghost sent: seq<Statement>, id: Uuid.Text, rows: seq<ParameterRow>) returns (r: ExecResult)
      requires db.staged.Some? && db.staged == ExecuteAll(t, sent)
      modifies db`staged, db`failures
      ensures r == Executed ==> db.staged.Some? && db.staged == ExecuteAll(t, sent + ParameterInserts(id, rows))
      ensures r == Violation ==> ExecuteAll(t, sent + ParameterInserts(id, rows)).None?
      ensures db.failures == if r == Interrupted then old(db.failures) + 1 else old(db.failures)
    {
      WithParametersAtTheEnds(sent, id, rows);
      hide ExecuteAll, WithParameters, ParameterInserts;
      for i := 0 to |rows|
        invariant db.staged.Some? && db.staged == ExecuteAll(t, WithParameters(sent, id, rows, i))
        invariant db.failures == old(db.failures)
      {
        NextParameterInserts(sent, id, rows, i);
        r := Send(t, WithParameters(sent, id, rows, i), InsertParameter(id, rows[i]));
        if r == Violation {
          RefusalIsFinal(t, WithParameters(sent, id, rows, i + 1), WithParameters(sent, id, rows, |rows|));
        }
        if r != Executed {
          return;
        }
      }
      r := Executed;
    }

    method SendRefs(ghost t: Tables, ghost sent: seq<Statement>, id: Uuid.Text, refs: seq<(Category, Option<Uuid.Id>)>)
        returns (r: ExecResult)
      requires db.staged.Some? && db.staged == ExecuteAll(t, sent)
      modifies db`staged, db`failures
      ensures r == Executed ==> db.staged.Some? && db.staged == ExecuteAll(t, WithRefs(sent, id, refs, |refs|))
      ensures r == Violation ==> ExecuteAll(t, WithRefs(sent, id, refs, |refs|)).None?
      ensures db.failures == if r == Interrupted then old(db.failures) + 1 else old(db.failures)
    {
      assert WithRefs(sent, id, refs, 0) == sent;
      hide ExecuteAll, WithRefs;
      for i := 0 to |refs|
        invariant db.staged.Some? && db.staged == ExecuteAll(t, WithRefs(sent, id, refs, i))
        invariant db.failures == old(db.failures)
      {
        r := SendNextRef(t, sent, id, refs, i);
        if r != Executed {
          return;
        }
      }
      r := Executed;
    }

    method SendNextRef(ghost t: Tables, ghost sent: seq<Statement>, id: Uuid.Text, refs: seq<(Category, Option<Uuid.Id>)>, i: nat)
        returns (r: ExecResult)
      requires i < |refs| && db.staged.Some? && db.staged == ExecuteAll(t, WithRefs(sent, id, refs, i))
      modifies db`staged, db`failures
      ensures r == Executed ==> db.staged.Some? && db.staged == ExecuteAll(t, WithRefs(sent, id, refs, i + 1))
      ensures r == Violation ==> ExecuteAll(t, WithRefs(sent, id, refs, |refs|)).None?
      ensures db.failures == if r == Interrupted then old(db.failures) + 1 else old(db.failures)
    {
      hide ExecuteAll, WithRefs, RefInsert;
      NextRefInserts(sent, id, refs, i);
      r := SendRef(t, WithRefs(sent, id, refs, i), id, refs[i].0, refs[i].1);
      if r == Violation {
        RefusalIsFinal(t, WithRefs(sent, id, refs, i + 1), WithRefs(sent, id, refs, |refs|));
      }
    }

    /** One preset ref; an absent or Nil one is skipped. */
    method SendRef(ghost t: Tables, ghost sent: seq<Statement>, id: Uuid.Text, category: Category, ref: Option<Uuid.Id>)
      returns (r: ExecResult)
      requires db.staged.Some? && db.staged == ExecuteAll(t, sent)
      modifies db`staged, db`failures
      ensures r == Executed ==> db.staged.Some? && db.staged == ExecuteAll(t, sent + RefInsert(id, category, ref))
      ensures r == Violation ==> ExecuteAll(t, sent + RefInsert(id, category, ref)).None?
      ensures db.failures == if r == Interrupted then old(db.failures) + 1 else old(db.failures)
    {
      hide ExecuteAll;
      if !IsSet(ref) {
        assert sent + [] == sent;
        return Executed;
      }
      r := Send(t, sent, InsertRef(id, RefRow(category, Uuid.String(ref.value))));
    }

    /** `GetSpec`: four queries, then the rebuilt spec. */
    method GetSpec(run: Uuid.Id) returns (r: Result<Spec, GetError>)
      requires Valid(db.committed)
      modifies db`failures
      ensures r == Err(GetError.Failed) <==> db.failures > old(db.failures)
      ensures db.failures >= old(db.failures)
      ensures db.failures == old(db.failures) ==>
                r == match SpecOfRun(db.committed, Uuid.String(run)) case None => Err(NotFound) case Some(s) => Ok(s)
    {
      hide ValidDatasets, ValidParameters, ValidRefs, RunOf;
      var ok := db.Query();
      if !ok {
        return Err(GetError.Failed);
      }
      var runText := Uuid.String(run);
      if runText !in db.committed.runs {
        return Err(NotFound);
      }
      var row := db.committed.specs[db.committed.runs[runText].specId];
      ok := db.Query();
      if !ok {
        return Err(GetError.Failed);
      }
      var refRows := db.SelectRefs(row.id);
      var refs := CollectRefs(refRows);
      ok := db.Query();
      if !ok {
        return Err(GetError.Failed);
      }
      var datasets := db.SelectDatasets(row.id);
      ok := db.Query();
      if !ok {
        return Err(GetError.Failed);
      }
      var parameters := db.SelectParameters(row.id);
      RowsRebuildSpec(db.committed, row.id, refRows, datasets, parameters);
      hide SelectsDatasets, SelectsParameters, SelectsRefs, RefsOf, SpecOf, StoredSpec, ValidRuns;
      if refs.None? {
        return Err(Corrupt);
      }
      var data := ToData(SpecEntity(row, refs.value, datasets, parameters));
      if data.None? {
        return Err(Corrupt);
      }
      r := Ok(data.value);
    }

    /** The loop of `getSpecPresetRefs`. */
    method CollectRefs(rows: seq<RefRow>) returns (result: Option<Refs>)
      ensures result == RefsOf(rows)
    {
      var refs := Refs(None, None, None);
      for i := 0 to |rows|
        invariant RefsOf(rows[..i]) == Some(refs)
      {
        assert rows[..i + 1][..i] == rows[..i];
        var id := Uuid.Parse(rows[i].presetId);
        if id.None? || rows[i].category.OtherCategory? {
          RefsOfFailure(rows, i + 1);
          return None;
        }
        match rows[i].category {
          case TrainerCategory => refs := refs.(trainer := id);
          case ResourceCategory => refs := refs.(resource := id);
          case OutputCategory => refs := refs.(output := id);
          case OtherCategory(_) =>
        }
      }
      assert rows[..|rows|] == rows;
      result := Some(refs);
    }

    /** `ListProjectRuns`: the newest runs of an existing project, by the text of their creation time. */
    method ListProjectRuns(project: Uuid.Id, limit: int) returns (r: Result<seq<Run>, GetError>, ghost rows: seq<RunRow>)
      requires Valid(db.committed)
      modifies db`failures
      ensures r == Err(GetError.Failed) <==> db.failures > old(db.failures)
      ensures db.failures >= old(db.failures)
      ensures db.failures == old(db.failures) ==>
                if Uuid.String(project) in db.committed.projects then r.Ok? else r == Err(NotFound)
      ensures r.Ok? ==> SelectsRuns(db.committed, Uuid.String(project), limit, rows) && |r.value| == |rows|
      ensures r.Ok? ==> forall i :: 0 <= i < |rows| ==> RunOf(rows[i]) == Some(r.value[i])
    {
      hide RunOf, ValidSpecs, ValidDatasets, ValidParameters, ValidRefs;
      rows := [];
      var ok := db.Query();
      if !ok {
        return Err(GetError.Failed), [];
      }
      if Uuid.String(project) !in db.committed.projects {
        return Err(NotFound), [];
      }
      ok := db.Query();
      if !ok {
        return Err(GetError.Failed), [];
      }
      var selected := db.SelectRuns(Uuid.String(project), limit);
      rows := selected;
      var runs: seq<Run> := [];
      for i := 0 to |selected|
        invariant |runs| == i && forall j :: 0 <= j < i ==> RunOf(selected[j]) == Some(runs[j])
        invariant db.failures == old(db.failures)
      {
        assert selected[i].id in RunsOf(db.committed, Uuid.String(project));
        var item := RunToData(selected[i]);
        if item.None? {
          return Err(Corrupt), rows;
        }
        runs := runs + [item.value];
      }
      r := Ok(runs);
    }

    /** `Migrate` on a ledger in use. */
    method MigrateAgain()
      requires Valid(db.committed) && db.staged.None?
      modifies db
      ensures Valid(db.committed) && Seeded(db.committed) && db.staged.None?
      ensures db.committed == Migrate(old(db.committed))
    {
      MigrateExtends(db.committed);
      MigrateIsIdempotent(db.committed);
      db.committed := Migrate(db.committed);
    }
  }

  lemma {:induction false} RefsOfFailure(rows: seq<RefRow>, n: nat)
    requires n <= |rows| && RefsOf(rows[..n]).None?
    ensures RefsOf(rows).None?
    decreases |rows|
  {
    if n == |rows| {
      assert rows[..n] == rows;
    } else {
      var shorter := rows[..|rows| - 1];
      assert shorter[..n] == rows[..n];
      RefsOfFailure(shorter, n);
    }
  }
}
