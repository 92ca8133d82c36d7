/** Laws over whole runs of the ledger: what a GetSpec may answer, and that no answer ever changes. */
module LedgerRuns {
  import opened Prelude
  import opened Domain
  import opened Timestamps
  import opened Schema
  import opened Entities
  import opened Ledger
  import opened Queries
  import opened LedgerProtocol
  import Finalization
  import Uuid

  /** A valid ledger that nobody is using yet. */
  ghost predicate Starts(s: State) {
    Valid(s.tables) && s.open.None? && s.clients == map[]
  }

  ghost predicate IsRun(states: seq<State>, labels: seq<Label>) {
    && |states| == |labels| + 1 && Starts(states[0])
    && forall i :: 0 <= i < |labels| ==> StepsTo(states, labels, i)
  }

  ghost predicate StepsTo(states: seq<State>, labels: seq<Label>, i: nat)
    requires i < |labels| && |states| == |labels| + 1
  {
    Enabled(states[i], labels[i]) && states[i + 1] == Apply(states[i], labels[i])
  }

  lemma StartKeepsInv(s: State)
    requires Starts(s)
    ensures Inv(s)
  {
    hide Valid, ClientOk;
  }

  lemma {:induction false} RunKeepsInv(states: seq<State>, labels: seq<Label>, n: nat)
    requires IsRun(states, labels) && n < |states|
    ensures Inv(states[n])
  {
    hide Inv, Enabled, Apply, Extends;
    if n == 0 {
      StartKeepsInv(states[0]);
    } else {
      RunKeepsInv(states, labels, n - 1);
      assert StepsTo(states, labels, n - 1);
      StepKeepsInv(states[n - 1], labels[n - 1]);
    }
  }

  lemma {:induction false} RunExtends(states: seq<State>, labels: seq<Label>, i: nat, j: nat)
    requires IsRun(states, labels) && i <= j < |states|
    ensures Extends(states[i].tables, states[j].tables)
  {
    hide Inv, Enabled, Apply, Extends;
    if i == j {
      ExtendsItself(states[i].tables);
    } else {
      RunExtends(states, labels, i, j - 1);
      RunKeepsInv(states, labels, j - 1);
      assert StepsTo(states, labels, j - 1);
      StepKeepsInv(states[j - 1], labels[j - 1]);
      ExtendsIsTransitive(states[i].tables, states[j - 1].tables, states[j].tables);
    }
  }

  /**
   * The tables refine an append-only map from run to spec: a commit adds its own run, which was
   * not there, and no other step, failed transactions and migrations included, changes any entry.
   */
  lemma StepRefinesAppendOnlyMap(s: State, l: Label, id: Uuid.Text)
    requires Inv(s) && Enabled(s, l)
    ensures !l.Commit? ==> SpecOfRun(Apply(s, l).tables, id) == SpecOfRun(s.tables, id)
    ensures l.Commit? ==>
              var client := ClientOf(s, l.c);
              && client.InTransaction? && SpecOfRun(s.tables, Uuid.String(client.run.id)).None?
              && SpecOfRun(Apply(s, l).tables, id) ==
                 if id != Uuid.String(client.run.id) then SpecOfRun(s.tables, id)
                 else if client.run.specId == client.spec.id then Some(Normal(client.spec))
                 else StoredSpec(s.tables, Uuid.String(client.run.specId))
  {
    hide Inv, SpecOfRun, StoredSpec, Normal, Enabled, Apply;
    if l.Commit? {
      CommitAppends(s, l, id);
    } else if l.Reopen? || l.AddProject? {
      OutsideKeepsSpecs(s, l, id);
    } else {
      OthersKeepTables(s, l);
    }
  }

  lemma CommitAppends(s: State, l: Label, id: Uuid.Text)
    requires Inv(s) && Enabled(s, l) && l.Commit?
    ensures
      var client := ClientOf(s, l.c);
      && client.InTransaction? && SpecOfRun(s.tables, Uuid.String(client.run.id)).None?
      && SpecOfRun(Apply(s, l).tables, id) ==
         if id != Uuid.String(client.run.id) then SpecOfRun(s.tables, id)
         else if client.run.specId == client.spec.id then Some(Normal(client.spec))
         else StoredSpec(s.tables, Uuid.String(client.run.specId))
  {
    hide ClientsOk, OpenOk, Valid, Inserts, StoredSpec, Normal, AddRun, Convertible, Known;
    CommitAddsRun(s, l.c);
    CreateRunAppends(s.tables, ClientOf(s, l.c).spec, ClientOf(s, l.c).run, id);
  }

  lemma OutsideKeepsSpecs(s: State, l: Label, id: Uuid.Text)
    requires Inv(s) && Enabled(s, l) && (l.Reopen? || l.AddProject?)
    ensures SpecOfRun(Apply(s, l).tables, id) == SpecOfRun(s.tables, id)
  {
    hide StoredSpec, Valid, ClientsOk, OpenOk, Migrate, Extends;
    if l.Reopen? {
      MigrateChangesNoSpec(s.tables, id);
      hide SpecOfRun;
    } else {
      AddProjectExtends(s.tables, l.id);
      if id in s.tables.runs {
        SpecOfRunIsStable(s.tables, Apply(s, l).tables, id);
      }
    }
  }

  lemma OthersKeepTables(s: State, l: Label)
    requires Enabled(s, l) && !l.Commit? && !l.Reopen? && !l.AddProject?
    ensures Apply(s, l).tables == s.tables
  {
    hide Flattens, Inserts, Execute, Submitted, Convertible, RefsOf, Answered, JoinedRow;
    hide SelectsRefs, SelectsDatasets, SelectsParameters, SelectsRuns, AnsweredList;
  }

  /** Once committed, a run shows the same spec in every later state. */
  lemma CommittedSpecsAreForEver(states: seq<State>, labels: seq<Label>, i: nat, j: nat, id: Uuid.Text)
    requires IsRun(states, labels) && i <= j < |states| && SpecOfRun(states[i].tables, id).Some?
    ensures SpecOfRun(states[j].tables, id) == SpecOfRun(states[i].tables, id)
  {
    RunKeepsInv(states, labels, i);
    RunExtends(states, labels, i, j);
    assert Valid(states[i].tables);
    hide IsRun, Valid, Extends, StoredSpec;
    SpecOfRunIsStable(states[i].tables, states[j].tables, id);
  }

  /**
   * GetSpec on a committed run returns exactly the spec that was committed for it, however its four
   * queries interleave with other clients, and whenever it is asked.
   */
  lemma GetSpecReturnsTheCommittedSpec(states: seq<State>, labels: seq<Label>, i: nat, j: nat, writer: nat, reader: nat)
    requires IsRun(states, labels) && i < j < |states| && labels[i] == Commit(writer)
    requires ClientOf(states[i], writer).InTransaction?
    requires ClientOf(states[i], writer).run.specId == ClientOf(states[i], writer).spec.id
    requires ClientOf(states[j], reader).Got? && ClientOf(states[j], reader).runId == ClientOf(states[i], writer).run.id
    ensures ClientOf(states[j], reader).answer == Normal(ClientOf(states[i], writer).spec)
  {
    hide Inv, Normal, SpecOfRun, Enabled, Apply, Inserts, ExecuteAll, Starts;
    var id := Uuid.String(ClientOf(states[i], writer).run.id);
    RunKeepsInv(states, labels, i);
    RunKeepsInv(states, labels, j);
    assert StepsTo(states, labels, i);
    hide IsRun;
    StepRefinesAppendOnlyMap(states[i], labels[i], id);
    CommittedSpecsAreForEver(states, labels, i + 1, j, id);
    AnswerIsRight(states[j], reader);
  }

  lemma AnswerIsRight(s: State, reader: nat)
    requires Inv(s) && ClientOf(s, reader).Got?
    ensures SpecOfRun(s.tables, Uuid.String(ClientOf(s, reader).runId)) == Some(ClientOf(s, reader).answer)
  {
    hide Valid, OpenOk, SpecOfRun, Flattens, JoinedRow, RefsFrom, SelectsDatasets;
    assert ClientOk(s.tables, ClientOf(s, reader));
  }

  /** An answer given once is still the answer at any later time. */
  lemma AnswersStayRight(states: seq<State>, labels: seq<Label>, i: nat, j: nat, reader: nat)
    requires IsRun(states, labels) && i <= j < |states| && ClientOf(states[i], reader).Got?
    ensures SpecOfRun(states[j].tables, Uuid.String(ClientOf(states[i], reader).runId)) == Some(ClientOf(states[i], reader).answer)
  {
    RunKeepsInv(states, labels, i);
    hide Inv, SpecOfRun;
    AnswerIsRight(states[i], reader);
    CommittedSpecsAreForEver(states, labels, i, j, Uuid.String(ClientOf(states[i], reader).runId));
  }

  /** No GetSpec and no listing ever meets rows it cannot convert. */
  lemma NothingIsEverBroken(states: seq<State>, labels: seq<Label>, n: nat, reader: nat)
    requires IsRun(states, labels) && n < |states|
    ensures !ClientOf(states[n], reader).Broken? && !ClientOf(states[n], reader).BrokenListing?
  {
    RunKeepsInv(states, labels, n);
    hide IsRun, Valid, OpenOk, Flattens, JoinedRow, RefsFrom, SelectsDatasets, SpecOfRun, StillThere;
    assert reader in states[n].clients ==> ClientOk(states[n].tables, states[n].clients[reader]);
  }

  /** The rows query of a listing ran at step `k`, and the client has held its rows since. */
  ghost predicate ListedAt(states: seq<State>, labels: seq<Label>, k: nat, j: nat, reader: nat) {
    && k < j < |states| && |states| == |labels| + 1 && ClientOf(states[j], reader).Listed?
    && labels[k] == QueryRuns(reader, ClientOf(states[j], reader).listed)
    && (var l := ClientOf(states[j], reader);
        SelectsRuns(states[k].tables, Uuid.String(l.project), l.limit, l.listed))
    && forall m :: k < m <= j ==> ClientOf(states[m], reader) == ClientOf(states[j], reader)
  }

  lemma ListedStill(states: seq<State>, labels: seq<Label>, k: nat, j: nat, reader: nat)
    requires 0 < j < |states| && ListedAt(states, labels, k, j - 1, reader)
    requires ClientOf(states[j], reader) == ClientOf(states[j - 1], reader)
    ensures ListedAt(states, labels, k, j, reader)
  {
    hide SelectsRuns;
  }

  lemma NobodyAtTheStart(states: seq<State>, labels: seq<Label>, c: nat)
    requires IsRun(states, labels)
    ensures ClientOf(states[0], c).Idle?
  {
    hide Valid, StepsTo;
  }

  /** A listing is what the ledger held at one moment of the call, although it asks for the project first. */
  lemma {:induction false} ListingIsASnapshot(states: seq<State>, labels: seq<Label>, j: nat, reader: nat)
    requires IsRun(states, labels) && j < |states| && ClientOf(states[j], reader).Listed?
    ensures exists k :: ListedAt(states, labels, k, j, reader)
  {
    hide Starts, Inv, SelectsRuns, Enabled, Apply;
    NobodyAtTheStart(states, labels, reader);
    RunKeepsInv(states, labels, j - 1);
    assert StepsTo(states, labels, j - 1);
    if ClientOf(states[j - 1], reader) == ClientOf(states[j], reader) {
      ListingIsASnapshot(states, labels, j - 1, reader);
      var k :| ListedAt(states, labels, k, j - 1, reader);
      hide IsRun, ListedAt;
      ListedStill(states, labels, k, j, reader);
    } else {
      ListedComesFromQuery(states[j - 1], labels[j - 1], reader);
      assert ListedAt(states, labels, j - 1, j, reader);
    }
  }

  lemma ListedComesFromQuery(s: State, l: Label, reader: nat)
    requires Inv(s) && Enabled(s, l)
    requires ClientOf(Apply(s, l), reader).Listed? && ClientOf(s, reader) != ClientOf(Apply(s, l), reader)
    ensures
      var listed := ClientOf(Apply(s, l), reader);
      l == QueryRuns(reader, listed.listed) && SelectsRuns(s.tables, Uuid.String(listed.project), listed.limit, listed.listed)
  {
    hide Inv, Execute, Inserts, Flattens, RefsOf, SpecOf, RunOf, JoinedRow, Submitted, Convertible, Migrate;
    hide SelectsRefs, SelectsDatasets, SelectsParameters, SelectsRuns;
  }

  /**
   * A run committed before the rows were queried is listed, unless the limit is used up by runs whose
   * timestamp text is not below its own; and a run that is listed is still there, unchanged, at any later time.
   */
  lemma ListingMissesNothingEarlier(states: seq<State>, labels: seq<Label>, i: nat, k: nat, j: nat, reader: nat, id: Uuid.Text)
    requires IsRun(states, labels) && i <= k && ListedAt(states, labels, k, j, reader)
    requires id in RunsOf(states[i].tables, Uuid.String(ClientOf(states[j], reader).project))
    ensures
      var l, row := ClientOf(states[j], reader), states[i].tables.runs[id];
      || row in l.listed
      || (|l.listed| == l.limit && forall r :: 0 <= r < |l.listed| ==> !Newer(row.createdAt, l.listed[r].createdAt))
    ensures StillThere(states[j].tables, Uuid.String(ClientOf(states[j], reader).project), ClientOf(states[j], reader).listed)
  {
    hide Starts, StepsTo, Newer, SameChildren, Valid, OpenOk;
    RunExtends(states, labels, i, k);
    RunKeepsInv(states, labels, j);
    hide IsRun;
    var l, row := ClientOf(states[j], reader), states[i].tables.runs[id];
    var t, project := states[k].tables, Uuid.String(l.project);
    assert t.runs[id] == row && id in RunsOf(t, project);
    assert ClientOk(states[j].tables, l);
    hide Inv, Extends, StillThere;
    AllOrLimited(t, project, l.limit, l.listed, id);
  }

  /** A selection holds a run of the project, or it is as long as the limit and holds none that is older. */
  lemma AllOrLimited(t: Tables, project: Uuid.Text, limit: int, rows: seq<RunRow>, id: Uuid.Text)
    requires SelectsRuns(t, project, limit, rows) && id in RunsOf(t, project)
    ensures t.runs[id] in rows
            || (|rows| == limit && forall r :: 0 <= r < |rows| ==> !Newer(t.runs[id].createdAt, rows[r].createdAt))
  {
    hide Newer;
    if id in Selected(rows) {
      var r :| 0 <= r < |rows| && rows[r].id == id;
      assert rows[r] == t.runs[id];
    } else if |rows| == |RunsOf(t, project)| {
      SelectedCount(rows);
      assert Selected(rows) <= RunsOf(t, project) - {id};
      SubsetCount(Selected(rows), RunsOf(t, project) - {id});
    }
  }

  lemma {:induction false} SelectedCount(rows: seq<RunRow>)
    requires forall i, j :: 0 <= i < j < |rows| ==> rows[i].id != rows[j].id
    ensures |Selected(rows)| == |rows|
  {
    if rows == [] {
      assert Selected(rows) == {};
    } else {
      var n := |rows| - 1;
      SelectedCount(rows[..n]);
      assert Selected(rows) == Selected(rows[..n]) + {rows[n].id};
    }
  }

  lemma {:induction false} SubsetCount(a: set<Uuid.Text>, b: set<Uuid.Text>)
    requires a <= b
    ensures |a| <= |b|
  {
    if a != {} {
      var x :| x in a;
      SubsetCount(a - {x}, b - {x});
    }
  }

  /** The row query of `reader` at step `k` ran before the run was committed. */
  ghost predicate AskedTooEarly(states: seq<State>, labels: seq<Label>, k: nat, j: nat, reader: nat, runId: Uuid.Id) {
    && k < j && j < |states| && |states| == |labels| + 1
    && labels[k] == QueryRow(reader) && Uuid.String(runId) !in states[k].tables.runs
    && forall m :: k < m <= j ==> ClientOf(states[m], reader) == Missing(runId)
  }

  /** A GetSpec reports a missing run only if its first query ran before the run was committed. */
  lemma {:induction false} MissingMeansAskedTooEarly(states: seq<State>, labels: seq<Label>, j: nat, reader: nat, runId: Uuid.Id)
    requires IsRun(states, labels) && j < |states| && ClientOf(states[j], reader) == Missing(runId)
    ensures exists k :: AskedTooEarly(states, labels, k, j, reader, runId)
  {
    hide Starts, Inv, Enabled, Apply;
    NobodyAtTheStart(states, labels, reader);
    RunKeepsInv(states, labels, j - 1);
    assert StepsTo(states, labels, j - 1);
    if ClientOf(states[j - 1], reader) == Missing(runId) {
      MissingMeansAskedTooEarly(states, labels, j - 1, reader, runId);
      var k :| AskedTooEarly(states, labels, k, j - 1, reader, runId);
      hide IsRun;
      assert AskedTooEarly(states, labels, k, j, reader, runId);
    } else {
      MissingComesFromRowQuery(states[j - 1], labels[j - 1], reader, runId);
      hide IsRun;
      assert AskedTooEarly(states, labels, j - 1, j, reader, runId);
    }
  }

  lemma MissingComesFromRowQuery(s: State, l: Label, reader: nat, runId: Uuid.Id)
    requires Inv(s) && Enabled(s, l)
    requires ClientOf(Apply(s, l), reader) == Missing(runId) && ClientOf(s, reader) != Missing(runId)
    ensures l == QueryRow(reader) && Uuid.String(runId) !in s.tables.runs
  {
    hide Inv, JoinedRow;
    MissingMeansNoRow(s, l, reader, runId);
    NoRowMeansNoRun(s, runId);
    hide Enabled, Apply;
  }

  lemma MissingMeansNoRow(s: State, l: Label, reader: nat, runId: Uuid.Id)
    requires Enabled(s, l)
    requires ClientOf(Apply(s, l), reader) == Missing(runId) && ClientOf(s, reader) != Missing(runId)
    ensures l == QueryRow(reader) && JoinedRow(s.tables, runId).None?
  {
    hide Execute, Inserts, Flattens, RefsOf, SpecOf, JoinedRow, Submitted, Convertible, Migrate, RunOf;
    hide SelectsRefs, SelectsDatasets, SelectsParameters, SelectsRuns;
  }

  lemma NoRowMeansNoRun(s: State, runId: Uuid.Id)
    requires Inv(s) && JoinedRow(s.tables, runId).None?
    ensures Uuid.String(runId) !in s.tables.runs
  {
    hide ClientsOk, OpenOk, ValidSpecs, ValidDatasets, ValidParameters, ValidRefs, RunOf;
  }
}
