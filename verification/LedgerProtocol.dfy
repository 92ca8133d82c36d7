/**
 * Any number of clients on one ledger. Every step is one statement on the single connection:
 * while a transaction is open nobody else reads or writes; between transactions the four
 * queries of a GetSpec, whole CreateRuns, migrations and Submits interleave freely.
 */
module LedgerProtocol {
  import opened Prelude
  import opened Domain
  import opened Timestamps
  import opened Schema
  import opened Entities
  import opened Ledger
  import opened Queries
  import opened Numbers
  import Finalization
  import Uuid

  datatype Client =
    | Idle
    | Checking(draft: Draft)
    | Building(draft: Draft)
    | Waiting(spec: Spec, run: Run, entity: SpecEntity)
    | InTransaction(spec: Spec, run: Run, entity: SpecEntity)
    | Created(run: Run)
    | NotCreated
    | AskingRow(runId: Uuid.Id)
    | AskingRefs(runId: Uuid.Id, row: SpecRow)
    | AskingDatasets(runId: Uuid.Id, row: SpecRow, refs: Refs)
    | AskingParameters(runId: Uuid.Id, row: SpecRow, refs: Refs, datasets: seq<DatasetRow>)
    | Got(runId: Uuid.Id, answer: Spec)
    | Missing(runId: Uuid.Id)
    | Broken(runId: Uuid.Id)
    | AskingProject(project: Uuid.Id, limit: int)
    | AskingRuns(project: Uuid.Id, limit: int)
    | Listed(project: Uuid.Id, limit: int, listed: seq<RunRow>)
    | NoProject(project: Uuid.Id)
    | BrokenListing

  /** The open transaction: its owner, its uncommitted tables, and how many statements it has sent. */
  datatype Transaction = Transaction(owner: nat, staged: Tables, sent: nat)

  datatype State = State(
    tables: Tables, open: Option<Transaction>, clients: map<nat, Client>,
    issued: set<Uuid.Id>, submitted: nat)

  function ClientOf(s: State, c: nat): Client {
    if c in s.clients then s.clients[c] else Idle
  }

  function Move(s: State, c: nat, to: Client): State {
    s.(clients := s.clients[c := to])
  }

  datatype Label =
    | CreateRun(c: nat, spec: Spec, run: Run, entity: SpecEntity)
    | Submit(c: nat, draft: Draft)
    | CheckProject(c: nat)
    | BuildSpec(c: nat, specId: Uuid.Id, runId: Uuid.Id, now: Instant, entity: SpecEntity)
    | Begin(c: nat)
    | Send(c: nat)
    | Commit(c: nat)
    | GiveUp(c: nat)
    | GetSpec(c: nat, runId: Uuid.Id)
    | QueryRow(c: nat)
    | QueryRefs(c: nat, refRows: seq<RefRow>)
    | QueryDatasets(c: nat, datasetRows: seq<DatasetRow>)
    | QueryParameters(c: nat, parameterRows: seq<ParameterRow>)
    | ListRuns(c: nat, project: Uuid.Id, limit: int)
    | QueryProject(c: nat)
    | QueryRuns(c: nat, runRows: seq<RunRow>)
    | Return(c: nat)
    | Reopen
    | AddProject(id: Uuid.Id)

  /** What a Submit hands to CreateRun: the built spec under a new identifier. */
  function Submitted(d: Draft, specId: Uuid.Id): Option<Spec> {
    match Finalization.Build(Finalization.Phase0Registry(), d)
    case None => None
    case Some(built) => Some(built.(id := specId, projectId := d.projectId))
  }

  predicate InUse(client: Client) {
    && !client.Idle? && !client.Created? && !client.NotCreated? && !client.Got? && !client.Missing? && !client.Broken?
    && !client.Listed? && !client.NoProject? && !client.BrokenListing?
  }

  predicate ReadyToCommit(s: State, c: nat) {
    ClientOf(s, c).InTransaction? && s.open.Some? && s.open.value.owner == c
    && s.open.value.sent == |Inserts(ClientOf(s, c).entity, ClientOf(s, c).run)|
  }

  ghost predicate Enabled(s: State, l: Label) {
    match l
    case CreateRun(c, spec, run, entity) =>
      ClientOf(s, c).Idle? && Flattens(entity, spec, Stamp(run.lifecycle.createdAt))
    case Submit(c, _) => ClientOf(s, c).Idle?
    case CheckProject(c) => ClientOf(s, c).Checking? && s.open.None?
    case BuildSpec(c, specId, runId, now, entity) =>
      && ClientOf(s, c).Building?
      && specId != runId && Uuid.Nil !in {specId, runId} && s.issued !! {specId, runId}
      && (var spec := Submitted(ClientOf(s, c).draft, specId);
          spec.Some? && Convertible(spec.value) ==> Flattens(entity, spec.value, Stamp(now)))
    case Begin(c) => ClientOf(s, c).Waiting? && s.open.None?
    case Send(c) =>
      ClientOf(s, c).InTransaction? && s.open.Some? && s.open.value.owner == c
      && s.open.value.sent < |Inserts(ClientOf(s, c).entity, ClientOf(s, c).run)|
    case Commit(c) => ReadyToCommit(s, c)
    case GiveUp(c) => InUse(ClientOf(s, c))
    case GetSpec(c, _) => ClientOf(s, c).Idle?
    case QueryRow(c) => ClientOf(s, c).AskingRow? && s.open.None?
    case QueryRefs(c, rows) =>
      ClientOf(s, c).AskingRefs? && s.open.None? && SelectsRefs(s.tables, ClientOf(s, c).row.id, rows)
    case QueryDatasets(c, rows) =>
      ClientOf(s, c).AskingDatasets? && s.open.None? && SelectsDatasets(s.tables, ClientOf(s, c).row.id, rows)
    case QueryParameters(c, rows) =>
      ClientOf(s, c).AskingParameters? && s.open.None? && SelectsParameters(s.tables, ClientOf(s, c).row.id, rows)
    case ListRuns(c, _, _) => ClientOf(s, c).Idle?
    case QueryProject(c) => ClientOf(s, c).AskingProject? && s.open.None?
    case QueryRuns(c, rows) =>
      ClientOf(s, c).AskingRuns? && s.open.None?
      && SelectsRuns(s.tables, Uuid.String(ClientOf(s, c).project), ClientOf(s, c).limit, rows)
    case Return(c) => !InUse(ClientOf(s, c))
    case Reopen => s.open.None?
    case AddProject(_) => s.open.None?
  }

  /** `runs JOIN specs ON specs.id = runs.spec_id WHERE runs.id = ?` */
  function JoinedRow(t: Tables, runId: Uuid.Id): Option<SpecRow> {
    var run := Uuid.String(runId);
    if run in t.runs && t.runs[run].specId in t.specs then Some(t.specs[t.runs[run].specId]) else None
  }

  function AfterSend(s: State, c: nat): State
    requires ClientOf(s, c).InTransaction? && s.open.Some?
    requires s.open.value.sent < |Inserts(ClientOf(s, c).entity, ClientOf(s, c).run)|
  {
    var tx := s.open.value;
    match Execute(tx.staged, Inserts(ClientOf(s, c).entity, ClientOf(s, c).run)[tx.sent])
    case Some(t) => s.(open := Some(tx.(staged := t, sent := tx.sent + 1)))
    case None => Move(s, c, NotCreated).(open := None)
  }

  function AfterCommit(s: State, c: nat): State
    requires ClientOf(s, c).InTransaction? && s.open.Some?
  {
    Move(s, c, Created(ClientOf(s, c).run)).(tables := s.open.value.staged, open := None, submitted := s.submitted + 1)
  }

  /** The rebuilt spec, once the last rows are in. */
  function Answered(client: Client, rows: seq<ParameterRow>): Client
    requires client.AskingParameters?
  {
    match SpecOf(SpecEntity(client.row, client.refs, client.datasets, rows))
    case Some(answer) => Got(client.runId, answer)
    case None => Broken(client.runId)
  }

  /** The listing, once its rows are in; one row that does not convert spoils it. */
  function AnsweredList(client: Client, rows: seq<RunRow>): Client
    requires client.AskingRuns?
  {
    if forall i :: 0 <= i < |rows| ==> RunOf(rows[i]).Some? then Listed(client.project, client.limit, rows) else BrokenListing
  }

  function AfterBuild(s: State, l: Label): State
    requires l.BuildSpec? && ClientOf(s, l.c).Building?
  {
    var d := ClientOf(s, l.c).draft;
    var spec := Submitted(d, l.specId);
    var next := s.(issued := s.issued + {l.specId, l.runId});
    if spec.Some? && Convertible(spec.value)
    then Move(next, l.c, Waiting(spec.value, NewWithSpec(l.runId, l.specId, d.projectId, l.now), l.entity))
    else Move(next, l.c, NotCreated)
  }

  ghost function Apply(s: State, l: Label): State
    requires Enabled(s, l)
  {
    match l
    case CreateRun(c, spec, run, entity) => Move(s, c, Waiting(spec, run, entity))
    case Submit(c, draft) => Move(s, c, Checking(draft))
    case CheckProject(c) =>
      var d := ClientOf(s, c).draft;
      Move(s, c, if Uuid.String(d.projectId) in s.tables.projects then Building(d) else NotCreated)
    case BuildSpec(_, _, _, _, _) => AfterBuild(s, l)
    case Begin(c) =>
      var client := ClientOf(s, c);
      Move(s, c, InTransaction(client.spec, client.run, client.entity)).(open := Some(Transaction(c, s.tables, 0)))
    case Send(c) => AfterSend(s, c)
    case Commit(c) => AfterCommit(s, c)
    case GiveUp(c) =>
      Move(s, c, NotCreated).(open := if s.open.Some? && s.open.value.owner == c then None else s.open)
    case GetSpec(c, runId) => Move(s, c, AskingRow(runId))
    case QueryRow(c) =>
      var runId := ClientOf(s, c).runId;
      var row := JoinedRow(s.tables, runId);
      Move(s, c, if row.Some? then AskingRefs(runId, row.value) else Missing(runId))
    case QueryRefs(c, rows) =>
      var client := ClientOf(s, c);
      Move(s, c, match RefsOf(rows)
                 case Some(refs) => AskingDatasets(client.runId, client.row, refs)
                 case None => Broken(client.runId))
    case QueryDatasets(c, rows) =>
      var client := ClientOf(s, c);
      Move(s, c, AskingParameters(client.runId, client.row, client.refs, rows))
    case QueryParameters(c, rows) =>
      var client := ClientOf(s, c);
      Move(s, c, Answered(client, rows))
    case ListRuns(c, project, limit) => Move(s, c, AskingProject(project, limit))
    case QueryProject(c) =>
      var client := ClientOf(s, c);
      Move(s, c, if Uuid.String(client.project) in s.tables.projects then AskingRuns(client.project, client.limit)
                 else NoProject(client.project))
    case QueryRuns(c, rows) => Move(s, c, AnsweredList(ClientOf(s, c), rows))
    case Return(c) => Move(s, c, Idle)
    case Reopen => s.(tables := Migrate(s.tables))
    case AddProject(id) => s.(tables := s.tables.(projects := s.tables.projects + {Uuid.String(id)}))
  }

  // The invariant.

  /** What a client has read or prepared so far is right for the committed tables. */
  ghost predicate ClientOk(t: Tables, client: Client) {
    match client
    case Waiting(spec, run, entity) => Flattens(entity, spec, Stamp(run.lifecycle.createdAt))
    case InTransaction(spec, run, entity) => Flattens(entity, spec, Stamp(run.lifecycle.createdAt))
    case AskingRefs(runId, row) => JoinedRow(t, runId) == Some(row)
    case AskingDatasets(runId, row, refs) => JoinedRow(t, runId) == Some(row) && refs == RefsFrom(t, row.id)
    case AskingParameters(runId, row, refs, datasets) =>
      JoinedRow(t, runId) == Some(row) && refs == RefsFrom(t, row.id) && SelectsDatasets(t, row.id, datasets)
    case Got(runId, answer) => SpecOfRun(t, Uuid.String(runId)) == Some(answer)
    case Broken(_) => false
    case Listed(project, _, rows) => StillThere(t, Uuid.String(project), rows)
    case BrokenListing => false
    case _ => true
  }

  /** Every row is still a run of the project, as it was read. */
  ghost predicate StillThere(t: Tables, project: Uuid.Text, rows: seq<RunRow>) {
    forall i :: 0 <= i < |rows| ==> rows[i].id in RunsOf(t, project) && t.runs[rows[i].id] == rows[i]
  }

  ghost predicate ClientsOk(s: State) {
    forall c :: c in s.clients ==> ClientOk(s.tables, s.clients[c])
  }

  /** An open transaction has executed exactly the statements it sent, on the committed tables. */
  ghost predicate OpenOk(s: State) {
    && (forall c :: c in s.clients && s.clients[c].InTransaction? ==> s.open.Some? && s.open.value.owner == c)
    && (s.open.Some? ==>
          var tx := s.open.value;
          && ClientOf(s, tx.owner).InTransaction?
          && (var all := Inserts(ClientOf(s, tx.owner).entity, ClientOf(s, tx.owner).run);
              tx.sent <= |all| && ExecuteAll(s.tables, all[..tx.sent]) == Some(tx.staged)))
  }

  ghost predicate Inv(s: State) {
    Valid(s.tables) && ClientsOk(s) && OpenOk(s)
  }

  lemma ClientOkIsStable(t: Tables, u: Tables, client: Client)
    requires Valid(t) && Extends(t, u) && ClientOk(t, client)
    ensures ClientOk(u, client)
  {
    hide Valid, SameChildren, RefsFrom, SelectsDatasets, SpecOfRun, Flattens;
    match client
    case AskingDatasets(runId, row, refs) =>
      JoinedRowIsStored(t, runId, row);
      RefsFromExtends(t, u, row.id);
    case AskingParameters(runId, row, refs, datasets) =>
      JoinedRowIsStored(t, runId, row);
      RefsFromExtends(t, u, row.id);
      SelectionIsStable(t, u, row.id);
    case Got(runId, answer) =>
      RunOfSpec(t, Uuid.String(runId));
      SpecOfRunIsStable(t, u, Uuid.String(runId));
    case _ =>
  }

  lemma JoinedRowIsStored(t: Tables, runId: Uuid.Id, row: SpecRow)
    requires Valid(t) && JoinedRow(t, runId) == Some(row)
    ensures row.id in t.specs
  {
    hide ValidDatasets, ValidParameters, ValidRefs, ValidRuns;
  }

  lemma RunOfSpec(t: Tables, id: Uuid.Text)
    requires SpecOfRun(t, id).Some?
    ensures id in t.runs
  {
  }

  lemma ClientsStayOk(s: State, u: Tables)
    requires Inv(s) && Extends(s.tables, u)
    ensures forall c :: c in s.clients ==> ClientOk(u, s.clients[c])
  {
    forall c | c in s.clients
      ensures ClientOk(u, s.clients[c])
    {
      ClientOkIsStable(s.tables, u, s.clients[c]);
    }
  }

  /** A step of one client outside a transaction that leaves the tables alone. */
  lemma MoveKeepsInv(s: State, c: nat, to: Client)
    requires Inv(s) && ClientOk(s.tables, to) && !to.InTransaction? && !ClientOf(s, c).InTransaction?
    ensures Inv(Move(s, c, to))
  {
    hide Valid, ClientOk, Inserts, ExecuteAll;
  }

  /** A step that replaces the committed tables by an extension while no transaction is open. */
  lemma ExtensionKeepsInv(s: State, u: Tables)
    requires Inv(s) && s.open.None? && Valid(u) && Extends(s.tables, u)
    ensures Inv(s.(tables := u))
  {
    ClientsStayOk(s, u);
    hide Valid, ClientOk, Inserts, ExecuteAll, Extends;
  }

  lemma BeginKeepsInv(s: State, c: nat)
    requires Inv(s) && Enabled(s, Begin(c))
    ensures Inv(Apply(s, Begin(c)))
  {
    var client := ClientOf(s, c);
    var all := Inserts(client.entity, client.run);
    assert all[..0] == [];
    assert ExecuteAll(s.tables, all[..0]) == Some(s.tables);
    assert ClientOk(s.tables, InTransaction(client.spec, client.run, client.entity)) by {
      assert ClientOk(s.tables, client);
    }
    hide Valid, ClientOk, Inserts, ExecuteAll;
  }

  /** The open transaction moves on. */
  lemma OpenKeepsInv(s: State, tx: Transaction)
    requires Inv(s) && s.open.Some? && tx.owner == s.open.value.owner && ClientOf(s, tx.owner).InTransaction?
    requires
      var all := Inserts(ClientOf(s, tx.owner).entity, ClientOf(s, tx.owner).run);
      tx.sent <= |all| && ExecuteAll(s.tables, all[..tx.sent]) == Some(tx.staged)
    ensures Inv(s.(open := Some(tx)))
  {
    hide Valid, ClientOk, Inserts, ExecuteAll;
  }

  /** A transaction given up leaves nothing behind. */
  lemma AbortKeepsInv(s: State, c: nat)
    requires Inv(s) && s.open.Some? && s.open.value.owner == c
    ensures Inv(Move(s, c, NotCreated).(open := None))
  {
    assert ClientOk(s.tables, NotCreated);
    hide Valid, ClientOk, Inserts, ExecuteAll;
  }

  lemma SendKeepsInv(s: State, c: nat)
    requires Inv(s) && ClientOf(s, c).InTransaction? && s.open.Some? && s.open.value.owner == c
    requires s.open.value.sent < |Inserts(ClientOf(s, c).entity, ClientOf(s, c).run)|
    ensures Inv(AfterSend(s, c))
  {
    hide Valid, ClientsOk, Inserts, ExecuteAll, Execute;
    var tx := s.open.value;
    var all := Inserts(ClientOf(s, c).entity, ClientOf(s, c).run);
    ExecuteAllOfAppend(s.tables, all[..tx.sent], all[tx.sent]);
    assert all[..tx.sent] + [all[tx.sent]] == all[..tx.sent + 1];
    var next := Execute(tx.staged, all[tx.sent]);
    if next.Some? {
      OpenKeepsInv(s, tx.(staged := next.value, sent := tx.sent + 1));
    } else {
      AbortKeepsInv(s, c);
    }
    hide Inv;
  }

  /** At commit the staged tables are exactly the committed ones plus this run. */
  lemma CommitAddsRun(s: State, c: nat)
    requires Inv(s) && ReadyToCommit(s, c)
    ensures
      var client := ClientOf(s, c);
      && Convertible(client.spec) && Admits(s.tables, client.spec, client.run)
      && s.open.value.staged == AddRun(s.tables, client.spec, client.run)
  {
    var client := ClientOf(s, c);
    var all := Inserts(client.entity, client.run);
    assert ClientOk(s.tables, client);
    assert all[..s.open.value.sent] == all;
    InsertsExecute(s.tables, client.entity, client.spec, client.run);
    hide Valid, Inserts, ExecuteAll, Admits, AddRun;
  }

  lemma CommitKeepsInv(s: State, c: nat)
    requires Inv(s) && ReadyToCommit(s, c)
    ensures Inv(AfterCommit(s, c)) && Extends(s.tables, s.open.value.staged)
  {
    hide Valid, ClientsOk, OpenOk, ClientOk, Inserts, ExecuteAll, AddRun, Admits, Convertible, Extends;
    CommitAddsRun(s, c);
    var client, u := ClientOf(s, c), s.open.value.staged;
    AddRunKeepsValid(s.tables, client.spec, client.run);
    AddRunExtends(s.tables, client.spec, client.run);
    ClientsStayOk(s, u);
    Installed(s, c, client.run, u);
  }

  /** Nobody else is inside a transaction when its owner installs new tables. */
  lemma Installed(s: State, c: nat, run: Run, u: Tables)
    requires OpenOk(s) && s.open.Some? && s.open.value.owner == c && Valid(u)
    requires forall d :: d in s.clients ==> ClientOk(u, s.clients[d])
    ensures Inv(Move(s, c, Created(run)).(tables := u, open := None, submitted := s.submitted + 1))
  {
    assert ClientOk(u, Created(run));
    hide Valid, ClientOk, Inserts, ExecuteAll;
  }

  lemma GiveUpKeepsInv(s: State, c: nat)
    requires Inv(s) && InUse(ClientOf(s, c))
    ensures Inv(Move(s, c, NotCreated).(open := if s.open.Some? && s.open.value.owner == c then None else s.open))
  {
    if s.open.Some? && s.open.value.owner == c {
      AbortKeepsInv(s, c);
    } else {
      assert !ClientOf(s, c).InTransaction? by { hide Valid, ClientsOk, Inserts, ExecuteAll; }
      MoveKeepsInv(s, c, NotCreated);
    }
    hide Inv;
  }

  /** The refs query continues with the refs the whole spec has. */
  lemma QueryRefsKeepsInv(s: State, c: nat, rows: seq<RefRow>)
    requires Inv(s) && Enabled(s, QueryRefs(c, rows))
    ensures Inv(Apply(s, QueryRefs(c, rows)))
  {
    var client := ClientOf(s, c);
    assert ClientOk(s.tables, client);
    SelectedRefs(s.tables, client.row.id, rows);
    hide RefsOf, RefsFrom;
    MoveKeepsInv(s, c, AskingDatasets(client.runId, client.row, RefsOf(rows).value));
    hide Inv, SelectsRefs;
  }

  lemma QueryDatasetsKeepsInv(s: State, c: nat, rows: seq<DatasetRow>)
    requires Inv(s) && Enabled(s, QueryDatasets(c, rows))
    ensures Inv(Apply(s, QueryDatasets(c, rows)))
  {
    var client := ClientOf(s, c);
    assert ClientOk(s.tables, client);
    hide RefsFrom, SelectsDatasets;
    MoveKeepsInv(s, c, AskingParameters(client.runId, client.row, client.refs, rows));
    hide Inv;
  }

  /** The last query completes exactly the stored spec of the run. */
  lemma QueryParametersKeepsInv(s: State, c: nat, rows: seq<ParameterRow>)
    requires Inv(s) && ClientOf(s, c).AskingParameters?
    requires SelectsParameters(s.tables, ClientOf(s, c).row.id, rows)
    ensures Inv(Move(s, c, Answered(ClientOf(s, c), rows)))
  {
    hide SpecOf, SpecOfRun, SelectsDatasets, SelectsParameters, RefsFrom, OpenOk, JoinedRow, Flattens;
    var client := ClientOf(s, c);
    assert ClientOk(s.tables, client) && Valid(s.tables) by { hide Valid; }
    AssembledSpec(s.tables, client, rows);
    assert ClientOk(s.tables, Answered(client, rows)) && Answered(client, rows).Got? by { hide Inv, Valid; }
    hide ClientOk, Answered, Inv;
    MoveKeepsInv(s, c, Answered(client, rows));
  }

  lemma AssembledSpec(t: Tables, client: Client, rows: seq<ParameterRow>)
    requires Valid(t) && client.AskingParameters? && ClientOk(t, client) && SelectsParameters(t, client.row.id, rows)
    ensures SpecOf(SpecEntity(client.row, client.refs, client.datasets, rows)).Some?
    ensures SpecOf(SpecEntity(client.row, client.refs, client.datasets, rows)) == SpecOfRun(t, Uuid.String(client.runId))
  {
    var spec := t.runs[Uuid.String(client.runId)].specId;
    assert client.row == t.specs[spec] && client.row.id == spec;
    SelectedDatasets(t, spec, client.datasets);
    SelectedParameters(t, spec, rows);
    assert Uuid.Parse(client.row.id).Some? && Uuid.Parse(client.row.projectId).Some?;
    hide Valid, RefsFrom, DatasetsFrom, ParametersFrom, DatasetsOf, ParametersOf, SelectsDatasets, SelectsParameters;
  }

  lemma QueryRowKeepsInv(s: State, c: nat)
    requires Inv(s) && Enabled(s, QueryRow(c))
    ensures Inv(Apply(s, QueryRow(c)))
  {
    hide Inv, JoinedRow;
    var runId := ClientOf(s, c).runId;
    var row := JoinedRow(s.tables, runId);
    MoveKeepsInv(s, c, if row.Some? then AskingRefs(runId, row.value) else Missing(runId));
  }

  lemma QueryProjectKeepsInv(s: State, c: nat)
    requires Inv(s) && ClientOf(s, c).AskingProject?
    ensures
      var client := ClientOf(s, c);
      Inv(Move(s, c, if Uuid.String(client.project) in s.tables.projects then AskingRuns(client.project, client.limit)
                     else NoProject(client.project)))
  {
    var client := ClientOf(s, c);
    hide Inv;
    MoveKeepsInv(s, c, if Uuid.String(client.project) in s.tables.projects then AskingRuns(client.project, client.limit)
                       else NoProject(client.project));
  }

  /** The rows of a listing convert, on any ledger that is in order. */
  lemma QueryRunsKeepsInv(s: State, c: nat, rows: seq<RunRow>)
    requires Inv(s) && ClientOf(s, c).AskingRuns?
    requires SelectsRuns(s.tables, Uuid.String(ClientOf(s, c).project), ClientOf(s, c).limit, rows)
    ensures Inv(Move(s, c, AnsweredList(ClientOf(s, c), rows))) && AnsweredList(ClientOf(s, c), rows).Listed?
  {
    hide RunOf, Newer, ClientsOk, OpenOk, ValidSpecs, ValidDatasets, ValidParameters, ValidRefs;
    var client, t := ClientOf(s, c), s.tables;
    forall i | 0 <= i < |rows|
      ensures rows[i].id in RunsOf(t, Uuid.String(client.project)) && t.runs[rows[i].id] == rows[i] && RunOf(rows[i]).Some?
    {
    }
    assert ClientOk(t, AnsweredList(client, rows));
    hide Inv, ClientOk;
    MoveKeepsInv(s, c, AnsweredList(client, rows));
  }

  lemma AddProjectExtends(t: Tables, id: Uuid.Id)
    requires Valid(t)
    ensures Valid(t.(projects := t.projects + {Uuid.String(id)})) && Extends(t, t.(projects := t.projects + {Uuid.String(id)}))
  {
    hide RunOf, SameRows;
    var u := t.(projects := t.projects + {Uuid.String(id)});
    assert Extends(t, u) by { ExtendsItself(t); }
    hide Extends;
    assert ValidSpecs(u) && ValidRuns(u) by { hide ValidDatasets, ValidParameters, ValidRefs; }
    assert ValidDatasets(u) && ValidParameters(u) && ValidRefs(u) by { hide ValidSpecs, ValidRuns; }
    hide ValidSpecs, ValidDatasets, ValidParameters, ValidRefs, ValidRuns;
  }

  /** Steps that prepare a write or ask for a spec change no table. */
  lemma ReaderStep(s: State, l: Label)
    requires Inv(s) && Enabled(s, l)
    requires l.CreateRun? || l.Submit? || l.CheckProject? || l.GetSpec? || l.Return? || l.QueryRow? || l.QueryRefs?
             || l.QueryDatasets? || l.QueryParameters? || l.ListRuns? || l.QueryProject? || l.QueryRuns?
    ensures Inv(Apply(s, l)) && Apply(s, l).tables == s.tables
  {
    hide Inv, Flattens, Answered, AnsweredList, SelectsRefs, SelectsDatasets, SelectsParameters, SelectsRuns, JoinedRow;
    match l
    case CreateRun(c, spec, run, entity) => MoveKeepsInv(s, c, Waiting(spec, run, entity));
    case Submit(c, draft) => MoveKeepsInv(s, c, Checking(draft));
    case CheckProject(c) =>
      var d := ClientOf(s, c).draft;
      MoveKeepsInv(s, c, if Uuid.String(d.projectId) in s.tables.projects then Building(d) else NotCreated);
    case GetSpec(c, runId) => MoveKeepsInv(s, c, AskingRow(runId));
    case QueryRow(c) => QueryRowKeepsInv(s, c);
    case QueryRefs(c, rows) => QueryRefsKeepsInv(s, c, rows);
    case QueryDatasets(c, rows) => QueryDatasetsKeepsInv(s, c, rows);
    case QueryParameters(c, rows) => QueryParametersKeepsInv(s, c, rows);
    case ListRuns(c, project, limit) => MoveKeepsInv(s, c, AskingProject(project, limit));
    case QueryProject(c) => QueryProjectKeepsInv(s, c);
    case QueryRuns(c, rows) => QueryRunsKeepsInv(s, c, rows);
    case Return(c) => MoveKeepsInv(s, c, Idle);
  }

  lemma WriterStep(s: State, l: Label)
    requires Inv(s) && Enabled(s, l) && (l.BuildSpec? || l.Begin? || l.Send? || l.Commit? || l.GiveUp?)
    ensures Inv(Apply(s, l)) && Extends(s.tables, Apply(s, l).tables)
  {
    ExtendsItself(s.tables);
    hide Inv, Extends, Inserts, Execute, Submitted, Convertible, Flattens;
    match l
    case BuildSpec(_, _, _, _, _) => BuildKeepsInv(s, l);
    case Begin(c) => BeginKeepsInv(s, c);
    case Send(c) => SendKeepsInv(s, c);
    case Commit(c) => CommitKeepsInv(s, c);
    case GiveUp(c) => GiveUpKeepsInv(s, c);
  }

  lemma OutsideStep(s: State, l: Label)
    requires Inv(s) && Enabled(s, l) && (l.Reopen? || l.AddProject?)
    ensures Inv(Apply(s, l)) && Extends(s.tables, Apply(s, l).tables)
  {
    hide Valid, ClientsOk, OpenOk, Extends, Migrate;
    if l.Reopen? {
      MigrateExtends(s.tables);
    } else {
      AddProjectExtends(s.tables, l.id);
    }
    hide Inv;
    ExtensionKeepsInv(s, Apply(s, l).tables);
  }

  /** Every step keeps the invariant, and the committed tables only ever grow. */
  lemma StepKeepsInv(s: State, l: Label)
    requires Inv(s) && Enabled(s, l)
    ensures Inv(Apply(s, l)) && Extends(s.tables, Apply(s, l).tables)
  {
    hide Inv, Enabled, Apply, Extends;
    if l.Reopen? || l.AddProject? {
      OutsideStep(s, l);
    } else if l.BuildSpec? || l.Begin? || l.Send? || l.Commit? || l.GiveUp? {
      WriterStep(s, l);
    } else {
      ReaderStep(s, l);
      ExtendsItself(s.tables);
    }
  }

  lemma ExtendsItself(t: Tables)
    ensures Extends(t, t)
  {
  }

  lemma BuildKeepsInv(s: State, l: Label)
    requires Inv(s) && l.BuildSpec? && Enabled(s, l)
    ensures Inv(AfterBuild(s, l))
  {
    var d, next := ClientOf(s, l.c).draft, s.(issued := s.issued + {l.specId, l.runId});
    var spec := Submitted(d, l.specId);
    hide Submitted, Flattens, Convertible;
    assert Inv(next) by { hide Valid, ClientOk, Inserts, ExecuteAll; }
    if spec.Some? && Convertible(spec.value) {
      MoveKeepsInv(next, l.c, Waiting(spec.value, NewWithSpec(l.runId, l.specId, d.projectId, l.now), l.entity));
    } else {
      MoveKeepsInv(next, l.c, NotCreated);
    }
    hide Inv;
  }
}
