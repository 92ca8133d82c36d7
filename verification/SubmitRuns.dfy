/** Laws of ledgers written only through Submit: no collision, no refusal, nothing lost or doubled. */
module SubmitRuns {
  import opened Prelude
  import opened Domain
  import opened Timestamps
  import opened Schema
  import opened Entities
  import opened Numbers
  import opened Ledger
  import opened Queries
  import opened LedgerProtocol
  import opened LedgerRuns
  import opened Finalization
  import opened Phase0
  import Uuid

  predicate InFlight(client: Client) { client.Waiting? || client.InTransaction? }

  // One Submit on its own.

  lemma DefaultsAreNumeric()
    ensures Numeric(LoraDefaults())
  {
    forall key | key in LoraDefaults()
      ensures FormatNumber(LoraDefaults()[key]).Some?
    {
      assert LoraDefaults()[key].Float64? || LoraDefaults()[key].Int?;
    }
    hide LoraDefaults;
  }

  lemma ResolvedIsNumeric(ref: Option<Uuid.Id>)
    requires Registered(Phase0Registry(), ref)
    ensures Numeric(Given(Resolved(Phase0Registry(), ref)).parameters)
  {
    DefaultsAreNumeric();
    hide LoraDefaults, FormatNumber;
  }

  /** A built spec converts exactly when the draft's own parameters are numbers and it names a project. */
  lemma SubmittedConvertsIff(d: Draft, specId: Uuid.Id)
    requires Submitted(d, specId).Some? && specId != Uuid.Nil
    ensures Convertible(Submitted(d, specId).value) <==> Numeric(d.parameters) && d.projectId != Uuid.Nil
  {
    var refs := d.refs;
    ResolvedIsNumeric(refs.trainer);
    ResolvedIsNumeric(refs.resource);
    ResolvedIsNumeric(refs.output);
    var p := ResolvedAll(Phase0Registry(), refs);
    hide FormatNumber, Phase0Registry, Resolved;
    var merged := MergedParameters(d, p);
    assert Submitted(d, specId).value.parameters == merged;
    if Numeric(merged) {
      forall key | key in d.parameters
        ensures FormatNumber(d.parameters[key]).Some?
      {
        assert merged[key] == d.parameters[key];
      }
    }
  }

  lemma RegisteredIsSeeded(t: Tables, category: Category, ref: Option<Uuid.Id>)
    requires Seeded(t) && Registered(Phase0Registry(), ref) && !category.OtherCategory?
    ensures Known(t, category, ref)
  {
    hide LoraOptions;
  }

  /**
   * Across the components: a draft the builder accepts, for an existing project and under fresh
   * identifiers, meets every key of the schema; each accepted preset is one the migration seeded.
   */
  lemma SubmittedIsAdmitted(t: Tables, d: Draft, specId: Uuid.Id, runId: Uuid.Id, now: Instant)
    requires Seeded(t) && Submitted(d, specId).Some? && Uuid.String(d.projectId) in t.projects
    requires Uuid.String(specId) !in t.specs && Uuid.String(runId) !in t.runs
    ensures Admits(t, Submitted(d, specId).value, NewWithSpec(runId, specId, d.projectId, now))
  {
    RegisteredIsSeeded(t, TrainerCategory, d.refs.trainer);
    RegisteredIsSeeded(t, ResourceCategory, d.refs.resource);
    RegisteredIsSeeded(t, OutputCategory, d.refs.output);
    hide Known, Phase0Registry, Seeded, MergedParameters;
  }

  // What a Submit stores, told by its draft.

  predicate IsKnownPreset(ref: Option<Uuid.Id>) {
    ref in {None, Some(Uuid.Nil), Some(Axolotl), Some(Unsloth)}
  }

  predicate KnowsItsPresets(d: Draft) {
    IsKnownPreset(d.refs.trainer) && IsKnownPreset(d.refs.resource) && IsKnownPreset(d.refs.output)
  }

  predicate NamesAPreset(d: Draft) {
    d.refs.trainer !in {None, Some(Uuid.Nil)} || d.refs.resource !in {None, Some(Uuid.Nil)} || d.refs.output !in {None, Some(Uuid.Nil)}
  }

  /** The default texts that the migration seeds for either Phase 0 preset. */
  function SeededDefaults(): map<string, string> {
    map["learning_rate" := "0.0002", "num_epochs" := "3", "max_seq_length" := "4096",
        "lora_r" := "16", "lora_alpha" := "32", "micro_batch_size" := "1"]
  }

  /** The defaults in the code print as the texts the migration seeds. */
  lemma DefaultsAreTheSeededOnes(key: string)
    ensures key in LoraDefaults() <==> key in SeededDefaults()
    ensures key in LoraDefaults() ==> FormatNumber(LoraDefaults()[key]) == Some(SeededDefaults()[key])
  {
    assert Decimal(4) == "4" && Decimal(40) == "40" && Decimal(409) == "409" && Decimal(4096) == "4096";
    assert Decimal(1) == "1" && Decimal(3) == "3" && Decimal(16) == "16" && Decimal(32) == "32";
  }

  /**
   * The spec a draft leads to, as the ledger shows it: every field is the draft's own, references to nothing are
   * absent, the draft's numbers stand as their own texts, and a named preset adds its defaults where the draft is silent.
   */
  ghost predicate StoresDraft(stored: Spec, d: Draft, specId: Uuid.Id) {
    && stored.id == specId && stored.projectId == d.projectId && stored.name == d.name && stored.description == d.description
    && stored.baseModel == d.baseModel && stored.datasets == d.datasets && stored.resources == d.resources
    && SameUnlessNil(stored.refs.trainer, d.refs.trainer) && SameUnlessNil(stored.refs.resource, d.refs.resource)
    && SameUnlessNil(stored.refs.output, d.refs.output)
    && stored.parameters.Keys == d.parameters.Keys + (if NamesAPreset(d) then SeededDefaults().Keys else {})
    && (forall key :: key in d.parameters ==> ReadsBackAs(stored.parameters, key, d.parameters[key]))
    && (forall key :: key in stored.parameters && key !in d.parameters ==>
          key in SeededDefaults() && stored.parameters[key] == JsonNumber(SeededDefaults()[key]))
  }

  lemma RegisteredIffKnown(ref: Option<Uuid.Id>)
    ensures Registered(Phase0Registry(), ref) <==> IsKnownPreset(ref)
  {
    hide LoraOptions;
  }

  lemma PresetParameters(ref: Option<Uuid.Id>)
    requires Registered(Phase0Registry(), ref)
    ensures Given(Resolved(Phase0Registry(), ref)) == if IsSet(ref) then LoraOptions() else NoOptions
  {
    hide LoraDefaults;
  }

  /** A draft is built exactly if it knows its presets, and then into this. */
  lemma SubmittedIs(d: Draft, specId: Uuid.Id)
    ensures Submitted(d, specId).Some? <==> KnowsItsPresets(d)
    ensures KnowsItsPresets(d) ==>
              Submitted(d, specId) ==
              Some(Spec(specId, d.projectId, d.name, d.description, d.refs, d.baseModel, d.datasets, d.resources,
                        (if NamesAPreset(d) then LoraDefaults() else map[]) + d.parameters))
  {
    var refs := d.refs;
    RegisteredIffKnown(refs.trainer);
    RegisteredIffKnown(refs.resource);
    RegisteredIffKnown(refs.output);
    hide Phase0Registry, IsKnownPreset, Resolved;
    if KnowsItsPresets(d) {
      PresetParameters(refs.trainer);
      PresetParameters(refs.resource);
      PresetParameters(refs.output);
      hide LoraDefaults, Registered;
      MergedDefaults(d, ResolvedAll(Phase0Registry(), refs));
    }
  }

  lemma NamesOneIff(ref: Option<Uuid.Id>)
    ensures ref !in {None, Some(Uuid.Nil)} <==> IsSet(ref)
  {
  }

  lemma MergedDefaults(d: Draft, p: Presets)
    requires Given(p.trainer) == (if IsSet(d.refs.trainer) then LoraOptions() else NoOptions)
    requires Given(p.resource) == (if IsSet(d.refs.resource) then LoraOptions() else NoOptions)
    requires Given(p.output) == (if IsSet(d.refs.output) then LoraOptions() else NoOptions)
    ensures MergedParameters(d, p) == (if NamesAPreset(d) then LoraDefaults() else map[]) + d.parameters
  {
    hide LoraDefaults, Given;
    var refs := d.refs;
    NamesOneIff(refs.trainer);
    NamesOneIff(refs.resource);
    NamesOneIff(refs.output);
    assert NamesAPreset(d) <==> IsSet(refs.trainer) || IsSet(refs.resource) || IsSet(refs.output);
    hide NamesAPreset;
    var defaults := LoraDefaults();
    var nothing: map<string, Value> := map[];
    assert map[] + defaults == defaults && defaults + map[] == defaults && defaults + defaults == defaults;
    assert nothing + nothing == nothing;
  }

  lemma SubmittedStoresDraft(d: Draft, specId: Uuid.Id)
    requires Submitted(d, specId).Some? && Convertible(Submitted(d, specId).value)
    ensures StoresDraft(Normal(Submitted(d, specId).value), d, specId)
  {
    hide Submitted, KnowsItsPresets, NamesAPreset, Normal, Convertible, LoraDefaults, StoresDraft, ReadsBackAs;
    var spec := Submitted(d, specId).value;
    SubmittedIs(d, specId);
    NormalReadsBack(spec);
    assert Normal(spec).parameters.Keys == spec.parameters.Keys;
    hide ReadsBack;
    forall key | key in spec.parameters && key !in d.parameters
      ensures key in SeededDefaults() && Normal(spec).parameters[key] == JsonNumber(SeededDefaults()[key])
    {
      assert spec.parameters[key] == LoraDefaults()[key];
      DefaultReadsBack(spec, key);
    }
    hide SeededDefaults;
    FieldsTell(Normal(spec), spec, d, specId);
  }

  lemma DefaultReadsBack(spec: Spec, key: string)
    requires Convertible(spec) && key in spec.parameters && key in LoraDefaults() && spec.parameters[key] == LoraDefaults()[key]
    ensures key in SeededDefaults() && key in Normal(spec).parameters
    ensures Normal(spec).parameters[key] == JsonNumber(SeededDefaults()[key])
  {
    DefaultsAreTheSeededOnes(key);
    hide FormatNumber, LoraDefaults, SeededDefaults;
  }

  lemma FieldsTell(stored: Spec, spec: Spec, d: Draft, specId: Uuid.Id)
    requires ReadsBack(stored, spec)
    requires spec == Spec(specId, d.projectId, d.name, d.description, d.refs, d.baseModel, d.datasets, d.resources,
                          (if NamesAPreset(d) then LoraDefaults() else map[]) + d.parameters)
    requires forall key :: key in spec.parameters && key !in d.parameters ==>
               key in SeededDefaults() && stored.parameters[key] == JsonNumber(SeededDefaults()[key])
    ensures StoresDraft(stored, d, specId)
  {
    hide NamesAPreset, LoraDefaults, SeededDefaults, ReadsBackAs, SameUnlessNil;
    DefaultKeys();
    forall key | key in d.parameters
      ensures ReadsBackAs(stored.parameters, key, d.parameters[key])
    {
      assert spec.parameters[key] == d.parameters[key];
    }
  }

  lemma DefaultKeys()
    ensures LoraDefaults().Keys == SeededDefaults().Keys
  {
    hide FormatNumber;
    forall key
      ensures key in LoraDefaults() <==> key in SeededDefaults()
    {
      DefaultsAreTheSeededOnes(key);
    }
    hide LoraDefaults, SeededDefaults;
  }

  /** The run a Submit creates. */
  function QueuedRun(runId: Uuid.Id, specId: Uuid.Id, projectId: Uuid.Id, now: Instant): Run {
    Run(runId, projectId, specId, None, LifecycleState(Queued, None, now, None, None))
  }

  /** A draft that can be submitted to an existing project. */
  predicate IsSubmittable(d: Draft) {
    KnowsItsPresets(d) && AllNumbers(d.parameters) && d.projectId != Uuid.Nil
  }

  /** Building in an interleaved Submit: what is then waiting to be written will read back as the draft says. */
  lemma BuiltStoresDraft(s: State, l: Label)
    requires l.BuildSpec? && Enabled(s, l)
    ensures
      var d, client := ClientOf(s, l.c).draft, ClientOf(AfterBuild(s, l), l.c);
      if IsSubmittable(d) then
        && client.Waiting? && StoresDraft(Normal(client.spec), d, l.specId)
        && client.spec.id == l.specId && client.run == QueuedRun(l.runId, l.specId, d.projectId, l.now)
      else client.NotCreated?
  {
    var d := ClientOf(s, l.c).draft;
    SubmittedIs(d, l.specId);
    NumericIff(d.parameters);
    hide StoresDraft, Normal, Flattens, KnowsItsPresets, AllNumbers, Numeric, Submitted, LoraDefaults, SeededDefaults, NamesAPreset;
    if KnowsItsPresets(d) {
      SubmittedConvertsIff(d, l.specId);
      if IsSubmittable(d) {
        SubmittedStoresDraft(d, l.specId);
      }
    }
    hide Convertible;
  }

  // Preset refs and the categories of their presets.

  /** The presets table as the migration fills it. */
  predicate HasPhase0Presets(t: Tables) {
    t.presets == Migrate(EmptyTables).presets
  }

  lemma Phase0PresetsAreTrainers(t: Tables, id: Uuid.Text)
    requires HasPhase0Presets(t) && id in t.presets
    ensures t.presets[id] == TrainerCategory
  {
  }

  /** A stored ref names a preset of its own category if and only if it is a trainer ref. */
  lemma RefCategoryIff(t: Tables, k: (Uuid.Text, Category))
    requires ValidRefs(t) && HasPhase0Presets(t) && k in t.presetRefs
    ensures t.presets[t.presetRefs[k].presetId] == t.presetRefs[k].category <==> k.1 == TrainerCategory
  {
    Phase0PresetsAreTrainers(t, t.presetRefs[k].presetId);
    hide HasPhase0Presets;
  }

  predicate OfItsCategory(t: Tables, category: Category, ref: Option<Uuid.Id>) {
    IsSet(ref) ==> Uuid.String(ref.value) in t.presets && t.presets[Uuid.String(ref.value)] == category
  }

  /** A draft the builder accepts names presets of the right categories if and only if it sets only the trainer ref. */
  lemma DraftCategoriesIff(t: Tables, refs: Refs)
    requires Seeded(t) && HasPhase0Presets(t) && AllRegistered(Phase0Registry(), refs)
    ensures OfItsCategory(t, TrainerCategory, refs.trainer) && OfItsCategory(t, ResourceCategory, refs.resource)
            && OfItsCategory(t, OutputCategory, refs.output)
        <==> !IsSet(refs.resource) && !IsSet(refs.output)
  {
    RegisteredIsSeeded(t, TrainerCategory, refs.trainer);
    RegisteredIsSeeded(t, ResourceCategory, refs.resource);
    RegisteredIsSeeded(t, OutputCategory, refs.output);
    if IsSet(refs.trainer) {
      Phase0PresetsAreTrainers(t, Uuid.String(refs.trainer.value));
    }
    if IsSet(refs.resource) {
      Phase0PresetsAreTrainers(t, Uuid.String(refs.resource.value));
    }
    if IsSet(refs.output) {
      Phase0PresetsAreTrainers(t, Uuid.String(refs.output.value));
    }
    hide HasPhase0Presets, Seeded, Phase0Registry;
  }

  /** A draft that names nothing but the Axolotl trainer preset, as its resource preset. */
  function TrainerAsResource(project: Uuid.Id): Draft {
    Draft(Uuid.Nil, project, "", "", Refs(None, Some(Axolotl), None), "", [], Resources(0, 0, 0, 0), map[])
  }

  /** A migrated ledger with one project and no specs or runs. */
  function WithProject(project: Uuid.Id): Tables {
    Migrate(EmptyTables).(projects := {Uuid.String(project)})
  }

  /** Such a draft is built, converts, and meets every key of the schema; the ref it stores is not of its category. */
  lemma TrainerPresetAsResource(project: Uuid.Id, specId: Uuid.Id, runId: Uuid.Id, now: Instant)
    requires project != Uuid.Nil && specId != Uuid.Nil
    ensures
      var t, spec := WithProject(project), Submitted(TrainerAsResource(project), specId);
      && spec.Some? && Convertible(spec.value) && spec.value.refs.resource == Some(Axolotl)
      && Admits(t, spec.value, NewWithSpec(runId, specId, project, now))
      && Uuid.String(Axolotl) in t.presets && t.presets[Uuid.String(Axolotl)] == TrainerCategory
  {
    var t, d := WithProject(project), TrainerAsResource(project);
    MigrateIsIdempotent(EmptyTables);
    assert Seeded(t);
    Phase0PresetsAreTrainers(t, Uuid.String(Axolotl));
    assert AllRegistered(Phase0Registry(), d.refs) by { assert Axolotl in Phase0Registry(); }
    hide Phase0Registry, Admits, Convertible, Seeded;
    SubmittedConvertsIff(d, specId);
    SubmittedIsAdmitted(t, d, specId, runId, now);
  }

  // Interleaved Submits.

  /** A stored or pending run as Submit makes it. */
  predicate FreshRun(spec: Spec, run: Run) {
    run == NewWithSpec(run.id, spec.id, spec.projectId, run.lifecycle.createdAt)
  }

  /** Pending writes hold identifiers of their own and could be executed on the committed tables. */
  ghost predicate PendingOk(s: State) {
    && (forall c :: c in s.clients && InFlight(s.clients[c]) ==> PendingClientOk(s.tables, s.issued, s.clients[c]))
    && (forall c, d :: c in s.clients && d in s.clients && c != d && InFlight(s.clients[c]) && InFlight(s.clients[d]) ==>
          Apart(s.clients[c], s.clients[d]))
    && (forall c :: c in s.clients && s.clients[c].Building? ==>
          Uuid.String(s.clients[c].draft.projectId) in s.tables.projects)
  }

  ghost predicate PendingClientOk(t: Tables, issued: set<Uuid.Id>, client: Client)
    requires InFlight(client)
  {
    && {client.spec.id, client.run.id} <= issued && FreshRun(client.spec, client.run)
    && Convertible(client.spec) && Admits(t, client.spec, client.run)
  }

  predicate Apart(a: Client, b: Client)
    requires InFlight(a) && InFlight(b)
  {
    a.spec.id != b.spec.id && a.run.id != b.run.id
  }

  predicate IssuedText(issued: set<Uuid.Id>, id: Uuid.Text) {
    id.Canonical? && id.id in issued
  }

  /** A stored run owns a spec of its project and is queued, with no reason and no further times. */
  predicate OwnsSpec(t: Tables, row: RunRow) {
    && row.specId in t.specs && t.specs[row.specId].projectId == row.projectId
    && row.status == Queued && row.failureReason.None? && row.startedAt.None? && row.finishedAt.None?
    && row.idempotencyKey.None?
  }

  /** Every row stems from a Submit, and no two runs share a spec. */
  ghost predicate RowsOk(t: Tables, issued: set<Uuid.Id>) {
    && (forall id :: id in t.specs ==> IssuedText(issued, id))
    && (forall id :: id in t.runs ==> IssuedText(issued, id) && OwnsSpec(t, t.runs[id]))
    && (forall q, r :: q in t.runs && r in t.runs && q != r ==> t.runs[q].specId != t.runs[r].specId)
  }

  /** The ledger rows are exactly those of the successful Submits. */
  ghost predicate Conserved(s: State) {
    Seeded(s.tables) && |s.tables.specs| == |s.tables.runs| == s.submitted && RowsOk(s.tables, s.issued)
  }

  ghost predicate SubmitInv(s: State) {
    Inv(s) && PendingOk(s) && Conserved(s)
  }

  /** A step that changes neither tables nor identifiers and takes its client out of the pending ones. */
  lemma QuietMove(s: State, c: nat, to: Client, open: Option<Transaction>)
    requires PendingOk(s) && Conserved(s) && !InFlight(to)
    requires to.Building? ==> Uuid.String(to.draft.projectId) in s.tables.projects
    ensures PendingOk(Move(s, c, to).(open := open)) && Conserved(Move(s, c, to).(open := open))
  {
    hide PendingClientOk, Apart, RowsOk, Seeded;
  }

  lemma PendingBegin(s: State, c: nat)
    requires PendingOk(s) && Conserved(s) && Enabled(s, Begin(c))
    ensures PendingOk(Apply(s, Begin(c))) && Conserved(Apply(s, Begin(c)))
  {
    hide OwnsSpec, IssuedText, Seeded, Convertible, Admits;
  }

  lemma PendingBuild(s: State, l: Label)
    requires PendingOk(s) && Conserved(s) && l.BuildSpec? && Enabled(s, l)
    ensures PendingOk(AfterBuild(s, l)) && Conserved(AfterBuild(s, l))
  {
    var d := ClientOf(s, l.c).draft;
    var spec := Submitted(d, l.specId);
    var next := s.(issued := s.issued + {l.specId, l.runId});
    MoreIssued(s, next.issued);
    if spec.Some? && Convertible(spec.value) {
      assert Uuid.String(l.specId) !in s.tables.specs && Uuid.String(l.runId) !in s.tables.runs;
      SubmittedIsAdmitted(s.tables, d, l.specId, l.runId, l.now);
      Admitted(next, s.issued, l.c, spec.value, NewWithSpec(l.runId, l.specId, d.projectId, l.now), l.entity);
    } else {
      QuietMove(next, l.c, NotCreated, next.open);
    }
    hide PendingOk, Conserved, Submitted, Convertible;
  }

  lemma MoreIssued(s: State, issued: set<Uuid.Id>)
    requires PendingOk(s) && Conserved(s) && s.issued <= issued
    ensures PendingOk(s.(issued := issued)) && Conserved(s.(issued := issued))
  {
    hide Convertible, Admits, OwnsSpec, Seeded, FreshRun;
  }

  /** A newly built write joins the pending ones; its identifiers were issued to nobody before. */
  lemma Admitted(s: State, before: set<Uuid.Id>, c: nat, spec: Spec, run: Run, entity: SpecEntity)
    requires PendingOk(s) && Conserved(s) && PendingClientOk(s.tables, s.issued, Waiting(spec, run, entity))
    requires spec.id !in before && run.id !in before
    requires forall d :: d in s.clients && InFlight(s.clients[d]) ==> {s.clients[d].spec.id, s.clients[d].run.id} <= before
    ensures PendingOk(Move(s, c, Waiting(spec, run, entity))) && Conserved(Move(s, c, Waiting(spec, run, entity)))
  {
    hide PendingClientOk, OwnsSpec, IssuedText, Seeded;
  }

  lemma PendingExecutes(s: State, c: nat)
    requires SubmitInv(s) && ClientOf(s, c).InTransaction?
    ensures ExecuteAll(s.tables, Inserts(ClientOf(s, c).entity, ClientOf(s, c).run)).Some?
  {
    var client := ClientOf(s, c);
    assert ClientOk(s.tables, client) && PendingClientOk(s.tables, s.issued, client) && Valid(s.tables);
    hide SubmitInv, ClientOf, Valid, Inserts, ExecuteAll, Admits, AddRun, Flattens, Convertible;
    InsertsExecute(s.tables, client.entity, client.spec, client.run);
  }

  /** A transaction that succeeds as a whole has no refused statement. */
  lemma NextExecutes(t: Tables, all: seq<Statement>, sent: nat, staged: Tables)
    requires sent < |all| && ExecuteAll(t, all).Some? && ExecuteAll(t, all[..sent]) == Some(staged)
    ensures Execute(staged, all[sent]).Some?
  {
    ExecuteAllOfAppend(t, all[..sent], all[sent]);
    assert all[..sent] + [all[sent]] == all[..sent + 1];
    hide Execute, ExecuteAll;
    if ExecuteAll(t, all[..sent + 1]).None? {
      RefusalIsFinal(t, all[..sent + 1], all);
    }
  }

  /** A pending write can always go on: no statement a Submit sends is ever refused. */
  lemma SubmitIsNeverRefused(s: State, c: nat)
    requires SubmitInv(s) && ClientOf(s, c).InTransaction? && s.open.Some? && s.open.value.owner == c
    requires s.open.value.sent < |Inserts(ClientOf(s, c).entity, ClientOf(s, c).run)|
    ensures AfterSend(s, c) == s.(open := AfterSend(s, c).open)
    ensures AfterSend(s, c).open.Some? && AfterSend(s, c).open.value.owner == c
  {
    hide Inserts, ExecuteAll, Execute, PendingOk, Conserved, Valid, ClientsOk;
    PendingExecutes(s, c);
    NextExecutes(s.tables, Inserts(ClientOf(s, c).entity, ClientOf(s, c).run), s.open.value.sent, s.open.value.staged);
  }

  /** Tables that differ only in more projects, categories or presets serve the pending writes as well. */
  lemma PendingGrows(s: State, u: Tables)
    requires PendingOk(s) && Conserved(s) && u.specs == s.tables.specs && u.runs == s.tables.runs
    requires s.tables.projects <= u.projects && s.tables.categories <= u.categories && s.tables.presets.Keys <= u.presets.Keys
    ensures PendingOk(s.(tables := u)) && Conserved(s.(tables := u))
  {
    hide Convertible, FreshRun, Apart, IssuedText;
  }

  lemma AdmitsBesides(t: Tables, spec: Spec, run: Run, other: Spec, otherRun: Run)
    requires Convertible(spec) && FreshRun(other, otherRun) && Admits(t, other, otherRun)
    requires spec.id != other.id && run.id != otherRun.id
    ensures Admits(AddRun(t, spec, run), other, otherRun)
  {
    hide Numeric, ParameterEntries, DatasetEntries, RefEntries, SpecRowOf, RunRowOf, Convertible;
  }

  lemma OtherStaysPending(s: State, c: nat, d: nat)
    requires PendingOk(s) && ClientOf(s, c).InTransaction? && Convertible(ClientOf(s, c).spec)
    requires d in s.clients && d != c && InFlight(s.clients[d])
    ensures PendingClientOk(AddRun(s.tables, ClientOf(s, c).spec, ClientOf(s, c).run), s.issued, s.clients[d])
  {
    hide AddRun, Convertible, PendingClientOk;
    assert Apart(ClientOf(s, c), s.clients[d]) && PendingClientOk(s.tables, s.issued, s.clients[d]);
    hide PendingOk;
    StaysPending(s.tables, s.issued, ClientOf(s, c), s.clients[d]);
  }

  lemma InstallingKeepsPending(s: State, c: nat, u: Tables)
    requires PendingOk(s) && ClientOf(s, c).InTransaction? && u.projects == s.tables.projects
    requires forall d :: d in s.clients && d != c && InFlight(s.clients[d]) ==> PendingClientOk(u, s.issued, s.clients[d])
    ensures PendingOk(Installing(s, c, u))
  {
    hide PendingClientOk, Apart;
  }

  /** The writer leaves the pending ones, and takes its identifiers from none of them. */
  lemma OthersStayPending(s: State, c: nat, u: Tables)
    requires PendingOk(s) && ClientOf(s, c).InTransaction? && Convertible(ClientOf(s, c).spec)
    requires u == AddRun(s.tables, ClientOf(s, c).spec, ClientOf(s, c).run)
    ensures PendingOk(Installing(s, c, u))
  {
    assert u.projects == s.tables.projects;
    hide PendingClientOk, AddRun, Convertible, PendingOk;
    forall d | d in s.clients && d != c && InFlight(s.clients[d])
      ensures PendingClientOk(u, s.issued, s.clients[d])
    {
      OtherStaysPending(s, c, d);
    }
    InstallingKeepsPending(s, c, u);
  }

  lemma StaysPending(t: Tables, issued: set<Uuid.Id>, client: Client, other: Client)
    requires client.InTransaction? && Convertible(client.spec)
    requires InFlight(other) && PendingClientOk(t, issued, other) && Apart(client, other)
    ensures PendingClientOk(AddRun(t, client.spec, client.run), issued, other)
  {
    hide Admits, AddRun, Convertible, FreshRun;
    AdmitsBesides(t, client.spec, client.run, other.spec, other.run);
  }

  function Installing(s: State, c: nat, u: Tables): State
    requires ClientOf(s, c).InTransaction?
  {
    Move(s, c, Created(ClientOf(s, c).run)).(tables := u, open := None, submitted := s.submitted + 1)
  }

  /** One more spec, one more run, and they belong to each other. */
  lemma CommitConserves(s: State, c: nat, u: Tables)
    requires Conserved(s) && ValidRuns(s.tables)
    requires ClientOf(s, c).InTransaction? && PendingClientOk(s.tables, s.issued, ClientOf(s, c))
    requires u == AddRun(s.tables, ClientOf(s, c).spec, ClientOf(s, c).run)
    ensures Conserved(Installing(s, c, u))
  {
    var client := ClientOf(s, c);
    NewRowsBelongTogether(s.tables, client.spec, client.run);
    assert u.categories == s.tables.categories && u.presets == s.tables.presets && Seeded(u);
    assert client.spec.id in s.issued && client.run.id in s.issued;
    hide AddRun, PendingClientOk, ValidRuns, Seeded, RowsOk, OwnsSpec;
    OneMoreRow(s.tables, u, s.issued, Uuid.String(client.spec.id), Uuid.String(client.run.id));
  }

  lemma OneMoreRow(t: Tables, u: Tables, issued: set<Uuid.Id>, specId: Uuid.Text, runId: Uuid.Text)
    requires RowsOk(t, issued) && ValidRuns(t) && IssuedText(issued, specId) && IssuedText(issued, runId)
    requires specId !in t.specs && runId !in t.runs && specId in u.specs && runId in u.runs
    requires u.specs == t.specs[specId := u.specs[specId]] && u.runs == t.runs[runId := u.runs[runId]]
    requires u.runs[runId].specId == specId && OwnsSpec(u, u.runs[runId])
    ensures RowsOk(u, issued)
  {
    assert forall id :: id in t.runs ==> t.runs[id].specId in t.specs;
    hide ValidRuns, IssuedText;
  }

  lemma NewRowsBelongTogether(t: Tables, spec: Spec, run: Run)
    requires Convertible(spec) && FreshRun(spec, run) && Admits(t, spec, run)
    ensures
      var u, specId, runId := AddRun(t, spec, run), Uuid.String(spec.id), Uuid.String(run.id);
      && specId !in t.specs && runId !in t.runs && specId in u.specs && runId in u.runs
      && u.specs == t.specs[specId := u.specs[specId]] && u.runs == t.runs[runId := u.runs[runId]]
      && u.runs[runId].specId == specId && OwnsSpec(u, u.runs[runId])
  {
    hide ParameterEntries, DatasetEntries, RefEntries, Numeric;
  }

  lemma PendingCommit(s: State, c: nat)
    requires SubmitInv(s) && ReadyToCommit(s, c)
    ensures PendingOk(AfterCommit(s, c)) && Conserved(AfterCommit(s, c))
  {
    var client, u := ClientOf(s, c), s.open.value.staged;
    assert PendingClientOk(s.tables, s.issued, client) && Valid(s.tables) && ValidRuns(s.tables);
    hide PendingOk, Conserved, PendingClientOk, Admits, AddRun, Inserts, ValidRuns;
    CommitAddsRun(s, c);
    hide Inv, Valid, Numeric;
    OthersStayPending(s, c, u);
    CommitConserves(s, c, u);
  }

  /** Steps that leave the tables, the identifiers and the pending writes alone. */
  predicate IsQuiet(l: Label) {
    !l.CreateRun? && !l.BuildSpec? && !l.Begin? && !l.Send? && !l.Commit? && !l.Reopen? && !l.AddProject?
  }

  lemma QuietStep(s: State, l: Label)
    requires PendingOk(s) && Conserved(s) && Enabled(s, l) && IsQuiet(l)
    ensures PendingOk(Apply(s, l)) && Conserved(Apply(s, l))
  {
    hide PendingOk, Conserved, RefsOf, SpecOf, JoinedRow, Inserts;
    var after := Apply(s, l);
    var to := ClientOf(after, l.c);
    assert after == Move(s, l.c, to).(open := after.open);
    assert !InFlight(to) && (to.Building? ==> Uuid.String(to.draft.projectId) in s.tables.projects);
    hide Enabled, Apply;
    QuietMove(s, l.c, to, after.open);
  }

  lemma SendStep(s: State, l: Label)
    requires SubmitInv(s) && l.Send? && Enabled(s, l)
    ensures PendingOk(Apply(s, l)) && Conserved(Apply(s, l))
  {
    hide Inv, AfterSend, Inserts, PendingClientOk, Apart, RowsOk, Seeded;
    SubmitIsNeverRefused(s, l.c);
  }

  lemma WriterStep(s: State, l: Label)
    requires SubmitInv(s) && (l.BuildSpec? || l.Begin? || l.Commit?) && Enabled(s, l)
    ensures PendingOk(Apply(s, l)) && Conserved(Apply(s, l))
  {
    hide Inv, PendingOk, Conserved, AfterCommit, AfterBuild, Submitted, Flattens, Inserts;
    if l.BuildSpec? {
      PendingBuild(s, l);
    } else if l.Begin? {
      PendingBegin(s, l.c);
    } else {
      PendingCommit(s, l.c);
    }
  }

  lemma OutsideStep(s: State, l: Label)
    requires SubmitInv(s) && (l.Reopen? || l.AddProject?) && Enabled(s, l)
    ensures PendingOk(Apply(s, l)) && Conserved(Apply(s, l))
  {
    hide Inv, PendingOk, Conserved, Migrate;
    MigrateKeepsLedgerRows(s.tables);
    PendingGrows(s, Apply(s, l).tables);
  }

  /** Every step of every client, migrations included, keeps the ledger conserved. */
  lemma SubmitStepKeepsInv(s: State, l: Label)
    requires SubmitInv(s) && Enabled(s, l) && !l.CreateRun?
    ensures SubmitInv(Apply(s, l))
  {
    hide Enabled, Apply, Inv, Extends, PendingOk, Conserved;
    StepKeepsInv(s, l);
    if l.Send? {
      SendStep(s, l);
    } else if l.BuildSpec? || l.Begin? || l.Commit? {
      WriterStep(s, l);
    } else if l.Reopen? || l.AddProject? {
      OutsideStep(s, l);
    } else {
      QuietStep(s, l);
    }
  }

  // Whole runs.

  /** A run in which every write comes from a Submit, on a seeded ledger that has no spec and no run yet. */
  ghost predicate IsSubmitRun(states: seq<State>, labels: seq<Label>) {
    && IsRun(states, labels) && (forall i :: 0 <= i < |labels| ==> !labels[i].CreateRun?)
    && Seeded(states[0].tables) && states[0].tables.specs == map[] && states[0].tables.runs == map[]
    && states[0].submitted == 0
  }

  /** A ledger that was just opened for the first time is such a start. */
  lemma NewLedgerIsAStart(issued: set<Uuid.Id>)
    ensures IsSubmitRun([State(Migrate(EmptyTables), None, map[], issued, 0)], [])
  {
    MigrateIsIdempotent(EmptyTables);
    MigrateKeepsLedgerRows(EmptyTables);
    hide Migrate, Seeded;
  }

  /** The successful Submits among the first `n` steps. */
  function Commits(labels: seq<Label>, n: nat): nat
    requires n <= |labels|
  {
    if n == 0 then 0 else Commits(labels, n - 1) + if labels[n - 1].Commit? then 1 else 0
  }

  lemma SubmitStartKeepsInv(s: State)
    requires Starts(s) && Seeded(s.tables) && s.tables.specs == map[] && s.tables.runs == map[] && s.submitted == 0
    ensures SubmitInv(s)
  {
    StartKeepsInv(s);
    hide Inv, Seeded, Valid;
  }

  lemma {:induction false} SubmitRunKeepsInv(states: seq<State>, labels: seq<Label>, n: nat)
    requires IsSubmitRun(states, labels) && n < |states|
    ensures SubmitInv(states[n]) && states[n].submitted == Commits(labels, n)
  {
    hide SubmitInv, Enabled, Apply, Starts, Seeded;
    if n == 0 {
      SubmitStartKeepsInv(states[0]);
    } else {
      SubmitRunKeepsInv(states, labels, n - 1);
      assert StepsTo(states, labels, n - 1);
      SubmitStepKeepsInv(states[n - 1], labels[n - 1]);
      CountsCommits(states[n - 1], labels[n - 1]);
    }
  }

  lemma CountsCommits(s: State, l: Label)
    requires Enabled(s, l)
    ensures Apply(s, l).submitted == s.submitted + if l.Commit? then 1 else 0
  {
    hide Flattens, Inserts, Execute, Migrate, Submitted, Convertible, RefsOf, Answered, JoinedRow;
  }

  /**
   * Conservation: at every moment there are exactly as many specs and runs as Submits succeeded,
   * every run owns its own spec of the same project, and it is queued with nothing else filled in.
   */
  lemma SubmitsAreConserved(states: seq<State>, labels: seq<Label>, n: nat)
    requires IsSubmitRun(states, labels) && n < |states|
    ensures var t := states[n].tables;
      && |t.specs| == |t.runs| == Commits(labels, n)
      && (forall id :: id in t.runs ==> OwnsSpec(t, t.runs[id]))
      && (forall q, r :: q in t.runs && r in t.runs && q != r ==> t.runs[q].specId != t.runs[r].specId)
  {
    SubmitRunKeepsInv(states, labels, n);
    hide IsSubmitRun, Inv, PendingOk, OwnsSpec, Seeded;
  }

  /** No step of such a run is a refused statement: a Submit that reaches its transaction can always commit. */
  lemma NoSubmitIsRefused(states: seq<State>, labels: seq<Label>, n: nat, c: nat)
    requires IsSubmitRun(states, labels) && n < |labels| && labels[n] == Send(c)
    ensures states[n + 1].open.Some? && states[n + 1].open.value.owner == c && ClientOf(states[n + 1], c).InTransaction?
  {
    SubmitRunKeepsInv(states, labels, n);
    assert StepsTo(states, labels, n);
    SubmitIsNeverRefused(states[n], c);
    hide SubmitInv, IsSubmitRun, Inserts, Execute;
  }

  /** While a write is under way, what it will write does not change. */
  lemma PendingStaysTheSame(s: State, l: Label, c: nat)
    requires Enabled(s, l) && InFlight(ClientOf(s, c)) && InFlight(ClientOf(Apply(s, l), c))
    ensures ClientOf(Apply(s, l), c).spec == ClientOf(s, c).spec && ClientOf(Apply(s, l), c).run == ClientOf(s, c).run
  {
    hide Flattens, Inserts, Execute, Migrate, Submitted, Convertible, RefsOf, Answered, AnsweredList, JoinedRow;
    hide SelectsRefs, SelectsDatasets, SelectsParameters, SelectsRuns;
  }

  lemma {:induction false} PendingSince(states: seq<State>, labels: seq<Label>, b: nat, i: nat, c: nat)
    requires IsRun(states, labels) && b < i < |states| && forall m :: b < m <= i ==> InFlight(ClientOf(states[m], c))
    requires InFlight(ClientOf(states[b + 1], c)) && InFlight(ClientOf(states[i], c))
    ensures ClientOf(states[i], c).spec == ClientOf(states[b + 1], c).spec
    ensures ClientOf(states[i], c).run == ClientOf(states[b + 1], c).run
  {
    hide Starts, Enabled, Apply;
    if i > b + 1 {
      PendingSince(states, labels, b, i - 1, c);
      assert StepsTo(states, labels, i - 1);
      PendingStaysTheSame(states[i - 1], labels[i - 1], c);
    }
  }

  /**
   * From draft to answer: a Submit builds at step `b` and commits at step `i`; whoever asks for its run and gets an
   * answer, at any later time and however everything interleaves, is told what the draft says.
   */
  lemma DraftsAreAnswered(states: seq<State>, labels: seq<Label>, b: nat, i: nat, j: nat, writer: nat, reader: nat)
    requires IsRun(states, labels) && b < i < j < |states| && labels[b].BuildSpec? && labels[b].c == writer
    requires forall m :: b < m <= i ==> InFlight(ClientOf(states[m], writer))
    requires ClientOf(states[b], writer).Building?
    requires labels[i] == Commit(writer)
    requires ClientOf(states[j], reader).Got? && ClientOf(states[j], reader).runId == labels[b].runId
    ensures StoresDraft(ClientOf(states[j], reader).answer, ClientOf(states[b], writer).draft, labels[b].specId)
  {
    hide StoresDraft, Normal, AfterBuild, IsSubmittable, Starts, Flattens, Submitted, Inserts;
    assert StepsTo(states, labels, b) && StepsTo(states, labels, i);
    assert ClientOf(states[i], writer).InTransaction?;
    assert states[b + 1] == AfterBuild(states[b], labels[b]) && Enabled(states[b], labels[b]);
    hide Enabled, Apply, StepsTo;
    BuiltStoresDraft(states[b], labels[b]);
    PendingSince(states, labels, b, i, writer);
    GetSpecReturnsTheCommittedSpec(states, labels, i, j, writer, reader);
  }
}
