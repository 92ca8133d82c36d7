/** The run service: checking the project, building the spec and storing it with a queued run. */
module Service {
  import opened Prelude
  import opened Domain
  import opened Timestamps
  import opened Numbers
  import opened Schema
  import opened Entities
  import opened Ledger
  import opened Repository
  import opened SubmitRuns
  import opened LedgerProtocol
  import Finalization
  import SpecBuilder
  import Uuid

  datatype SubmitError = NilDraft | ProjectNotFound | Unchecked | PresetNotFound | Cancelled | NotStored(error: CreateError)

  predicate InProject(t: Tables, d: Draft) {
    Uuid.Canonical(d.projectId) in t.projects
  }

  lemma LooksUpIff(d: Draft)
    ensures SpecBuilder.LooksUp(d.refs) <==> NamesAPreset(d)
  {
    NamesOneIff(d.refs.trainer);
    NamesOneIff(d.refs.resource);
    NamesOneIff(d.refs.output);
    hide IsSet;
  }

  /** What a stored Submit shows. */
  ghost predicate Tells(t: Tables, u: Tables, d: Draft, specId: Uuid.Id, run: Run) {
    && Uuid.String(run.id) in u.runs && RunOf(u.runs[Uuid.String(run.id)]) == Some(run)
    && SpecOfRun(u, Uuid.String(run.id)).Some? && StoresDraft(SpecOfRun(u, Uuid.String(run.id)).value, d, specId)
    && Extends(t, u) && u.specs.Keys == t.specs.Keys + {Uuid.String(specId)} && u.runs.Keys == t.runs.Keys + {Uuid.String(run.id)}
  }

  lemma StoredRunTells(t: Tables, d: Draft, spec: Spec, run: Run)
    requires Valid(t) && Submitted(d, spec.id) == Some(spec) && Convertible(spec) && Admits(t, spec, run)
    requires run == QueuedRun(run.id, spec.id, d.projectId, run.lifecycle.createdAt)
    ensures Tells(t, AddRun(t, spec, run), d, spec.id, run)
  {
    RunIsThere(t, spec, run);
    AddRunExtends(t, spec, run);
    hide Valid, Admits, AddRun, Submitted, Convertible, StoresDraft, Normal, RunOf, StoredSpec, Extends, SpecOfRun;
    CreateRunAppends(t, spec, run, Uuid.String(run.id));
    SubmittedStoresDraft(d, spec.id);
  }

  lemma RunIsThere(t: Tables, spec: Spec, run: Run)
    requires Convertible(spec) && run == QueuedRun(run.id, spec.id, run.projectId, run.lifecycle.createdAt)
    ensures
      var u, id := AddRun(t, spec, run), Uuid.String(run.id);
      && id in u.runs && RunOf(u.runs[id]) == Some(run)
      && u.specs.Keys == t.specs.Keys + {Uuid.String(spec.id)} && u.runs.Keys == t.runs.Keys + {id}
  {
    AddedRowsByColumn(t, spec, run);
    RunOfIff(RunRowOf(run), run);
    hide AddRun, RunOf;
  }

  class RunService {
    const repo: RunRepository

    constructor (repo: RunRepository)
      ensures this.repo == repo
    {
      this.repo := repo;
    }

    /**
     * `Submit`, with the two new identifiers and the clock as parameters, and whether the context has ended by the
     * time presets are looked up. It stores the spec and its queued run, or changes nothing. Unless the driver fails
     * or the context ends, the draft alone decides the outcome.
     */
    method Submit(draft: Option<Draft>, specId: Uuid.Id, runId: Uuid.Id, now: Instant, ended: bool) returns (r: Result<Run, SubmitError>)
      requires Valid(repo.db.committed) && Seeded(repo.db.committed) && repo.db.staged.None?
      requires specId != Uuid.Nil
      requires Uuid.String(specId) !in repo.db.committed.specs && Uuid.String(runId) !in repo.db.committed.runs
      modifies repo.db
      ensures Valid(repo.db.committed) && repo.db.staged.None?
      ensures r.Err? ==> repo.db.committed == old(repo.db.committed)
      // Success: the run is queued, its spec reads back as the draft says, and nothing else changes.
      ensures r.Ok? ==> draft.Some? && r.value == QueuedRun(runId, specId, draft.value.projectId, now)
      ensures r.Ok? ==> Tells(old(repo.db.committed), repo.db.committed, draft.value, specId, r.value)
      // Disturbances.
      ensures r in {Err(Unchecked), Err(NotStored(CreateError.Failed))} <==> repo.db.failures > old(repo.db.failures)
      ensures repo.db.failures >= old(repo.db.failures)
      ensures r == Err(Cancelled) ==> ended && draft.Some? && NamesAPreset(draft.value)
      // Otherwise the first thing that is wrong with the draft, or success.
      ensures draft.None? ==> r == Err(NilDraft)
      ensures repo.db.failures == old(repo.db.failures) && draft.Some? && !InProject(old(repo.db.committed), draft.value) ==>
                r == Err(ProjectNotFound)
      ensures repo.db.failures == old(repo.db.failures) && draft.Some? && InProject(old(repo.db.committed), draft.value) ==>
                var d := draft.value;
                if ended && NamesAPreset(d) then r == Err(Cancelled)
                else if !KnowsItsPresets(d) then r == Err(PresetNotFound)
                else if !AllNumbers(d.parameters) || d.projectId == Uuid.Nil then r == Err(NotStored(Inconvertible))
                else r.Ok?
    {
      hide Valid, Seeded, AddRun, Tells, AllNumbers, Numeric, KnowsItsPresets, NamesAPreset;
      hide Finalization.Phase0Registry, Finalization.Finalized, Finalization.AllRegistered, SpecBuilder.LooksUp;
      if draft.None? {
        return Err(NilDraft);
      }
      var d := draft.value;
      var known := repo.ProjectExists(d.projectId);
      if known.Err? {
        return Err(if known.error.NotFound? then ProjectNotFound else Unchecked);
      }
      LooksUpIff(d);
      SubmittedIs(d, specId);
      if ended && SpecBuilder.LooksUp(d.refs) {
        return Err(Cancelled);
      }
      var built := Finalization.Build(Finalization.Phase0Registry(), d);
      if built.None? {
        return Err(PresetNotFound);
      }
      var spec := built.value.(id := specId, projectId := d.projectId);
      assert Submitted(d, specId) == Some(spec);
      var newRun := NewWithSpec(runId, specId, d.projectId, now);
      ghost var t := repo.db.committed;
      hide Finalization.Build, Submitted;
      SubmittedConvertsIff(d, specId);
      NumericIff(d.parameters);
      SubmittedIsAdmitted(t, d, specId, runId, now);
      hide Convertible, Admits;
      var stored := repo.CreateRun(spec, newRun);
      if stored.Err? {
        return Err(NotStored(stored.error));
      }
      StoredRunTells(t, d, spec, newRun);
      r := Ok(newRun);
    }
  }
}
