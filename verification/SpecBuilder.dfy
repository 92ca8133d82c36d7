/** Building a spec from a draft: preset lookup, the layered merge, and copies that isolate its result. */
module SpecBuilder {
  import opened Prelude
  import opened Domain
  import opened Finalization
  import opened GoValues
  import opened TrainerPresets
  import Uuid

  /** A `*uuid.UUID`. */
  class IdCell {
    var id: Uuid.Id

    constructor (id: Uuid.Id)
      ensures this.id == id
    {
      this.id := id;
    }
  }

  /** `preset.Refs`: three pointers, which a copy of the struct shares. */
  datatype RefsObject = RefsObject(trainer: IdCell?, resource: IdCell?, output: IdCell?)

  ghost predicate RefHolds(c: IdCell?, ref: Option<Uuid.Id>, shared: set<object>)
    reads shared
  {
    if c == null then ref.None? else c in shared && ref == Some(c.id)
  }

  ghost predicate RefsHold(r: RefsObject, v: Refs, shared: set<object>)
    reads shared
  {
    RefHolds(r.trainer, v.trainer, shared) && RefHolds(r.resource, v.resource, shared) && RefHolds(r.output, v.output, shared)
  }

  /** A `draft.Draft` with its references. */
  class DraftObject {
    var id: Uuid.Id
    var projectId: Uuid.Id
    var name: string
    var description: string
    var refs: RefsObject
    var baseModel: string
    var datasets: array?<DatasetRef>
    var resources: Resources
    var parameters: MapNode?

    /** A draft with these refs and parameters, and nothing else filled in. */
    constructor (refs: RefsObject, parameters: MapNode?)
      ensures id == projectId == Uuid.Nil && name == description == baseModel == "" && datasets == null
      ensures this.refs == refs && resources == Resources(0, 0, 0, 0) && this.parameters == parameters
    {
      id, projectId, name, description := Uuid.Nil, Uuid.Nil, "", "";
      this.refs, baseModel, datasets, resources, this.parameters := refs, "", null, Resources(0, 0, 0, 0), parameters;
    }

    /** The draft stands for `v`: its own objects are in `region`, ref pointers and other referents in `shared`. */
    ghost predicate Stands(v: Draft, region: set<object>, shared: set<object>)
      reads this, region, shared
    {
      && this in region && id == v.id && projectId == v.projectId && name == v.name && description == v.description
      && RefsHold(refs, v.refs, shared) && baseModel == v.baseModel && resources == v.resources
      && DatasetsHold(datasets, v.datasets, region)
      && Holds(MapOf(parameters), Object(v.parameters), region, shared)
    }
  }

  /** Fills a new slice with the datasets of a draft or of a preset. */
  method DataOptions(datasets: array?<DatasetRef>, ghost v: seq<DatasetRef>, ghost region: set<object>)
      returns (copied: array<DatasetRef>)
    requires DatasetsHold(datasets, v, region)
    ensures fresh(copied) && copied[..] == v
  {
    var n := if datasets == null then 0 else datasets.Length;
    copied := new DatasetRef[n];
    for i := 0 to n
      invariant DatasetsHold(datasets, v, region) && copied[..i] == v[..i]
    {
      copied[i] := DatasetRef(datasets[i].path, datasets[i].split);
    }
  }

  /** A `spec.Spec` with its references. */
  class SpecObject {
    var id: Uuid.Id
    var projectId: Uuid.Id
    var name: string
    var description: string
    var refs: RefsObject
    var baseModel: string
    var datasets: array<DatasetRef>
    var resources: Resources
    var parameters: MapNode

    /** The object stands for `v`; it reaches its own three objects and those in `parts` and `shared`, no others. */
    ghost predicate Stands(v: Spec, parts: set<object>, shared: set<object>)
      reads this, datasets, parameters, parts, shared
    {
      && id == v.id && projectId == v.projectId && name == v.name && description == v.description
      && RefsHold(refs, v.refs, shared) && baseModel == v.baseModel && resources == v.resources && datasets[..] == v.datasets
      && EntriesHold(parameters.entries, Object(v.parameters), parts, shared)
      && {this, datasets, parameters} !! parts + shared
    }

    ghost function Own(): set<object>
      reads this
    {
      {this, datasets, parameters}
    }

    /** The draft with no parameters yet. */
    constructor (d: DraftObject, ghost v: Draft, ghost region: set<object>, ghost shared: set<object>)
      requires d.Stands(v, region, shared)
      ensures Stands(Seed(v), {}, shared) && fresh(Own()) && refs == d.refs
    {
      var copied := DataOptions(d.datasets, v.datasets, region);
      var empty := new MapNode();
      id, projectId, name, description, refs := d.id, d.projectId, d.name, d.description, d.refs;
      baseModel, datasets, resources, parameters := d.baseModel, copied, d.resources, empty;
    }

    /** Assigns a copy of each value of a parameter map. */
    method PutParameters(from: MapNode?, ghost own: map<string, Value>, ghost region: set<object>,
                         ghost v: Spec, ghost parts: set<object>, ghost shared: set<object>) returns (ghost more: set<object>)
      requires Holds(MapOf(from), Object(own), region, shared) && Stands(v, parts, shared) && Own() !! region
      modifies parameters
      ensures more >= parts && fresh(more - parts)
      ensures Stands(v.(parameters := v.parameters + own), more, shared)
    {
      if from == null {
        assert v.parameters + own == v.parameters;
        more := parts;
      } else {
        more := CopyEntries(from.entries, parameters, Object(own), region, v.parameters, parts, shared);
      }
    }

    /** The datasets, if a preset defines any. */
    method OverrideDatasets(options: OptionsObject, ghost o: Options, ghost region: set<object>,
                            ghost v: Spec, ghost parts: set<object>, ghost shared: set<object>)
      requires OptionsHold(options, o, region, shared) && Stands(v, parts, shared) && Own() !! region
      modifies `datasets
      ensures fresh(Own() - old(Own()))
      ensures Stands(v.(datasets := if o.datasets.Some? then o.datasets.value else v.datasets), parts, shared)
    {
      hide Holds, EntriesHold, RefsHold;
      if options.datasets.Some? {
        datasets := DataOptions(options.datasets.value, o.datasets.value, region);
      }
    }

    /** The options a preset defines besides parameters. */
    method OverrideFields(options: OptionsObject, ghost o: Options, ghost region: set<object>,
                          ghost v: Spec, ghost parts: set<object>, ghost shared: set<object>)
      requires OptionsHold(options, o, region, shared) && Stands(v, parts, shared) && Own() !! region
      modifies this
      ensures parameters == old(parameters) && refs == old(refs) && fresh(Own() - old(Own()))
      ensures Stands(Override(v, Some(o)).(parameters := v.parameters), parts, shared)
    {
      hide Holds, EntriesHold, RefsHold, DatasetsHold;
      OverrideDatasets(options, o, region, v, parts, shared);
      if options.baseModel.Some? {
        baseModel := options.baseModel.value;
      }
      if options.resources.Some? {
        resources := options.resources.value;
      }
    }

    /** One preset's options over the spec so far. */
    method OverridePreset(p: Preset, ghost o: Options, ghost region: set<object>,
                          ghost v: Spec, ghost parts: set<object>, ghost shared: set<object>) returns (ghost more: set<object>)
      requires PresetHolds(p, o, region, shared) && Stands(v, parts, shared) && Own() !! region
      modifies this, parameters
      ensures parameters == old(parameters) && refs == old(refs) && fresh(Own() - old(Own()))
      ensures more >= parts && fresh(more - parts) && Stands(Override(v, Some(o)), more, shared)
    {
      var options, given := OptionsOf(p, o, region, shared);
      hide PresetHolds, Stands;
      OverrideFields(options, o, given, v, parts, shared);
      more := PutParameters(options.parameters, o.parameters, given, Override(v, Some(o)).(parameters := v.parameters), parts, shared);
    }

    /** `overridePresetOptions`: trainer, then resource, then output. */
    method OverridePresetOptions(presets: seq<Option<Preset>>, ghost os: seq<Option<Options>>, ghost region: set<object>,
                                 ghost v: Spec, ghost parts: set<object>, ghost shared: set<object>) returns (ghost more: set<object>)
      requires AllHold(presets, os, region, shared) && Stands(v, parts, shared) && Own() !! region
      modifies this, parameters
      ensures parameters == old(parameters) && refs == old(refs) && fresh(Own() - old(Own()))
      ensures more >= parts && fresh(more - parts) && Stands(Layers(v, os, |os|), more, shared)
    {
      more := parts;
      for i := 0 to |presets|
        invariant AllHold(presets, os, region, shared)
        invariant parameters == old(parameters) && refs == old(refs) && fresh(Own() - old(Own())) && Own() !! region
        invariant more >= parts && fresh(more - parts) && Stands(Layers(v, os, i), more, shared)
      {
        if presets[i].Some? {
          more := OverridePreset(presets[i].value, os[i].value, region, Layers(v, os, i), more, shared);
        }
      }
    }

    /** `overrideDraftOptions`: the draft's own parameters come last. */
    method OverrideDraftOptions(d: DraftObject, ghost dv: Draft, ghost region: set<object>,
                                ghost v: Spec, ghost parts: set<object>, ghost shared: set<object>) returns (ghost more: set<object>)
      requires d.Stands(dv, region, shared) && Stands(v, parts, shared) && Own() !! region
      modifies parameters
      ensures more >= parts && fresh(more - parts) && Stands(OverrideParameters(v, dv), more, shared)
    {
      more := PutParameters(d.parameters, dv.parameters, region, v, parts, shared);
    }
  }

  ghost predicate AllHold(presets: seq<Option<Preset>>, os: seq<Option<Options>>, region: set<object>, shared: set<object>)
    reads region, shared
  {
    |presets| == |os| && forall i :: 0 <= i < |presets| ==> OneHolds(presets[i], os[i], region, shared)
  }

  ghost predicate OneHolds(p: Option<Preset>, o: Option<Options>, region: set<object>, shared: set<object>)
    reads region, shared
  {
    (p.Some? <==> o.Some?) && (p.Some? ==> PresetHolds(p.value, o.value, region, shared))
  }

  datatype PresetsObject = PresetsObject(trainer: Option<Preset>, resource: Option<Preset>, output: Option<Preset>)

  ghost predicate PresetsHold(p: PresetsObject, v: Presets, region: set<object>, shared: set<object>)
    reads region, shared
  {
    AllHold(AllOf(p), All(v), region, shared)
  }

  function AllOf(p: PresetsObject): seq<Option<Preset>> { [p.trainer, p.resource, p.output] }

  /**
   * The spec of a draft and its presets. Its maps and slices are all new: none is a draft's, a preset's,
   * even one that hands out its own maps, or an earlier spec's. The ref pointers are the draft's own, and
   * other references in parameters are those of the draft and the presets.
   */
  method FinalizeRunSpec(d: DraftObject, presets: PresetsObject, ghost dv: Draft, ghost pv: Presets,
                         ghost region: set<object>, ghost shared: set<object>)
      returns (s: SpecObject, ghost parts: set<object>)
    requires d.Stands(dv, region, shared) && PresetsHold(presets, pv, region, shared)
    ensures s.Stands(Finalized(dv, pv), parts, shared) && fresh(s.Own() + parts) && s.refs == d.refs
  {
    s := new SpecObject(d, dv, region, shared);
    parts := s.OverridePresetOptions(AllOf(presets), All(pv), region, Seed(dv), {}, shared);
    parts := s.OverrideDraftOptions(d, dv, region, Layers(Seed(dv), All(pv), 3), parts, shared);
    LayersGiveFinalized(dv, pv);
  }

  // Preset lookup.

  /** The identifiers among the first `n` refs. */
  ghost function Collected(refs: seq<Option<Uuid.Id>>, n: nat): seq<Uuid.Id>
    requires n <= |refs|
  {
    Distinct(SetRefs(refs[..n]))
  }

  lemma NextCollected(refs: seq<Option<Uuid.Id>>, n: nat)
    requires n < |refs|
    ensures Collected(refs, n + 1) ==
            if IsSet(refs[n]) && refs[n].value !in Collected(refs, n) then Collected(refs, n) + [refs[n].value] else Collected(refs, n)
  {
    hide Distinct, SetRefs;
    NextSetRef(refs, n);
    if IsSet(refs[n]) {
      DistinctOfAppend(SetRefs(refs[..n]), refs[n].value);
    } else {
      assert SetRefs(refs[..n]) + [] == SetRefs(refs[..n]);
    }
  }

  /** The identifiers to look up: each set ref once, in the order of first occurrence. */
  method CollectPresetIDs(refs: RefsObject, ghost v: Refs, ghost shared: set<object>) returns (ids: seq<Uuid.Id>)
    requires RefsHold(refs, v, shared)
    ensures ids == Distinct(SetRefs(RefsInOrder(v)))
  {
    var candidates := [refs.trainer, refs.resource, refs.output];
    ghost var all := RefsInOrder(v);
    assert all[..0] == [] && all[..3] == all && Collected(all, 0) == [];
    ids := [];
    var seen: set<Uuid.Id> := {};
    assert forall i :: 0 <= i < 3 ==> RefHolds(candidates[i], all[i], shared);
    assert Collected(all, 3) == Distinct(SetRefs(all));
    hide Collected, Distinct, SetRefs;
    for i := 0 to |candidates|
      invariant ids == Collected(all, i)
      invariant forall id :: id in seen <==> id in ids
    {
      var ref := candidates[i];
      NextCollected(all, i);
      if ref == null || ref.id == Uuid.Nil {
        continue;
      }
      if ref.id in seen {
        continue;
      }
      seen := seen + {ref.id};
      ids := ids + [ref.id];
    }
  }

  function PresetByRef(resolved: map<Uuid.Id, TrainerPreset>, ref: IdCell?): Option<Preset>
    reads ref
  {
    if ref != null && ref.id != Uuid.Nil && ref.id in resolved then Some(Trainer(resolved[ref.id])) else None
  }

  datatype BuildError = NilRegistry | NilValidator | NilDraft | Lookup(error: RegistryError) | Rejected

  predicate LooksUp(refs: Refs) {
    IsSet(refs.trainer) || IsSet(refs.resource) || IsSet(refs.output)
  }

  predicate FoundIn(resolved: map<Uuid.Id, TrainerPreset>, registry: StaticRegistry, ref: Option<Uuid.Id>) {
    IsSet(ref) ==> ref.value in registry.presets && ref.value in resolved && resolved[ref.value] == registry.presets[ref.value]
  }

  /** All set refs looked up at once; a cancelled context is noticed only if there is something to look up. */
  method ReadPreset(registry: StaticRegistry, refs: RefsObject, cancelled: bool, ghost v: Refs, ghost shared: set<object>)
      returns (r: Result<map<Uuid.Id, TrainerPreset>, RegistryError>)
    requires RefsHold(refs, v, shared)
    ensures r.Ok? <==>
              && !(cancelled && LooksUp(v))
              && forall ref :: ref in RefsInOrder(v) && IsSet(ref) ==> ref.value in registry.presets
    ensures r.Ok? ==> forall ref :: ref in RefsInOrder(v) ==> FoundIn(r.value, registry, ref)
    ensures r.Err? ==> (r.error == Cancelled <==> cancelled)
    ensures r.Err? && !cancelled ==> r.error.id !in registry.presets && Some(r.error.id) in RefsInOrder(v)
  {
    hide Distinct, SetRefs, RefsHold, RefsInOrder, LooksUp;
    var ids := CollectPresetIDs(refs, v, shared);
    CollectedAre(v);
    assert forall ref :: ref in RefsInOrder(v) && IsSet(ref) ==> Some(ref.value) == ref;
    if |ids| == 0 {
      return Ok(map[]);
    }
    r := registry.GetMany(cancelled, ids);
  }

  /** The presets of a draft, category by category. */
  method ReadPresets(registry: StaticRegistry, d: DraftObject, cancelled: bool,
                     ghost reg: Registry, ghost dv: Draft, ghost region: set<object>, ghost shared: set<object>)
      returns (r: Result<PresetsObject, BuildError>)
    requires registry.Serves(reg, region, shared) && d.Stands(dv, region, shared)
    ensures r.Ok? <==> AllRegistered(reg, dv.refs) && !(cancelled && LooksUp(dv.refs))
    ensures r.Ok? ==> PresetsHold(r.value, ResolvedAll(reg, dv.refs), region, shared)
    ensures r.Err? ==> r.error.Lookup? && (r.error.error == Cancelled <==> cancelled)
    ensures r.Err? && !cancelled ==> r.error.error.id !in reg && Some(r.error.error.id) in RefsInOrder(dv.refs)
  {
    assert registry.presets.Keys == reg.Keys;
    var found := ReadPreset(registry, d.refs, cancelled, dv.refs, shared);
    AllRegisteredIff(reg, dv.refs);
    if found.Err? {
      return Err(Lookup(found.error));
    }
    var resolved := found.value;
    r := Ok(PresetsObject(PresetByRef(resolved, d.refs.trainer), PresetByRef(resolved, d.refs.resource),
                          PresetByRef(resolved, d.refs.output)));
    PresetsResolved(registry, resolved, d.refs, dv.refs, reg, region, shared);
  }

  lemma AllRegisteredIff(reg: Registry, refs: Refs)
    ensures AllRegistered(reg, refs) <==> forall ref :: ref in RefsInOrder(refs) && IsSet(ref) ==> ref.value in reg
  {
    assert forall ref :: ref in RefsInOrder(refs) <==> ref == refs.trainer || ref == refs.resource || ref == refs.output;
  }

  lemma PresetResolved(registry: StaticRegistry, resolved: map<Uuid.Id, TrainerPreset>, c: IdCell?, ref: Option<Uuid.Id>,
                       reg: Registry, region: set<object>, shared: set<object>)
    requires registry.Serves(reg, region, shared) && Registered(reg, ref) && FoundIn(resolved, registry, ref)
    requires RefHolds(c, ref, shared)
    ensures OneHolds(PresetByRef(resolved, c), Resolved(reg, ref), region, shared)
  {
    hide RecordHolds;
  }

  lemma PresetsResolved(registry: StaticRegistry, resolved: map<Uuid.Id, TrainerPreset>, refs: RefsObject, v: Refs,
                        reg: Registry, region: set<object>, shared: set<object>)
    requires registry.Serves(reg, region, shared) && AllRegistered(reg, v) && RefsHold(refs, v, shared)
    requires forall ref :: ref in RefsInOrder(v) ==> FoundIn(resolved, registry, ref)
    ensures PresetsHold(PresetsObject(PresetByRef(resolved, refs.trainer), PresetByRef(resolved, refs.resource),
                                      PresetByRef(resolved, refs.output)), ResolvedAll(reg, v), region, shared)
  {
    var all := RefsInOrder(v);
    assert all[0] in all && all[1] in all && all[2] in all;
    PresetResolved(registry, resolved, refs.trainer, v.trainer, reg, region, shared);
    PresetResolved(registry, resolved, refs.resource, v.resource, reg, region, shared);
    PresetResolved(registry, resolved, refs.output, v.output, reg, region, shared);
    hide OneHolds, Resolved, PresetByRef, RefHolds;
  }

  lemma CollectedAre(refs: Refs)
    ensures
      var ids := Distinct(SetRefs(RefsInOrder(refs)));
      && (forall id :: id in ids <==> id != Uuid.Nil && Some(id) in RefsInOrder(refs))
      && (ids == [] <==> !LooksUp(refs))
  {
    var all := RefsInOrder(refs);
    var ids := Distinct(SetRefs(all));
    forall id
      ensures id in ids <==> id != Uuid.Nil && Some(id) in all
    {
      SetRefsAre(all, id);
    }
    assert ids != [] ==> ids[0] in ids;
    assert forall ref :: ref in [refs.trainer, refs.resource, refs.output] && IsSet(ref) ==> ref.value in ids;
  }

  /**
   * `PresetBacked.Build`. The validator is consulted once the presets are resolved; `accepts` is its
   * verdict. The result is the one the draft's meaning prescribes, all new but for the draft's ref pointers
   * and other references in parameters.
   */
  method Build(registry: StaticRegistry?, hasValidator: bool, accepts: bool, d: DraftObject?, cancelled: bool,
               ghost reg: Registry, ghost dv: Draft, ghost region: set<object>, ghost shared: set<object>)
      returns (r: Result<SpecObject, BuildError>, ghost parts: set<object>)
    requires registry != null ==> registry.Serves(reg, region, shared)
    requires d != null ==> d.Stands(dv, region, shared)
    ensures r.Ok? <==> registry != null && hasValidator && d != null && accepts
                       && Finalization.Build(reg, dv).Some? && !(cancelled && LooksUp(dv.refs))
    ensures r.Ok? ==> r.value.Stands(Finalization.Build(reg, dv).value, parts, shared) && fresh(r.value.Own() + parts)
    ensures r.Ok? ==> r.value.refs == d.refs
    ensures r == Err(NilRegistry) <==> registry == null
    ensures r == Err(NilValidator) <==> registry != null && !hasValidator
    ensures r == Err(NilDraft) <==> registry != null && hasValidator && d == null
    ensures r.Err? && r.error.Lookup? <==>
              registry != null && hasValidator && d != null && (!AllRegistered(reg, dv.refs) || (cancelled && LooksUp(dv.refs)))
  {
    parts := {};
    if registry == null {
      return Err(NilRegistry), parts;
    }
    if !hasValidator {
      return Err(NilValidator), parts;
    }
    if d == null {
      return Err(NilDraft), parts;
    }
    var presets := ReadPresets(registry, d, cancelled, reg, dv, region, shared);
    if presets.Err? {
      return Err(presets.error), parts;
    }
    if !accepts {
      return Err(Rejected), parts;
    }
    var s;
    s, parts := FinalizeRunSpec(d, presets.value, dv, ResolvedAll(reg, dv.refs), region, shared);
    r := Ok(s);
  }
}
