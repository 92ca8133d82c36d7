/**
 * How far a finalized spec is isolated from the draft and the presets it was made of: writes to its maps,
 * slices and fields never reach them; writes behind its other references do.
 */
module Isolation {
  import opened Prelude
  import opened Domain
  import opened Finalization
  import opened GoValues
  import opened TrainerPresets
  import opened SpecBuilder
  import opened Phase0
  import Uuid

  /** No ref pointer is set and no parameter holds a reference other than a map or a slice. */
  predicate IsSelfContained(v: Spec) {
    v.refs == Refs(None, None, None) && forall key :: key in v.parameters ==> !HasReference(v.parameters[key])
  }

  /** A finalized spec reaches nothing but its own new objects if and only if it is self-contained. */
  lemma SelfContainedIff(s: SpecObject, v: Spec, parts: set<object>, shared: set<object>)
    requires s.Stands(v, parts, shared)
    ensures s.Stands(v, parts, {}) <==> IsSelfContained(v)
  {
    forall key | key in v.parameters
      ensures Holds(s.parameters.entries[key], v.parameters[key], parts, {}) <==> !HasReference(v.parameters[key])
    {
      HoldsAloneIff(s.parameters.entries[key], v.parameters[key], parts, shared);
    }
    hide Holds, HasReference;
  }

  /**
   * Whatever is written to the maps, slices and fields of a finalized spec, the draft and the presets
   * stay what they were, and finalizing them again gives the same spec as before. For a self-contained
   * spec these are all the objects it reaches.
   */
  method FinalizeAgain(d: DraftObject, presets: PresetsObject, s: SpecObject, ghost parts: set<object>, ghost dv: Draft,
                       ghost pv: Presets, ghost region: set<object>, ghost shared: set<object>)
      returns (again: SpecObject, ghost others: set<object>)
    requires d.Stands(dv, region, shared) && PresetsHold(presets, pv, region, shared) && s.Own() + parts !! region + shared
    modifies s.Own(), parts
    ensures d.Stands(dv, region, shared) && PresetsHold(presets, pv, region, shared)
    ensures again.Stands(Finalized(dv, pv), others, shared) && fresh(again.Own() + others)
  {
    modify s.Own(), parts;
    again, others := FinalizeRunSpec(d, presets, dv, pv, region, shared);
  }

  /** A parameter of a finalized spec is one of the draft's or of a preset's. */
  lemma ParameterHasASource(dv: Draft, pv: Presets, key: string)
    requires key in Finalized(dv, pv).parameters
    ensures
      var t, r, o := Given(pv.trainer).parameters, Given(pv.resource).parameters, Given(pv.output).parameters;
      var value := Finalized(dv, pv).parameters[key];
      || (key in dv.parameters && dv.parameters[key] == value) || (key in t && t[key] == value)
      || (key in r && r[key] == value) || (key in o && o[key] == value)
  {
    MergePrecedence(dv, pv, key);
  }

  /** If the parameters of a draft, a preset or a spec mention a reference, its referent is among the shared ones. */
  lemma MentionedInMap(node: MapNode?, v: map<string, Value>, key: string, region: set<object>, shared: set<object>,
                       address: nat, content: nat)
    requires Holds(MapOf(node), Object(v), region, shared) && key in v && Mentions(v[key], address, content)
    ensures Refers(shared, address, content)
  {
    MentionedIsShared(node.entries[key], v[key], region, shared, address, content);
  }

  lemma PresetMentions(p: Option<Preset>, o: Option<Options>, key: string, region: set<object>, shared: set<object>,
                       address: nat, content: nat)
    requires OneHolds(p, o, region, shared) && key in Given(o).parameters && Mentions(Given(o).parameters[key], address, content)
    ensures Refers(shared, address, content)
  {
    match p.value
    case Trainer(t) => MentionedInMap(t.record.defaults, o.value.parameters, key, region, shared, address, content);
    case Foreign(x) => MentionedInMap(x.parameters, o.value.parameters, key, region, shared, address, content);
  }

  /** A reference among the finalized parameters belongs to the draft or to a preset. */
  lemma SourcesMention(d: DraftObject, presets: PresetsObject, dv: Draft, pv: Presets, key: string,
                       region: set<object>, shared: set<object>, address: nat, content: nat)
    requires d.Stands(dv, region, shared) && PresetsHold(presets, pv, region, shared)
    requires key in Finalized(dv, pv).parameters && Mentions(Finalized(dv, pv).parameters[key], address, content)
    ensures Refers(shared, address, content)
  {
    ParameterHasASource(dv, pv, key);
    assert OneHolds(AllOf(presets)[0], All(pv)[0], region, shared) && OneHolds(AllOf(presets)[1], All(pv)[1], region, shared)
           && OneHolds(AllOf(presets)[2], All(pv)[2], region, shared);
    var value := Finalized(dv, pv).parameters[key];
    hide Finalized, OneHolds, Mentions, Holds, PresetsHold;
    if key in dv.parameters && dv.parameters[key] == value {
      MentionedInMap(d.parameters, dv.parameters, key, region, shared, address, content);
    } else if key in Given(pv.trainer).parameters && Given(pv.trainer).parameters[key] == value {
      PresetMentions(presets.trainer, pv.trainer, key, region, shared, address, content);
    } else if key in Given(pv.resource).parameters && Given(pv.resource).parameters[key] == value {
      PresetMentions(presets.resource, pv.resource, key, region, shared, address, content);
    } else {
      PresetMentions(presets.output, pv.output, key, region, shared, address, content);
    }
  }

  /** Overwriting a referent leaves none of its old content at its address. */
  lemma NoLongerRefers(shared: set<object>, r: Referent, content: nat)
    requires DistinctAddresses(shared) && r in shared && r.content != content
    ensures !Refers(shared, r.address, content)
  {
  }

  /** One of the referents a spec's parameters mention. */
  lemma SomeReferent(s: SpecObject, v: Spec, parts: set<object>, shared: set<object>, referents: set<Referent>)
    requires s.Stands(v, parts, shared) && forall r: Referent :: r in shared ==> r in referents
    requires exists key :: key in v.parameters && HasReference(v.parameters[key])
    ensures exists r: Referent, key :: r in referents && key in v.parameters && Mentions(v.parameters[key], r.address, r.content)
  {
    var key :| key in v.parameters && HasReference(v.parameters[key]);
    ReferenceIsMentioned(v.parameters[key]);
    var a, c :| Mentions(v.parameters[key], a, c);
    MentionedIsShared(s.parameters.entries[key], v.parameters[key], parts, shared, a, c);
    var r: Referent :| r in shared && r.address == a && r.content == c;
    assert r in referents && Mentions(v.parameters[key], r.address, r.content);
  }

  /** Overwrites something a parameter of the spec refers to. */
  method WriteReferent(d: DraftObject, presets: PresetsObject, s: SpecObject, ghost parts: set<object>, ghost dv: Draft,
                       ghost pv: Presets, v: Spec, ghost region: set<object>, ghost shared: set<object>, referents: set<Referent>)
    requires d.Stands(dv, region, shared) && PresetsHold(presets, pv, region, shared)
    requires v == Finalized(dv, pv) && s.Stands(v, parts, shared)
    requires DistinctAddresses(shared) && referents <= shared && forall r: Referent :: r in shared ==> r in referents
    requires exists key :: key in v.parameters && HasReference(v.parameters[key])
    modifies shared
    ensures !s.Stands(v, parts, shared)
    ensures !(d.Stands(dv, region, shared) && PresetsHold(presets, pv, region, shared))
  {
    SomeReferent(s, v, parts, shared, referents);
    var r: Referent, key :| r in referents && key in v.parameters && Mentions(v.parameters[key], r.address, r.content);
    hide Finalized, Mentions, HasReference, Holds, EntriesHold;
    ghost var before := r.content;
    r.content := r.content + 1;
    NoLongerRefers(shared, r, before);
    if s.Stands(v, parts, shared) {
      SpecMentions(s, v, key, parts, shared, r.address, before);
    }
    if d.Stands(dv, region, shared) && PresetsHold(presets, pv, region, shared) {
      SourcesMention(d, presets, dv, pv, key, region, shared, r.address, before);
    }
  }

  lemma SpecMentions(s: SpecObject, v: Spec, key: string, parts: set<object>, shared: set<object>, address: nat, content: nat)
    requires s.Stands(v, parts, shared) && key in v.parameters && Mentions(v.parameters[key], address, content)
    ensures Refers(shared, address, content)
  {
    MentionedIsShared(s.parameters.entries[key], v.parameters[key], parts, shared, address, content);
  }

  /**
   * The other direction: unless a finalized spec is self-contained, a single write through one of its
   * references changes the spec and, with it, the draft or a preset.
   */
  method WriteThrough(d: DraftObject, presets: PresetsObject, s: SpecObject, ghost parts: set<object>, ghost dv: Draft, ghost pv: Presets,
                      v: Spec, ghost region: set<object>, ghost shared: set<object>, referents: set<Referent>)
    requires d.Stands(dv, region, shared) && PresetsHold(presets, pv, region, shared)
    requires v == Finalized(dv, pv) && s.Stands(v, parts, shared) && s.refs == d.refs
    requires shared !! region + parts + s.Own()
    requires DistinctAddresses(shared) && referents <= shared && forall r: Referent :: r in shared ==> r in referents
    requires !IsSelfContained(v)
    modifies shared
    ensures !s.Stands(v, parts, shared)
    ensures !(d.Stands(dv, region, shared) && PresetsHold(presets, pv, region, shared))
  {
    if d.refs.trainer != null {
      Redirect(d.refs.trainer);
    } else if d.refs.resource != null {
      Redirect(d.refs.resource);
    } else if d.refs.output != null {
      Redirect(d.refs.output);
    } else {
      WriteReferent(d, presets, s, parts, dv, pv, v, region, shared, referents);
    }
  }

  /** Another identifier behind the same pointer. */
  method Redirect(c: IdCell)
    modifies c
    ensures c.id != old(c.id)
  {
    if c.id == Uuid.Nil {
      c.id := Axolotl;
      assert Axolotl[0] != Uuid.Nil[0];
    } else {
      c.id := Uuid.Nil;
    }
  }

  // A draft on which it shows.

  lemma ServesInLarger(r: StaticRegistry, reg: Registry, region: set<object>, larger: set<object>, more: set<object>)
    requires r.Serves(reg, region, {}) && region <= larger
    ensures r.Serves(reg, larger, more)
  {
    forall id | id in r.presets
      ensures RecordHolds(r.presets[id].record, reg[id], larger, more)
    {
      var defaults, v := MapOf(r.presets[id].record.defaults), Object(reg[id].parameters);
      HoldsInLarger(defaults, v, region, larger, {});
      HoldsWithMoreShared(defaults, v, larger, {}, more);
    }
    hide Holds;
  }

  /** A draft with nothing but a trainer ref. */
  ghost function RefOnly(id: Uuid.Id): Draft {
    Draft(Uuid.Nil, Uuid.Nil, "", "", Refs(Some(id), None, None), "", [], Resources(0, 0, 0, 0), map[])
  }

  ghost predicate IsRefOnly(d: DraftObject, cell: IdCell)
    reads d
  {
    && d.id == d.projectId == Uuid.Nil && d.name == d.description == d.baseModel == "" && d.datasets == null
    && d.refs == RefsObject(cell, null, null) && d.resources == Resources(0, 0, 0, 0) && d.parameters == null
  }

  lemma RefOnlyStands(d: DraftObject, cell: IdCell, region: set<object>)
    requires IsRefOnly(d, cell) && d in region
    ensures d.Stands(RefOnly(cell.id), region, {cell})
  {
  }

  lemma BuildsAny(id: Uuid.Id)
    requires id == Axolotl || id == Unsloth
    ensures Finalization.Build(Phase0Registry(), RefOnly(id)).Some?
    ensures Finalization.Build(Phase0Registry(), RefOnly(id)).value.refs == Refs(Some(id), None, None)
  {
    hide LoraOptions;
  }

  /**
   * Two specs are built from one draft that names the Axolotl preset. In between, a write through the
   * first spec's trainer ref turns the draft, and so the second spec, into one for the Unsloth preset.
   */
  method TrainerRefIsShared() returns (d: DraftObject, before: Uuid.Id, first: SpecObject, second: SpecObject)
    ensures before == Axolotl && first != second
    ensures d.refs.trainer != null && d.refs.trainer.id == Unsloth
    ensures first.refs == second.refs == d.refs
    ensures exists parts :: second.Stands(Finalization.Build(Phase0Registry(), RefOnly(Unsloth)).value, parts, {d.refs.trainer})
  {
    hide Finalization.Build, Phase0Registry, RefOnly, IsLora, AllRegistered, SpecObject.Stands, StaticRegistry.Serves;
    var registry, axolotls, unsloths := NewPhase0Registry();
    var cell := new IdCell(Axolotl);
    d := new DraftObject(RefsObject(cell, null, null), null);
    first := BuildRefOnly(registry, d, cell, axolotls + unsloths);
    before := d.refs.trainer.id;
    first.refs.trainer.id := Unsloth;
    second := BuildRefOnly(registry, d, cell, axolotls + unsloths);
  }

  /** Builds a draft that names nothing but one Phase 0 preset. */
  method BuildRefOnly(registry: StaticRegistry, d: DraftObject, cell: IdCell, ghost region: set<object>) returns (s: SpecObject)
    requires registry.Serves(Phase0Registry(), region, {}) && IsRefOnly(d, cell) && (cell.id == Axolotl || cell.id == Unsloth)
    ensures fresh(s) && s.refs == d.refs
    ensures exists parts :: s.Stands(Finalization.Build(Phase0Registry(), RefOnly(cell.id)).value, parts, {cell})
  {
    hide Finalization.Build, Phase0Registry, RefOnly;
    ghost var larger := region + {d};
    RefOnlyStands(d, cell, larger);
    ServesInLarger(registry, Phase0Registry(), region, larger, {cell});
    BuildsAny(cell.id);
    var built, parts := SpecBuilder.Build(registry, true, true, d, false, Phase0Registry(), RefOnly(cell.id), larger, {cell});
    s := built.value;
  }
}
