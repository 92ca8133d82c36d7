/** What building a spec from a draft means, apart from how the code does it. */
module Finalization {
  import opened Prelude
  import opened Domain
  import opened Phase0
  import Uuid

  /** `preset.Options`: what one resolved preset contributes. */
  datatype Options = Options(
    baseModel: Option<string>, datasets: Option<seq<DatasetRef>>, resources: Option<Resources>,
    parameters: map<string, Value>)

  datatype Presets = Presets(trainer: Option<Options>, resource: Option<Options>, output: Option<Options>)

  const NoOptions := Options(None, None, None, map[])

  function Given(preset: Option<Options>): Options {
    if preset.Some? then preset.value else NoOptions
  }

  /** The last of the three presets to define a value, or else the draft's own. */
  function LastDefined<T>(trainer: Option<T>, resource: Option<T>, output: Option<T>, draft: T): T {
    if output.Some? then output.value
    else if resource.Some? then resource.value
    else if trainer.Some? then trainer.value
    else draft
  }

  /** Later layers win key by key: trainer, resource, output, draft. */
  function MergedParameters(d: Draft, p: Presets): map<string, Value> {
    Given(p.trainer).parameters + Given(p.resource).parameters + Given(p.output).parameters + d.parameters
  }

  /** Model, data and resources: a preset beats the draft. Parameters: the draft beats every preset. */
  function Finalized(d: Draft, p: Presets): Spec {
    var t, r, o := Given(p.trainer), Given(p.resource), Given(p.output);
    Spec(d.id, d.projectId, d.name, d.description, d.refs,
         LastDefined(t.baseModel, r.baseModel, o.baseModel, d.baseModel),
         LastDefined(t.datasets, r.datasets, o.datasets, d.datasets),
         LastDefined(t.resources, r.resources, o.resources, d.resources),
         MergedParameters(d, p))
  }

  /** The value of each merged parameter, layer by layer. */
  lemma MergePrecedence(d: Draft, p: Presets, key: string)
    ensures
      var t, r, o := Given(p.trainer).parameters, Given(p.resource).parameters, Given(p.output).parameters;
      var m := Finalized(d, p).parameters;
      && (key in m <==> key in t || key in r || key in o || key in d.parameters)
      && (key in d.parameters ==> m[key] == d.parameters[key])
      && (key in o && key !in d.parameters ==> m[key] == o[key])
      && (key in r && key !in o && key !in d.parameters ==> m[key] == r[key])
      && (key in t && key !in r && key !in o && key !in d.parameters ==> m[key] == t[key])
  {
  }

  /** What a preset says about one option, if there is a preset and it says anything. */
  predicate Says<T(==)>(preset: Option<Options>, part: Options -> Option<T>, value: T) {
    preset.Some? && part(preset.value) == Some(value)
  }

  predicate Silent<T>(preset: Option<Options>, part: Options -> Option<T>) {
    preset.None? || part(preset.value).None?
  }

  /** `result` is what the last preset that is not silent says, and the draft's own if all are. */
  predicate IsLastSaid<T(==)>(result: T, p: Presets, part: Options -> Option<T>, draft: T) {
    || Says(p.output, part, result)
    || (Silent(p.output, part) && Says(p.resource, part, result))
    || (Silent(p.output, part) && Silent(p.resource, part) && Says(p.trainer, part, result))
    || (Silent(p.output, part) && Silent(p.resource, part) && Silent(p.trainer, part) && result == draft)
  }

  /** Every field of a finalized spec but the parameters: the draft's own, or what the last preset says. */
  lemma FinalizedFields(d: Draft, p: Presets)
    ensures
      var f := Finalized(d, p);
      && f.id == d.id && f.projectId == d.projectId && f.name == d.name && f.description == d.description && f.refs == d.refs
      && IsLastSaid(f.baseModel, p, (o: Options) => o.baseModel, d.baseModel)
      && IsLastSaid(f.datasets, p, (o: Options) => o.datasets, d.datasets)
      && IsLastSaid(f.resources, p, (o: Options) => o.resources, d.resources)
  {
    hide MergedParameters;
  }

  /** Applying one preset's options over a spec, as the loop over the presets does. */
  function Override(s: Spec, preset: Option<Options>): Spec {
    if preset.None? then s
    else
      var o := preset.value;
      s.(baseModel := if o.baseModel.Some? then o.baseModel.value else s.baseModel,
         datasets := if o.datasets.Some? then o.datasets.value else s.datasets,
         resources := if o.resources.Some? then o.resources.value else s.resources,
         parameters := s.parameters + o.parameters)
  }

  /** The first `n` presets applied in order. */
  function Layers(s: Spec, presets: seq<Option<Options>>, n: nat): Spec
    requires n <= |presets|
  {
    if n == 0 then s else Override(Layers(s, presets, n - 1), presets[n - 1])
  }

  /** `Presets.All`: the order of the layers. */
  function All(p: Presets): seq<Option<Options>> { [p.trainer, p.resource, p.output] }

  /** The spec before any preset: the draft with no parameters yet. */
  function Seed(d: Draft): Spec {
    Spec(d.id, d.projectId, d.name, d.description, d.refs, d.baseModel, d.datasets, d.resources, map[])
  }

  function OverrideParameters(s: Spec, d: Draft): Spec {
    s.(parameters := s.parameters + d.parameters)
  }

  lemma LayersNest(s: Spec, p: Presets)
    ensures Layers(s, All(p), 3) == Override(Override(Override(s, p.trainer), p.resource), p.output)
  {
    hide Override;
    assert Layers(s, All(p), 1) == Override(s, p.trainer);
    assert Layers(s, All(p), 2) == Override(Layers(s, All(p), 1), p.resource);
  }

  lemma OverrideParts(s: Spec, p: Option<Options>)
    ensures Override(s, p).parameters == s.parameters + Given(p).parameters
  {
    assert s.parameters + map[] == s.parameters;
  }

  /** Layer after layer gives what the merge means. */
  lemma LayersGiveFinalized(d: Draft, p: Presets)
    ensures OverrideParameters(Layers(Seed(d), All(p), 3), d) == Finalized(d, p)
  {
    LayersNest(Seed(d), p);
    var first := Override(Seed(d), p.trainer);
    var second := Override(first, p.resource);
    OverrideParts(Seed(d), p.trainer);
    OverrideParts(first, p.resource);
    OverrideParts(second, p.output);
    assert map[] + Given(p.trainer).parameters == Given(p.trainer).parameters;
    hide Layers;
  }

  // Resolving preset refs.

  type Registry = map<Uuid.Id, Options>

  /** The refs that are set, in the order of the categories. */
  function SetRefs(refs: seq<Option<Uuid.Id>>): seq<Uuid.Id> {
    if refs == [] then []
    else
      var last := refs[|refs| - 1];
      SetRefs(refs[..|refs| - 1]) + if IsSet(last) then [last.value] else []
  }

  function RefsInOrder(refs: Refs): seq<Option<Uuid.Id>> { [refs.trainer, refs.resource, refs.output] }

  /** A list without its repetitions: every element where it occurs first. */
  function Distinct(list: seq<Uuid.Id>): (distinct: seq<Uuid.Id>)
    ensures forall id :: id in distinct <==> id in list
    ensures forall i, j :: 0 <= i < j < |distinct| ==> distinct[i] != distinct[j]
  {
    if list == [] then []
    else
      var n := |list| - 1;
      var before := Distinct(list[..n]);
      if list[n] in list[..n] then before else before + [list[n]]
  }

  function FirstIndex(list: seq<Uuid.Id>, id: Uuid.Id): (k: nat)
    requires id in list
    ensures k < |list| && list[k] == id && id !in list[..k]
  {
    if id in list[..|list| - 1] then FirstIndex(list[..|list| - 1], id) else |list| - 1
  }

  /** The elements stand in the order of their first occurrences. */
  lemma {:induction false} DistinctKeepsOrder(list: seq<Uuid.Id>, i: nat, j: nat)
    requires i < j < |Distinct(list)|
    ensures FirstIndex(list, Distinct(list)[i]) < FirstIndex(list, Distinct(list)[j])
  {
    var n := |list| - 1;
    if j < |Distinct(list[..n])| {
      DistinctKeepsOrder(list[..n], i, j);
    }
  }

  lemma NextSetRef(refs: seq<Option<Uuid.Id>>, i: nat)
    requires i < |refs|
    ensures SetRefs(refs[..i + 1]) == SetRefs(refs[..i]) + if IsSet(refs[i]) then [refs[i].value] else []
  {
    assert refs[..i + 1][..i] == refs[..i];
  }

  lemma DistinctOfAppend(list: seq<Uuid.Id>, id: Uuid.Id)
    ensures Distinct(list + [id]) == if id in list then Distinct(list) else Distinct(list) + [id]
  {
    assert (list + [id])[..|list|] == list;
  }

  lemma {:induction false} SetRefsAre(refs: seq<Option<Uuid.Id>>, id: Uuid.Id)
    ensures id in SetRefs(refs) <==> id != Uuid.Nil && Some(id) in refs
  {
    if refs != [] {
      SetRefsAre(refs[..|refs| - 1], id);
    }
  }

  predicate Registered(registry: Registry, ref: Option<Uuid.Id>) {
    IsSet(ref) ==> ref.value in registry
  }

  predicate AllRegistered(registry: Registry, refs: Refs) {
    Registered(registry, refs.trainer) && Registered(registry, refs.resource) && Registered(registry, refs.output)
  }

  function Resolved(registry: Registry, ref: Option<Uuid.Id>): Option<Options>
    requires Registered(registry, ref)
  {
    if IsSet(ref) then Some(registry[ref.value]) else None
  }

  function ResolvedAll(registry: Registry, refs: Refs): Presets
    requires AllRegistered(registry, refs)
  {
    Presets(Resolved(registry, refs.trainer), Resolved(registry, refs.resource), Resolved(registry, refs.output))
  }

  /** `Build` with an accepting validator and a live context: it succeeds exactly when every set ref is registered. */
  function Build(registry: Registry, d: Draft): Option<Spec> {
    if AllRegistered(registry, d.refs) then Some(Finalized(d, ResolvedAll(registry, d.refs))) else None
  }

  /** Each preset's literal defaults; `2.0e-4` prints as `0.0002`. */
  function LoraDefaults(): map<string, Value> {
    map["learning_rate" := Float64("0.0002"), "num_epochs" := Int(3), "max_seq_length" := Int(4096),
        "lora_r" := Int(16), "lora_alpha" := Int(32), "micro_batch_size" := Int(1)]
  }

  function LoraOptions(): Options {
    Options(None, None, None, LoraDefaults())
  }

  function Phase0Registry(): Registry {
    map[Axolotl := LoraOptions(), Unsloth := LoraOptions()]
  }
}
