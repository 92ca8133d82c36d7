/** Trainer presets, the copies they hand out, and the in-memory registry. */
module TrainerPresets {
  import opened Prelude
  import opened Domain
  import opened Finalization
  import opened GoValues
  import opened Phase0
  import Uuid

  /** A `*float64`. */
  class Cell {
    var number: real

    constructor (number: real)
      ensures this.number == number
    {
      this.number := number;
    }
  }

  datatype OptionValueType = OptionString | OptionInt | OptionFloat | OptionBool | OtherType(text: string)

  datatype OptionRule = OptionRule(kind: OptionValueType, min: Cell?, max: Cell?)

  /** A rule's meaning, apart from where its bounds are stored. */
  datatype Bounds = Bounds(kind: OptionValueType, min: Option<real>, max: Option<real>)

  /** A `map[string]OptionRule`. */
  class RuleNode {
    var rules: map<string, OptionRule>

    constructor ()
      ensures rules == map[]
    {
      rules := map[];
    }
  }

  ghost predicate BoundHolds(c: Cell?, bound: Option<real>, region: set<object>)
    reads region
  {
    if c == null then bound.None? else c in region && bound == Some(c.number)
  }

  ghost predicate RuleHolds(rule: OptionRule, b: Bounds, region: set<object>)
    reads region
  {
    rule.kind == b.kind && BoundHolds(rule.min, b.min, region) && BoundHolds(rule.max, b.max, region)
  }

  ghost predicate EachRuleHolds(rules: map<string, OptionRule>, bounds: map<string, Bounds>, region: set<object>)
    reads region
  {
    rules.Keys <= bounds.Keys && forall key :: key in rules ==> RuleHolds(rules[key], bounds[key], region)
  }

  lemma EachRuleHoldsInLarger(rules: map<string, OptionRule>, bounds: map<string, Bounds>, region: set<object>, larger: set<object>)
    requires EachRuleHolds(rules, bounds, region) && region <= larger
    ensures EachRuleHolds(rules, bounds, larger)
  {
  }

  lemma OneRuleMore(rules: map<string, OptionRule>, bounds: map<string, Bounds>, region: set<object>,
                    key: string, rule: OptionRule, part: set<object>)
    requires EachRuleHolds(rules, bounds, region) && key in bounds && RuleHolds(rule, bounds[key], part)
    ensures EachRuleHolds(rules[key := rule], bounds, region + part)
  {
    EachRuleHoldsInLarger(rules, bounds, region, region + part);
  }

  /** A rules map, which may be nil, and all of its bounds lie in `region`. */
  ghost predicate RulesHold(node: RuleNode?, bounds: map<string, Bounds>, region: set<object>)
    reads region
  {
    if node == null then bounds == map[]
    else node in region && node.rules.Keys == bounds.Keys && EachRuleHolds(node.rules, bounds, region)
  }

  /** A rule with bounds of its own. */
  method CloneRule(rule: OptionRule, ghost b: Bounds, ghost region: set<object>)
      returns (cloned: OptionRule, ghost made: set<object>)
    requires RuleHolds(rule, b, region)
    ensures RuleHolds(cloned, b, made) && fresh(made)
  {
    cloned, made := rule, {};
    if rule.min != null {
      var value := new Cell(rule.min.number);
      cloned, made := cloned.(min := value), made + {value};
    }
    if rule.max != null {
      var value := new Cell(rule.max.number);
      cloned, made := cloned.(max := value), made + {value};
    }
  }

  /** A rules map of its own, with bounds of its own; nil stays nil. */
  method CloneRules(node: RuleNode?, ghost bounds: map<string, Bounds>, ghost region: set<object>)
      returns (cloned: RuleNode?, ghost made: set<object>)
    requires RulesHold(node, bounds, region)
    ensures RulesHold(cloned, bounds, made) && fresh(made)
    ensures cloned == null <==> node == null
  {
    made := {};
    if node == null {
      return null, made;
    }
    var copy := new RuleNode();
    var todo := node.rules.Keys;
    while todo != {}
      invariant todo <= node.rules.Keys && copy.rules.Keys == node.rules.Keys - todo
      invariant fresh(made) && copy !in made
      invariant EachRuleHolds(node.rules, bounds, region) && EachRuleHolds(copy.rules, bounds, made)
      decreases todo
    {
      var key :| key in todo;
      var rule, part := CloneRule(node.rules[key], bounds[key], region);
      OneRuleMore(copy.rules, bounds, made, key, rule, part);
      hide EachRuleHolds;
      made := made + part;
      copy.rules := copy.rules[key := rule];
      todo := todo - {key};
    }
    EachRuleHoldsInLarger(copy.rules, bounds, made, made + {copy});
    made := made + {copy};
    cloned := copy;
  }

  /** `OptionPolicy()`: the caller may write the rules it gets, and their bounds. */
  method OptionPolicy(t: TrainerPreset, ghost bounds: map<string, Bounds>, ghost region: set<object>)
      returns (policy: RuleNode?, ghost made: set<object>)
    requires RulesHold(t.record.rules, bounds, region)
    ensures RulesHold(policy, bounds, made) && fresh(made)
    ensures policy == null <==> t.record.rules == null
  {
    policy, made := CloneRules(t.record.rules, bounds, region);
  }

  /**
   * Whatever is written to a policy that was handed out, the preset's own policy stays what it was,
   * and the next one handed out says the same.
   */
  method OptionPolicyAgain(t: TrainerPreset, ghost written: set<object>, ghost bounds: map<string, Bounds>, ghost region: set<object>)
      returns (policy: RuleNode?, ghost made: set<object>)
    requires RulesHold(t.record.rules, bounds, region) && written !! region
    modifies written
    ensures RulesHold(t.record.rules, bounds, region)
    ensures RulesHold(policy, bounds, made) && fresh(made)
  {
    modify written;
    policy, made := OptionPolicy(t, bounds, region);
  }

  /** The struct `TrainerPreset`, as passed by value: its maps are shared by every copy of the struct. */
  datatype TrainerRecord = TrainerRecord(id: Uuid.Id, defaults: MapNode?, rules: RuleNode?)

  /** A registered `*TrainerPreset`. */
  class TrainerPreset {
    const record: TrainerRecord

    constructor (record: TrainerRecord)
      ensures this.record == record
    {
      this.record := record;
    }
  }

  /** `preset.Options` with its references. */
  datatype OptionsObject = OptionsObject(
    baseModel: Option<string>, datasets: Option<array?<DatasetRef>>, resources: Option<Resources>, parameters: MapNode?)

  ghost predicate DatasetsHold(datasets: array?<DatasetRef>, v: seq<DatasetRef>, region: set<object>)
    reads region
  {
    if datasets == null then v == [] else datasets in region && datasets[..] == v
  }

  ghost predicate OptionsHold(o: OptionsObject, v: Options, region: set<object>, shared: set<object>)
    reads region, shared
  {
    && o.baseModel == v.baseModel && o.resources == v.resources && (o.datasets.Some? <==> v.datasets.Some?)
    && (o.datasets.Some? ==> DatasetsHold(o.datasets.value, v.datasets.value, region))
    && Holds(MapOf(o.parameters), Object(v.parameters), region, shared)
  }

  ghost predicate RecordHolds(r: TrainerRecord, v: Options, region: set<object>, shared: set<object>)
    reads region, shared
  {
    v == Options(None, None, None, v.parameters) && Holds(MapOf(r.defaults), Object(v.parameters), region, shared)
  }

  /**
   * A value of the `Preset` interface: a trainer preset, which copies its defaults out, or another
   * implementation, which may hand out the very objects it keeps.
   */
  datatype Preset = Trainer(trainer: TrainerPreset) | Foreign(options: OptionsObject)

  ghost predicate PresetHolds(p: Preset, v: Options, region: set<object>, shared: set<object>)
    reads region, shared
  {
    match p
    case Trainer(t) => RecordHolds(t.record, v, region, shared)
    case Foreign(o) => OptionsHold(o, v, region, shared)
  }

  /** `Options()`; a trainer preset's answer is its caller's to keep. */
  method OptionsOf(p: Preset, ghost v: Options, ghost region: set<object>, ghost shared: set<object>)
      returns (o: OptionsObject, ghost given: set<object>)
    requires PresetHolds(p, v, region, shared)
    ensures OptionsHold(o, v, given, shared)
    ensures if p.Trainer? then fresh(given) else given == region
  {
    match p
    case Trainer(t) =>
      var parameters, made := CloneAnyMap(t.record.defaults, Object(v.parameters), region, shared);
      o, given := OptionsObject(None, None, None, parameters), made;
    case Foreign(options) =>
      o, given := options, region;
  }

  // StaticRegistry

  datatype RegistryError = Cancelled | NotFound(id: Uuid.Id)

  /** What a list of presets registers: of two with the same identifier the later one. */
  function RecordsById(records: seq<TrainerRecord>): (registered: map<Uuid.Id, TrainerRecord>)
    ensures forall id :: id in registered ==> registered[id] in records && registered[id].id == id
  {
    if records == [] then map[]
    else
      var last := records[|records| - 1];
      RecordsById(records[..|records| - 1])[last.id := last]
  }

  /** The last record of an identifier is the one registered. */
  lemma {:induction false} LastRecordIsRegistered(records: seq<TrainerRecord>, i: nat)
    requires i < |records| && forall j :: i < j < |records| ==> records[j].id != records[i].id
    ensures records[i].id in RecordsById(records) && RecordsById(records)[records[i].id] == records[i]
  {
    if i < |records| - 1 {
      LastRecordIsRegistered(records[..|records| - 1], i);
    }
  }

  predicate Ascending(ids: seq<Uuid.Id>) {
    forall i, j :: 0 <= i < j < |ids| ==> Less(Uuid.Print(ids[i]), Uuid.Print(ids[j]))
  }

  class StaticRegistry {
    const presets: map<Uuid.Id, TrainerPreset>

    ghost predicate Serves(registry: Registry, region: set<object>, shared: set<object>)
      reads region, shared
    {
      && presets.Keys == registry.Keys
      && forall id :: id in presets ==> presets[id].record.id == id && RecordHolds(presets[id].record, registry[id], region, shared)
    }

    /** Each preset struct is copied, so later changes to the arguments' own fields are not seen; maps stay shared. */
    constructor (records: seq<TrainerRecord>)
      ensures presets.Keys == RecordsById(records).Keys
      ensures forall id :: id in presets ==> fresh(presets[id]) && presets[id].record == RecordsById(records)[id]
    {
      var registered: map<Uuid.Id, TrainerPreset> := map[];
      for i := 0 to |records|
        invariant registered.Keys == RecordsById(records[..i]).Keys
        invariant forall id :: id in registered ==>
                    fresh(registered[id]) && registered[id].record == RecordsById(records[..i])[id]
      {
        var presetCopy := new TrainerPreset(records[i]);
        registered := registered[records[i].id := presetCopy];
        assert records[..i + 1][..i] == records[..i];
      }
      presets := registered;
      assert records[..|records|] == records;
    }

    /** All of the presets asked for, or the first identifier that has none. */
    method GetMany(cancelled: bool, ids: seq<Uuid.Id>) returns (r: Result<map<Uuid.Id, TrainerPreset>, RegistryError>)
      ensures cancelled ==> r == Err(Cancelled)
      ensures r.Ok? <==> !cancelled && forall id :: id in ids ==> id in presets
      ensures r.Ok? ==> (forall id :: id in r.value <==> id in ids) && forall id :: id in ids ==> r.value[id] == presets[id]
      ensures r.Err? && !cancelled ==>
                r.error.NotFound? && r.error.id !in presets
                && exists k :: 0 <= k < |ids| && ids[k] == r.error.id && forall j :: 0 <= j < k ==> ids[j] in presets
    {
      if cancelled {
        return Err(Cancelled);
      }
      var resolved: map<Uuid.Id, TrainerPreset> := map[];
      for i := 0 to |ids|
        invariant forall id :: id in resolved <==> id in ids[..i]
        invariant forall id :: id in resolved ==> id in presets && resolved[id] == presets[id]
      {
        if ids[i] !in presets {
          assert forall j :: 0 <= j < i ==> ids[j] in ids[..i];
          return Err(NotFound(ids[i]));
        }
        resolved := resolved[ids[i] := presets[ids[i]]];
      }
      assert ids[..|ids|] == ids;
      r := Ok(resolved);
    }

    method Get(cancelled: bool, id: Uuid.Id) returns (r: Result<TrainerPreset, RegistryError>)
      ensures r == if cancelled then Err(Cancelled) else if id in presets then Ok(presets[id]) else Err(NotFound(id))
    {
      var found := GetMany(cancelled, [id]);
      assert id in [id];
      match found
      case Err(e) => r := Err(e);
      case Ok(resolved) => r := Ok(resolved[id]);
    }

    /** Each registered preset exactly once, in the order of the identifiers' texts. */
    method List(cancelled: bool) returns (r: Result<seq<TrainerPreset>, RegistryError>, ghost ids: seq<Uuid.Id>)
      ensures cancelled ==> r == Err(Cancelled)
      ensures !cancelled ==>
                && r.Ok? && |r.value| == |ids| && Ascending(ids) && (forall id :: id in ids <==> id in presets)
                && (forall i, j :: 0 <= i < j < |ids| ==> ids[i] != ids[j])
                && forall i :: 0 <= i < |ids| ==> r.value[i] == presets[ids[i]]
    {
      ids := [];
      if cancelled {
        return Err(Cancelled), ids;
      }
      var sorted: seq<Uuid.Id> := [];
      var todo := presets.Keys;
      while todo != {}
        invariant todo <= presets.Keys && Ascending(sorted)
        invariant forall id :: id in sorted <==> id in presets.Keys - todo
        decreases todo
      {
        var id :| id in todo;
        sorted := InsertByText(sorted, id);
        todo := todo - {id};
      }
      assert forall j :: 0 <= j < |sorted| ==> sorted[j] in sorted;
      var listed: seq<TrainerPreset> := [];
      for i := 0 to |sorted|
        invariant |listed| == i && forall j :: 0 <= j < i ==> sorted[j] in presets && listed[j] == presets[sorted[j]]
      {
        listed := listed + [presets[sorted[i]]];
      }
      forall i, j | 0 <= i < j < |sorted|
        ensures sorted[i] != sorted[j]
      {
        AscendingIsDistinct(sorted, i, j);
      }
      r, ids := Ok(listed), sorted;
    }
  }

  /** One step of sorting by text. */
  method InsertByText(sorted: seq<Uuid.Id>, id: Uuid.Id) returns (longer: seq<Uuid.Id>)
    requires Ascending(sorted) && id !in sorted
    ensures Ascending(longer) && forall x :: x in longer <==> x in sorted || x == id
  {
    var k := 0;
    while k < |sorted| && Less(Uuid.Print(sorted[k]), Uuid.Print(id))
      invariant k <= |sorted| && forall j :: 0 <= j < k ==> Less(Uuid.Print(sorted[j]), Uuid.Print(id))
    {
      k := k + 1;
    }
    if k < |sorted| {
      TextsDiffer(sorted[k], id);
    }
    longer := sorted[..k] + [id] + sorted[k..];
    InsertedAscending(sorted, id, k);
    assert sorted == sorted[..k] + sorted[k..];
  }

  lemma TextsDiffer(a: Uuid.Id, b: Uuid.Id)
    requires a != b
    ensures Less(Uuid.Print(a), Uuid.Print(b)) || Less(Uuid.Print(b), Uuid.Print(a))
  {
    LessIsTotal(Uuid.Print(a), Uuid.Print(b));
    if Uuid.Print(a) == Uuid.Print(b) {
      Uuid.PrintIsInjective(a, b);
    }
  }

  lemma InsertedAscending(sorted: seq<Uuid.Id>, id: Uuid.Id, k: nat)
    requires Ascending(sorted) && k <= |sorted|
    requires forall j :: 0 <= j < k ==> Less(Uuid.Print(sorted[j]), Uuid.Print(id))
    requires k < |sorted| ==> Less(Uuid.Print(id), Uuid.Print(sorted[k]))
    ensures Ascending(sorted[..k] + [id] + sorted[k..])
  {
    hide Uuid.Print, Less;
    forall j | k <= j < |sorted|
      ensures Less(Uuid.Print(id), Uuid.Print(sorted[j]))
    {
      if k < j {
        LessIsTransitive(Uuid.Print(id), Uuid.Print(sorted[k]), Uuid.Print(sorted[j]));
      }
    }
  }

  /** An ascending list has no identifier twice. */
  lemma AscendingIsDistinct(ids: seq<Uuid.Id>, i: nat, j: nat)
    requires Ascending(ids) && i < j < |ids|
    ensures ids[i] != ids[j]
  {
    LessIsIrreflexive(Uuid.Print(ids[i]));
  }

  // Phase 0

  /** The rules of either Phase 0 preset. */
  function LoraBounds(): map<string, Bounds> {
    map["learning_rate" := Bounds(OptionFloat, Some(0.0), Some(1.0)),
        "num_epochs" := Bounds(OptionInt, Some(1.0), Some(100.0)),
        "max_seq_length" := Bounds(OptionInt, Some(128.0), Some(32768.0)),
        "lora_r" := Bounds(OptionInt, Some(1.0), Some(256.0)),
        "lora_alpha" := Bounds(OptionInt, Some(1.0), Some(512.0)),
        "micro_batch_size" := Bounds(OptionInt, Some(1.0), Some(64.0))]
  }

  /** A rule literal: each bound given is a new cell. */
  method NewRule(b: Bounds) returns (rule: OptionRule, ghost made: set<object>)
    ensures RuleHolds(rule, b, made) && fresh(made)
  {
    rule, made := OptionRule(b.kind, null, null), {};
    if b.min.Some? {
      var value := new Cell(b.min.value);
      rule, made := rule.(min := value), made + {value};
    }
    if b.max.Some? {
      var value := new Cell(b.max.value);
      rule, made := rule.(max := value), made + {value};
    }
  }

  /** `loraSFTOptionPolicy`: the rules of a Phase 0 preset, in a map of its own. */
  method LoraOptionPolicy() returns (node: RuleNode, ghost made: set<object>)
    ensures fresh(made) && RulesHold(node, LoraBounds(), made)
  {
    node := new RuleNode();
    made := {};
    var bounds := LoraBounds();
    hide LoraBounds;
    var todo := bounds.Keys;
    assert EachRuleHolds(map[], bounds, {});
    hide RuleHolds, EachRuleHolds;
    while todo != {}
      invariant todo <= bounds.Keys && node.rules.Keys == bounds.Keys - todo
      invariant fresh(made) && node !in made && EachRuleHolds(node.rules, bounds, made)
      decreases todo
    {
      var key :| key in todo;
      var rule, part := NewRule(bounds[key]);
      OneRuleMore(node.rules, bounds, made, key, rule, part);
      made := made + part;
      node.rules := node.rules[key := rule];
      todo := todo - {key};
    }
    EachRuleHoldsInLarger(node.rules, bounds, made, made + {node});
    made := made + {node};
  }

  /** The defaults of either Phase 0 preset, in a map of its own. */
  method LoraDefaultValues() returns (node: MapNode)
    ensures fresh(node) && Holds(MapOf(node), Object(LoraDefaults()), {node}, {})
  {
    node := new MapNode();
    node.entries := map key | key in LoraDefaults() :: Scalar(LoraDefaults()[key]);
    forall key | key in LoraDefaults()
      ensures Holds(node.entries[key], LoraDefaults()[key], {node}, {})
    {
      assert IsScalar(LoraDefaults()[key]);
    }
    hide LoraDefaults;
  }

  /** A record with the Phase 0 defaults and rules, in the storage `made`. */
  ghost predicate IsLora(record: TrainerRecord, made: set<object>)
    reads made
  {
    RecordHolds(record, LoraOptions(), made, {}) && RulesHold(record.rules, LoraBounds(), made)
  }

  /** `AxolotlLoRASFT` and `UnslothLoRASFT`: the same defaults and rules, each in storage of its own. */
  method LoraPreset(id: Uuid.Id) returns (record: TrainerRecord, ghost made: set<object>)
    ensures record.id == id && fresh(made) && IsLora(record, made)
  {
    var defaults := LoraDefaultValues();
    var rules, part := LoraOptionPolicy();
    hide LoraDefaults, LoraBounds;
    made := part + {defaults};
    HoldsInLarger(MapOf(defaults), Object(LoraDefaults()), {defaults}, made, {});
    RulesHoldInLarger(rules, LoraBounds(), part, made);
    record := TrainerRecord(id, defaults, rules);
  }

  /** The Phase 0 presets registered: the same defaults and rules, and no storage in common. */
  method NewPhase0Registry() returns (r: StaticRegistry, ghost axolotls: set<object>, ghost unsloths: set<object>)
    ensures fresh(r) && fresh(axolotls) && fresh(unsloths) && axolotls !! unsloths
    ensures r.Serves(Phase0Registry(), axolotls + unsloths, {})
    ensures IsLora(r.presets[Axolotl].record, axolotls) && IsLora(r.presets[Unsloth].record, unsloths)
  {
    hide IsLora, RecordHolds, RecordsById;
    var axolotl, unsloth;
    axolotl, axolotls := LoraPreset(Axolotl);
    unsloth, unsloths := LoraPreset(Unsloth);
    r := new StaticRegistry([axolotl, unsloth]);
    PresetsDiffer();
    TwoRegistered(axolotl, unsloth);
    ServesPhase0(r, axolotls, unsloths);
  }

  lemma PresetsDiffer()
    ensures Axolotl != Unsloth
  {
    assert Axolotl[0] != Unsloth[0];
  }

  lemma ServesPhase0(r: StaticRegistry, axolotls: set<object>, unsloths: set<object>)
    requires r.presets.Keys == {Axolotl, Unsloth}
    requires r.presets[Axolotl].record.id == Axolotl && r.presets[Unsloth].record.id == Unsloth
    requires IsLora(r.presets[Axolotl].record, axolotls) && IsLora(r.presets[Unsloth].record, unsloths)
    ensures r.Serves(Phase0Registry(), axolotls + unsloths, {})
  {
    hide LoraDefaults, LoraBounds, RulesHold, Holds;
    var a, u := r.presets[Axolotl].record, r.presets[Unsloth].record;
    HoldsInLarger(MapOf(a.defaults), Object(LoraDefaults()), axolotls, axolotls + unsloths, {});
    HoldsInLarger(MapOf(u.defaults), Object(LoraDefaults()), unsloths, axolotls + unsloths, {});
  }

  lemma TwoRegistered(a: TrainerRecord, b: TrainerRecord)
    requires a.id != b.id
    ensures RecordsById([a, b]) == map[a.id := a, b.id := b]
  {
    LastRecordIsRegistered([a, b], 0);
    LastRecordIsRegistered([a, b], 1);
  }

  lemma RulesHoldInLarger(node: RuleNode?, bounds: map<string, Bounds>, region: set<object>, larger: set<object>)
    requires RulesHold(node, bounds, region) && region <= larger
    ensures RulesHold(node, bounds, larger)
  {
    if node != null {
      EachRuleHoldsInLarger(node.rules, bounds, region, larger);
    }
  }
}
