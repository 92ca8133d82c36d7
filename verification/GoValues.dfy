/** Nested Go values as the heap objects they are, and the two deep copies. */
module GoValues {
  import opened Domain

  /** A `map[string]any`. */
  class MapNode {
    var entries: map<string, Any>

    constructor ()
      ensures entries == map[]
    {
      entries := map[];
    }
  }

  /** What any other reference in an `any` refers to: no copy reaches behind it. */
  class Referent {
    const address: nat
    var content: nat

    constructor (address: nat, content: nat)
      ensures this.address == address && this.content == content
    {
      this.address, this.content := address, content;
    }
  }

  /** A Go `any`: a plain value, a map, a slice, or another reference. Maps and slices can be nil. */
  datatype Any = Scalar(value: Value) | Shared(referent: Referent) | MapOf(node: MapNode?) | ListOf(cells: array?<Any>)

  predicate IsScalar(v: Value) { !v.List? && !v.Object? && !v.Referenced? }

  /**
   * `a` stands for the value `v`; every map and slice reachable from it lies in `region`, every other
   * referent in `shared`. Since `v` is finite, `a` has no cycle; parts of it may be shared.
   */
  ghost predicate Holds(a: Any, v: Value, region: set<object>, shared: set<object>)
    reads region, shared
    decreases v, 1
  {
    match a
    case Scalar(x) => v == x && IsScalar(x)
    case Shared(x) => x in shared && v == Referenced(x.address, x.content)
    case MapOf(node) =>
      v.Object? && if node == null then v.fields == map[] else node in region && EntriesHold(node.entries, v, region, shared)
    case ListOf(cells) =>
      v.List? && if cells == null then v.items == [] else (cells in region && CellsHold(cells[..], v, region, shared))
  }

  ghost predicate EntriesHold(entries: map<string, Any>, v: Value, region: set<object>, shared: set<object>)
    requires v.Object?
    reads region, shared
    decreases v, 0
  {
    entries.Keys == v.fields.Keys && forall key :: key in v.fields ==> Holds(entries[key], v.fields[key], region, shared)
  }

  ghost predicate CellsHold(cells: seq<Any>, v: Value, region: set<object>, shared: set<object>)
    requires v.List?
    reads region, shared
    decreases v, 0
  {
    |cells| == |v.items| && forall i :: 0 <= i < |v.items| ==> Holds(cells[i], v.items[i], region, shared)
  }

  lemma {:induction false} HoldsInLarger(a: Any, v: Value, region: set<object>, larger: set<object>, shared: set<object>)
    requires Holds(a, v, region, shared) && region <= larger
    ensures Holds(a, v, larger, shared)
    decreases v, 1
  {
    match a
    case Scalar(_) =>
    case Shared(_) =>
    case MapOf(node) =>
      if node != null {
        EntriesHoldInLarger(node.entries, v, region, larger, shared);
      }
    case ListOf(cells) =>
      if cells != null {
        CellsHoldInLarger(cells[..], v, region, larger, shared);
      }
  }

  lemma {:induction false} EntriesHoldInLarger(entries: map<string, Any>, v: Value, region: set<object>, larger: set<object>,
                                               shared: set<object>)
    requires v.Object? && EntriesHold(entries, v, region, shared) && region <= larger
    ensures EntriesHold(entries, v, larger, shared)
    decreases v, 0
  {
    forall key | key in v.fields
      ensures Holds(entries[key], v.fields[key], larger, shared)
    {
      HoldsInLarger(entries[key], v.fields[key], region, larger, shared);
    }
  }

  lemma {:induction false} CellsHoldInLarger(cells: seq<Any>, v: Value, region: set<object>, larger: set<object>, shared: set<object>)
    requires v.List? && CellsHold(cells, v, region, shared) && region <= larger
    ensures CellsHold(cells, v, larger, shared)
    decreases v, 0
  {
    forall i | 0 <= i < |v.items|
      ensures Holds(cells[i], v.items[i], larger, shared)
    {
      HoldsInLarger(cells[i], v.items[i], region, larger, shared);
    }
  }

  lemma {:induction false} HoldsWithMoreShared(a: Any, v: Value, region: set<object>, shared: set<object>, more: set<object>)
    requires Holds(a, v, region, shared) && shared <= more
    ensures Holds(a, v, region, more)
    decreases v
  {
    match a
    case Scalar(_) =>
    case Shared(_) =>
    case MapOf(node) =>
      if node != null {
        forall key | key in v.fields
          ensures Holds(node.entries[key], v.fields[key], region, more)
        {
          HoldsWithMoreShared(node.entries[key], v.fields[key], region, shared, more);
        }
      }
    case ListOf(cells) =>
      if cells != null {
        forall i | 0 <= i < |v.items|
          ensures Holds(cells[i], v.items[i], region, more)
        {
          HoldsWithMoreShared(cells[i], v.items[i], region, shared, more);
        }
      }
  }

  /** In one heap a Go value stands for at most one value. */
  lemma {:induction false} HoldsOneValue(a: Any, v: Value, w: Value, region: set<object>, other: set<object>, shared: set<object>)
    requires Holds(a, v, region, shared) && Holds(a, w, other, shared)
    ensures v == w
    decreases v
  {
    match a
    case Scalar(_) =>
    case Shared(_) =>
    case MapOf(node) =>
      if node != null {
        forall key | key in v.fields
          ensures v.fields[key] == w.fields[key]
        {
          HoldsOneValue(node.entries[key], v.fields[key], w.fields[key], region, other, shared);
        }
        assert v.fields == w.fields;
      }
    case ListOf(cells) =>
      if cells != null {
        forall i | 0 <= i < |v.items|
          ensures v.items[i] == w.items[i]
        {
          HoldsOneValue(cells[i], v.items[i], w.items[i], region, other, shared);
        }
        assert v.items == w.items;
      }
  }

  // What a value refers to behind its maps and slices.

  predicate HasReference(v: Value) {
    match v
    case Referenced(_, _) => true
    case Object(fields) => exists key :: key in fields && HasReference(fields[key])
    case List(items) => exists i :: 0 <= i < |items| && HasReference(items[i])
    case _ => false
  }

  predicate Mentions(v: Value, address: nat, content: nat) {
    match v
    case Referenced(a, c) => a == address && c == content
    case Object(fields) => exists key :: key in fields && Mentions(fields[key], address, content)
    case List(items) => exists i :: 0 <= i < |items| && Mentions(items[i], address, content)
    case _ => false
  }

  lemma {:induction false} ReferenceIsMentioned(v: Value)
    requires HasReference(v)
    ensures exists address, content :: Mentions(v, address, content)
  {
    match v
    case Referenced(a, c) =>
      assert Mentions(v, a, c);
    case Object(fields) =>
      var key :| key in fields && HasReference(fields[key]);
      ReferenceIsMentioned(fields[key]);
      var a, c :| Mentions(fields[key], a, c);
      assert Mentions(v, a, c);
    case List(items) =>
      var i :| 0 <= i < |items| && HasReference(items[i]);
      ReferenceIsMentioned(items[i]);
      var a, c :| Mentions(items[i], a, c);
      assert Mentions(v, a, c);
  }

  /** A value holds without anything shared exactly when it has no other reference. */
  lemma {:induction false} HoldsAloneIff(a: Any, v: Value, region: set<object>, shared: set<object>)
    requires Holds(a, v, region, shared)
    ensures Holds(a, v, region, {}) <==> !HasReference(v)
    decreases v
  {
    match a
    case Scalar(_) =>
    case Shared(_) =>
    case MapOf(node) =>
      if node != null {
        forall key | key in v.fields
          ensures Holds(node.entries[key], v.fields[key], region, {}) <==> !HasReference(v.fields[key])
        {
          HoldsAloneIff(node.entries[key], v.fields[key], region, shared);
        }
      }
    case ListOf(cells) =>
      if cells != null {
        forall i | 0 <= i < |v.items|
          ensures Holds(cells[i], v.items[i], region, {}) <==> !HasReference(v.items[i])
        {
          HoldsAloneIff(cells[i], v.items[i], region, shared);
        }
      }
  }

  /** A referent of this content at this address. */
  ghost predicate Refers(shared: set<object>, address: nat, content: nat)
    reads shared
  {
    exists r: Referent :: r in shared && r.address == address && r.content == content
  }

  /** Every reference a value mentions is to one of the shared referents, as it is now. */
  lemma {:induction false} MentionedIsShared(a: Any, v: Value, region: set<object>, shared: set<object>, address: nat, content: nat)
    requires Holds(a, v, region, shared) && Mentions(v, address, content)
    ensures Refers(shared, address, content)
    decreases v
  {
    match a
    case Scalar(_) =>
    case Shared(r) =>
      assert r in shared && r.address == address && r.content == content;
    case MapOf(node) =>
      var key :| key in v.fields && Mentions(v.fields[key], address, content);
      MentionedIsShared(node.entries[key], v.fields[key], region, shared, address, content);
    case ListOf(cells) =>
      var i :| 0 <= i < |v.items| && Mentions(v.items[i], address, content);
      MentionedIsShared(cells[i], v.items[i], region, shared, address, content);
  }

  /** Two referents have different addresses. */
  ghost predicate DistinctAddresses(shared: set<object>) {
    forall r: Referent, q: Referent :: r in shared && q in shared && r.address == q.address ==> r == q
  }

  // copyValue

  /** The copy equals the value; its maps and slices are all new, other references are the very same. */
  method CopyValue(a: Any, ghost v: Value, ghost region: set<object>, ghost shared: set<object>) returns (c: Any, ghost made: set<object>)
    requires Holds(a, v, region, shared)
    ensures Holds(c, v, made, shared) && fresh(made)
    ensures c.MapOf? ==> c.node != null
    ensures c.ListOf? ==> c.cells != null
    decreases v, 1
  {
    match a
    case MapOf(node) =>
      var cloned := new MapNode();
      if node == null {
        made := {cloned};
      } else {
        made := CopyEntries(node.entries, cloned, v, region, map[], {}, shared);
        assert map[] + v.fields == v.fields;
        EntriesHoldInLarger(cloned.entries, v, made, made + {cloned}, shared);
        made := made + {cloned};
      }
      c := MapOf(cloned);
    case ListOf(cells) =>
      var cloned: array<Any>;
      if cells == null {
        cloned := new Any[0];
        made := {cloned};
      } else {
        cloned, made := CopyCells(cells[..], v, region, shared);
      }
      c := ListOf(cloned);
    case _ =>
      c, made := a, {};
  }

  /** What a key holds once copies of `own` have been assigned for the keys no longer in `todo`. */
  ghost function Later(v: map<string, Value>, own: map<string, Value>, todo: set<string>, key: string): Value
    requires todo <= own.Keys && (key in v || (key in own && key !in todo))
  {
    if key in own && key !in todo then own[key] else v[key]
  }

  /** Entries on their way from `v` to `v + own`. */
  ghost predicate Assigned(entries: map<string, Any>, v: map<string, Value>, own: map<string, Value>, todo: set<string>,
                           region: set<object>, shared: set<object>)
    reads region, shared
  {
    && todo <= own.Keys && entries.Keys == v.Keys + (own.Keys - todo)
    && forall key :: key in entries ==> Holds(entries[key], Later(v, own, todo, key), region, shared)
  }

  lemma OneAssigned(entries: map<string, Any>, v: map<string, Value>, own: map<string, Value>, todo: set<string>,
                    region: set<object>, key: string, item: Any, part: set<object>, shared: set<object>)
    requires Assigned(entries, v, own, todo, region, shared) && key in todo && Holds(item, own[key], part, shared)
    ensures Assigned(entries[key := item], v, own, todo - {key}, region + part, shared)
  {
    HoldsInLarger(item, own[key], part, region + part, shared);
    forall k | k in entries && k != key
      ensures Holds(entries[k], Later(v, own, todo - {key}, k), region + part, shared)
    {
      HoldsInLarger(entries[k], Later(v, own, todo, k), region, region + part, shared);
    }
    hide Holds;
  }

  lemma AllAssigned(entries: map<string, Any>, v: map<string, Value>, own: map<string, Value>, region: set<object>, shared: set<object>)
    requires Assigned(entries, v, own, {}, region, shared)
    ensures EntriesHold(entries, Object(v + own), region, shared)
  {
    forall key | key in entries
      ensures Holds(entries[key], (v + own)[key], region, shared)
    {
      assert Later(v, own, {}, key) == (v + own)[key];
    }
    hide Holds;
  }

  /** Assigns copies of a map's values, key by key in whatever order the map yields them; other keys keep theirs. */
  method CopyEntries(entries: map<string, Any>, into: MapNode, ghost own: Value, ghost region: set<object>,
                     ghost v: map<string, Value>, ghost parts: set<object>, ghost shared: set<object>) returns (ghost more: set<object>)
    requires own.Object? && EntriesHold(entries, own, region, shared) && into !in region
    requires EntriesHold(into.entries, Object(v), parts, shared) && into !in parts && into !in shared
    modifies into
    ensures EntriesHold(into.entries, Object(v + own.fields), more, shared) && into !in more
    ensures more >= parts && fresh(more - parts)
    decreases own, 0
  {
    var todo := entries.Keys;
    more := parts;
    while todo != {}
      invariant EntriesHold(entries, own, region, shared) && todo <= entries.Keys
      invariant more >= parts && fresh(more - parts) && into !in more
      invariant Assigned(into.entries, v, own.fields, todo, more, shared)
      decreases todo
    {
      var key :| key in todo;
      var item, part := CopyValue(entries[key], own.fields[key], region, shared);
      OneAssigned(into.entries, v, own.fields, todo, more, key, item, part, shared);
      hide Holds, Assigned;
      more := more + part;
      into.entries := into.entries[key := item];
      todo := todo - {key};
    }
    AllAssigned(into.entries, v, own.fields, more, shared);
  }

  method CopyCells(cells: seq<Any>, ghost v: Value, ghost region: set<object>, ghost shared: set<object>)
      returns (cloned: array<Any>, ghost made: set<object>)
    requires v.List? && CellsHold(cells, v, region, shared)
    ensures fresh(cloned) && fresh(made) && cloned in made && CellsHold(cloned[..], v, made, shared)
    decreases v, 0
  {
    cloned := new Any[|cells|];
    ghost var parts: set<object> := {};
    for i := 0 to |cells|
      invariant CellsHold(cells, v, region, shared)
      invariant fresh(parts) && cloned !in parts
      invariant forall j :: 0 <= j < i ==> Holds(cloned[j], v.items[j], parts, shared)
    {
      var item, part := CopyValue(cells[i], v.items[i], region, shared);
      forall j | 0 <= j < i
        ensures Holds(cloned[j], v.items[j], parts + part, shared)
      {
        HoldsInLarger(cloned[j], v.items[j], parts, parts + part, shared);
      }
      HoldsInLarger(item, v.items[i], part, parts + part, shared);
      parts := parts + part;
      cloned[i] := item;
    }
    made := parts + {cloned};
    assert CellsHold(cloned[..], v, parts, shared);
    CellsHoldInLarger(cloned[..], v, parts, made, shared);
  }

  // cloneAny and cloneAnyMap: the same, except that a nil map stays nil.

  method CloneAny(a: Any, ghost v: Value, ghost region: set<object>, ghost shared: set<object>) returns (c: Any, ghost made: set<object>)
    requires Holds(a, v, region, shared)
    ensures Holds(c, v, made, shared) && fresh(made)
    ensures a.MapOf? ==> c.MapOf? && (c.node == null <==> a.node == null)
    ensures a.ListOf? ==> c.ListOf? && c.cells != null
    decreases v, 2
  {
    match a
    case MapOf(node) =>
      var cloned;
      cloned, made := CloneAnyMap(node, v, region, shared);
      c := MapOf(cloned);
    case ListOf(cells) =>
      var cloned: array<Any>;
      if cells == null {
        cloned := new Any[0];
        made := {cloned};
      } else {
        cloned, made := CloneCells(cells[..], v, region, shared);
      }
      c := ListOf(cloned);
    case _ =>
      c, made := a, {};
  }

  method CloneAnyMap(node: MapNode?, ghost v: Value, ghost region: set<object>, ghost shared: set<object>)
      returns (cloned: MapNode?, ghost made: set<object>)
    requires Holds(MapOf(node), v, region, shared)
    ensures Holds(MapOf(cloned), v, made, shared) && fresh(made)
    ensures cloned == null <==> node == null
    decreases v, 1
  {
    if node == null {
      return null, {};
    }
    var into := new MapNode();
    var todo := node.entries.Keys;
    ghost var parts: set<object> := {};
    while todo != {}
      invariant todo <= node.entries.Keys && into.entries.Keys == node.entries.Keys - todo
      invariant EntriesHold(node.entries, v, region, shared)
      invariant fresh(parts) && into !in parts
      invariant forall key :: key in into.entries ==> Holds(into.entries[key], v.fields[key], parts, shared)
      decreases todo
    {
      var key :| key in todo;
      var item, part := CloneAny(node.entries[key], v.fields[key], region, shared);
      forall k | k in into.entries
        ensures Holds(into.entries[k], v.fields[k], parts + part, shared)
      {
        HoldsInLarger(into.entries[k], v.fields[k], parts, parts + part, shared);
      }
      HoldsInLarger(item, v.fields[key], part, parts + part, shared);
      parts := parts + part;
      into.entries := into.entries[key := item];
      todo := todo - {key};
    }
    made := parts + {into};
    assert EntriesHold(into.entries, v, parts, shared);
    EntriesHoldInLarger(into.entries, v, parts, made, shared);
    cloned := into;
  }

  method CloneCells(cells: seq<Any>, ghost v: Value, ghost region: set<object>, ghost shared: set<object>)
      returns (cloned: array<Any>, ghost made: set<object>)
    requires v.List? && CellsHold(cells, v, region, shared)
    ensures fresh(cloned) && fresh(made) && cloned in made && CellsHold(cloned[..], v, made, shared)
    decreases v, 0
  {
    cloned := new Any[|cells|];
    ghost var parts: set<object> := {};
    for i := 0 to |cells|
      invariant CellsHold(cells, v, region, shared)
      invariant fresh(parts) && cloned !in parts
      invariant forall j :: 0 <= j < i ==> Holds(cloned[j], v.items[j], parts, shared)
    {
      var item, part := CloneAny(cells[i], v.items[i], region, shared);
      forall j | 0 <= j < i
        ensures Holds(cloned[j], v.items[j], parts + part, shared)
      {
        HoldsInLarger(cloned[j], v.items[j], parts, parts + part, shared);
      }
      HoldsInLarger(item, v.items[i], part, parts + part, shared);
      parts := parts + part;
      cloned[i] := item;
    }
    made := parts + {cloned};
    assert CellsHold(cloned[..], v, parts, shared);
    CellsHoldInLarger(cloned[..], v, parts, made, shared);
  }
}
