/** What the holder of a record can do with its maps and slices, and that a clone and its original do not notice what
    is done to the other. */
module Edits {
  import opened Slices
  import opened Normalise
  import opened Marshal
  import opened Clone
  import Records

  // --- Edits ----------------------------------------------------------------------------------------------

  /** A new slice with the given elements. */
  method Allocate<V(0)>(vs: seq<V>) returns (s: Slice<V>)
    ensures s.Valid() && fresh(s.arr) && s.Value() == vs
  {
    var a := new V[|vs|];
    for i := 0 to |vs|
      invariant forall j :: 0 <= j < i ==> a[j] == vs[j]
    {
      a[i] := vs[i];
    }
    s := Slice(a, |vs|);
    assert s.Value() == vs;
  }

  /** append: within the spare capacity of the array if there is any, on a new array otherwise. */
  method Append<V(0)>(s: Slice<V>, v: V) returns (r: Slice<V>)
    requires s.Valid()
    modifies s.arr
    ensures r.Valid() && (r.arr == s.arr || fresh(r.arr)) && r.Value() == old(s.Value()) + [v]
    ensures s.len < s.arr.Length ==> r.arr == s.arr
  {
    if s.len < s.arr.Length {
      s.arr[s.len] := v;
      r := Slice(s.arr, s.len + 1);
      assert r.Value() == old(s.Value()) + [v];
    } else {
      r := Allocate(s.Value() + [v]);
    }
  }

  /** What a holder of a record can do with its maps and slices, marshalling included. */
  datatype Edit =
    | SetIdentity(t: Records.IdentityType, j: nat, identity: Records.IdentityEntry)
    | AddIdentity(t: Records.IdentityType, identity: Records.IdentityEntry)
    | PutIdentities(t: Records.IdentityType, identities: seq<Records.IdentityEntry>)
    | DropIdentities(t: Records.IdentityType)
    | SetResource(name: string, j: nat, resource: Records.ResourceEntry)
    | AddResource(name: string, resource: Records.ResourceEntry)
    | PutResources(name: string, resources: seq<Records.ResourceEntry>)
    | DropResources(name: string)
    | SetCategory(j: nat, category: nat)
    | AddCategory(category: nat)
    | SetLevel(j: nat, level: string)
    | AddLevel(level: string)
    | MarshalIt

  // --- What they mean for the value of a record -------------------------------------------------------------

  function SetAt<V>(s: seq<V>, j: nat, v: V): seq<V> {
    if j < |s| then s[j := v] else s
  }

  function SetIn<K, V>(m: map<K, seq<V>>, k: K, j: nat, v: V): map<K, seq<V>> {
    if k in m then m[k := SetAt(m[k], j, v)] else m
  }

  /** A missing entry reads as an empty slice. */
  function AddIn<K, V>(m: map<K, seq<V>>, k: K, v: V): map<K, seq<V>> {
    m[k := (if k in m then m[k] else []) + [v]]
  }

  function EditedIdentities(m: map<Records.IdentityType, seq<Records.IdentityEntry>>, e: Edit)
    : map<Records.IdentityType, seq<Records.IdentityEntry>>
  {
    match e
    case SetIdentity(k, j, x) => SetIn(m, k, j, x)
    case AddIdentity(k, x) => AddIn(m, k, x)
    case PutIdentities(k, xs) => m[k := xs]
    case DropIdentities(k) => m - {k}
    case _ => m
  }

  function EditedResources(m: map<string, seq<Records.ResourceEntry>>, e: Edit)
    : map<string, seq<Records.ResourceEntry>>
  {
    match e
    case SetResource(k, j, x) => SetIn(m, k, j, x)
    case AddResource(k, x) => AddIn(m, k, x)
    case PutResources(k, xs) => m[k := xs]
    case DropResources(k) => m - {k}
    case _ => m
  }

  function EditedCategories(s: seq<nat>, e: Edit): seq<nat> {
    match e
    case SetCategory(j, v) => SetAt(s, j, v)
    case AddCategory(v) => s + [v]
    case MarshalIt => Left(CATEGORIES, s)
    case _ => s
  }

  function EditedLevels(s: seq<string>, e: Edit): seq<string> {
    match e
    case SetLevel(j, v) => SetAt(s, j, v)
    case AddLevel(v) => s + [v]
    case MarshalIt => Left(LEVELS, s)
    case _ => s
  }

  /** The value of a record after an edit. A nil map, of identities or of resources, is not edited: Go panics. */
  function Edited(a: Records.Record, identities: bool, resources: bool, e: Edit): Records.Record {
    a.(callerIdentities := if identities then EditedIdentities(a.callerIdentities, e) else a.callerIdentities,
       targetResources := if resources then EditedResources(a.targetResources, e) else a.targetResources,
       operationCategories := EditedCategories(a.operationCategories, e),
       callerAccessLevels := EditedLevels(a.callerAccessLevels, e))
  }

  function EditedAll(a: Records.Record, identities: bool, resources: bool, edits: seq<Edit>): Records.Record {
    if edits == [] then a
    else
      var k := |edits| - 1;
      Edited(EditedAll(a, identities, resources, edits[..k]), identities, resources, edits[k])
  }

  // --- On the heap ----------------------------------------------------------------------------------------

  /** Assign to an element of an entry. */
  method SetEntry<K, V>(t: Table<K, Slice<V>>, k: K, j: nat, v: V)
    requires TableValid(t)
    modifies TableStorage(t)
    ensures TableValid(t) && TableStorage(t) == old(TableStorage(t)) && t.m == old(t.m)
    ensures old(TableUnshared(t)) ==> TableUnshared(t) && TableValue(t) == SetIn(old(TableValue(t)), k, j, v)
  {
    if k in t.m && j < t.m[k].len {
      t.m[k].arr[j] := v;
      assert t.m[k].Value() == old(t.m[k].Value())[j := v];
    }
  }

  /** Assign a new slice to an entry, new or not. */
  method PutEntry<K, V(0)>(t: Table<K, Slice<V>>, k: K, vs: seq<V>)
    requires TableValid(t)
    modifies t
    ensures TableValid(t) && fresh(TableStorage(t) - old(TableStorage(t)))
    ensures TableValue(t) == old(TableValue(t))[k := vs]
    ensures old(TableUnshared(t)) ==> TableUnshared(t)
  {
    var s := Allocate(vs);
    t.m := t.m[k := s];
  }

  /** Append to an entry, new or not. */
  method AddEntry<K, V(0)>(t: Table<K, Slice<V>>, k: K, v: V)
    requires TableValid(t)
    modifies TableStorage(t)
    ensures TableValid(t) && fresh(TableStorage(t) - old(TableStorage(t)))
    ensures old(TableUnshared(t)) ==> TableUnshared(t) && TableValue(t) == AddIn(old(TableValue(t)), k, v)
  {
    if k in t.m {
      var s := Append(t.m[k], v);
      t.m := t.m[k := s];
    } else {
      assert [] + [v] == [v];
      PutEntry(t, k, [v]);
    }
  }

  method DropEntries<K, V>(t: Table<K, Slice<V>>, k: K)
    requires TableValid(t)
    modifies t
    ensures TableValid(t) && TableStorage(t) <= old(TableStorage(t))
    ensures TableValue(t) == old(TableValue(t)) - {k}
    ensures old(TableUnshared(t)) ==> TableUnshared(t)
  {
    t.m := t.m - {k};
  }

  /** An edit of the identities. */
  method EditIdentities(t: Table<Records.IdentityType, Slice<Records.IdentityEntry>>, e: Edit)
    requires TableValid(t)
    modifies TableStorage(t)
    ensures TableValid(t) && fresh(TableStorage(t) - old(TableStorage(t)))
    ensures old(TableUnshared(t)) ==>
              TableUnshared(t) && TableValue(t) == EditedIdentities(old(TableValue(t)), e)
  {
    match e
    case SetIdentity(k, j, x) => SetEntry(t, k, j, x);
    case AddIdentity(k, x) => AddEntry(t, k, x);
    case PutIdentities(k, xs) => PutEntry(t, k, xs);
    case DropIdentities(k) => DropEntries(t, k);
    case _ =>
  }

  /** An edit of the resources. */
  method EditResources(t: Table<string, Slice<Records.ResourceEntry>>, e: Edit)
    requires TableValid(t)
    modifies TableStorage(t)
    ensures TableValid(t) && fresh(TableStorage(t) - old(TableStorage(t)))
    ensures old(TableUnshared(t)) ==>
              TableUnshared(t) && TableValue(t) == EditedResources(old(TableValue(t)), e)
  {
    match e
    case SetResource(k, j, x) => SetEntry(t, k, j, x);
    case AddResource(k, x) => AddEntry(t, k, x);
    case PutResources(k, xs) => PutEntry(t, k, xs);
    case DropResources(k) => DropEntries(t, k);
    case _ =>
  }

  /** An edit of the two lists: the headers as the holder of the record has them then. */
  method EditLists(r: Record, e: Edit) returns (c: Record)
    requires r.categories.Valid() && r.levels.Valid()
    modifies r.categories.arr, r.levels.arr
    ensures c == r.(categories := c.categories, levels := c.levels)
    ensures c.categories.Valid() && (c.categories.arr == r.categories.arr || fresh(c.categories.arr))
    ensures c.levels.Valid() && (c.levels.arr == r.levels.arr || fresh(c.levels.arr))
    ensures c.categories.Value() == EditedCategories(old(r.categories.Value()), e)
    ensures c.levels.Value() == EditedLevels(old(r.levels.Value()), e)
  {
    c := r;
    match e
    case SetCategory(j, v) => SetElement(r.categories, j, v);
    case SetLevel(j, v) => SetElement(r.levels, j, v);
    case AddCategory(v) =>
      var s := Append(r.categories, v);
      c := r.(categories := s);
    case AddLevel(v) =>
      var s := Append(r.levels, v);
      c := r.(levels := s);
    case MarshalIt =>
      CategoriesValid();
      LevelsValid();
      var _ := SortCompact(CATEGORIES, r.categories);
      var _ := SortCompact(LEVELS, r.levels);
    case _ =>
  }

  method SetElement<V>(s: Slice<V>, j: nat, v: V)
    requires s.Valid()
    modifies s.arr
    ensures s.Value() == SetAt(old(s.Value()), j, v)
  {
    if j < s.len {
      s.arr[j] := v;
      assert s.Value() == old(s.Value())[j := v];
    }
  }

  /** A table none of whose storage was written has its value. */
  twostate lemma TableKept<K, V>(t: Table?<K, Slice<V>>)
    requires old(TableValid(t)) && forall o <- old(TableStorage(t)) :: unchanged(o)
    ensures TableValid(t) && TableStorage(t) == old(TableStorage(t)) && TableValue(t) == old(TableValue(t))
  {
    if t != null {
      assert t in old(TableStorage(t));
      forall k <- t.m ensures t.m[k].Valid() && t.m[k].Value() == old(t.m[k].Value()) {
        assert t.m[k].arr in old(TableStorage(t));
      }
    }
  }

  twostate lemma RecordKept(r: Record)
    requires old(Valid(r)) && forall o <- old(Storage(r)) :: unchanged(o)
    ensures Valid(r) && Storage(r) == old(Storage(r)) && Value(r) == old(Value(r))
  {
    forall o <- old(TableStorage(r.identities)) ensures unchanged(o) { assert o in old(Storage(r)); }
    TableKept(r.identities);
    forall o <- old(TableStorage(r.resources)) ensures unchanged(o) { assert o in old(Storage(r)); }
    TableKept(r.resources);
  }

  function NewIdentities(r: Record, m: map<Records.IdentityType, seq<Records.IdentityEntry>>, e: Edit)
    : map<Records.IdentityType, seq<Records.IdentityEntry>>
  {
    if r.identities == null then m else EditedIdentities(m, e)
  }

  function NewResources(r: Record, m: map<string, seq<Records.ResourceEntry>>, e: Edit)
    : map<string, seq<Records.ResourceEntry>>
  {
    if r.resources == null then m else EditedResources(m, e)
  }

  method ApplyIdentities(r: Record, e: Edit)
    requires TableValid(r.identities)
    modifies TableStorage(r.identities)
    ensures TableValid(r.identities) && fresh(TableStorage(r.identities) - old(TableStorage(r.identities)))
    ensures old(TableUnshared(r.identities)) ==>
              && TableUnshared(r.identities)
              && TableValue(r.identities) == NewIdentities(r, old(TableValue(r.identities)), e)
  {
    if r.identities != null { EditIdentities(r.identities, e); }
  }

  method ApplyResources(r: Record, e: Edit)
    requires TableValid(r.resources)
    modifies TableStorage(r.resources)
    ensures TableValid(r.resources) && fresh(TableStorage(r.resources) - old(TableStorage(r.resources)))
    ensures old(TableUnshared(r.resources)) ==>
              TableUnshared(r.resources) && TableValue(r.resources) == NewResources(r, old(TableValue(r.resources)), e)
  {
    if r.resources != null { EditResources(r.resources, e); }
  }

  /** The tables of a record are what ApplyIdentities and ApplyResources made of them. */
  twostate predicate TablesEdited(r: Record, e: Edit)
    requires old(TableValid(r.identities)) && old(TableValid(r.resources))
    reads r.identities, r.resources, TableStorage(r.identities), TableStorage(r.resources)
  {
    && TableValid(r.identities) && fresh(TableStorage(r.identities) - old(TableStorage(r.identities)))
    && TableValid(r.resources) && fresh(TableStorage(r.resources) - old(TableStorage(r.resources)))
    && (old(TableUnshared(r.identities)) ==>
          TableUnshared(r.identities) && TableValue(r.identities) == NewIdentities(r, old(TableValue(r.identities)), e))
    && (old(TableUnshared(r.resources)) ==>
          TableUnshared(r.resources) && TableValue(r.resources) == NewResources(r, old(TableValue(r.resources)), e))
  }

  /** Things of different types are different things. */
  lemma PartsApart(r: Record)
    requires Valid(r)
    ensures TableStorage(r.identities) !! TableStorage(r.resources)
    ensures r.categories.arr !in TableStorage(r.identities) + TableStorage(r.resources)
    ensures r.levels.arr !in TableStorage(r.identities) + TableStorage(r.resources)
  {
  }

  method ApplyTables(r: Record, e: Edit)
    requires Valid(r)
    modifies TableStorage(r.identities), TableStorage(r.resources)
    ensures TablesEdited(r, e)
  {
    PartsApart(r);
    ghost var resources := TableStorage(r.resources);
    ApplyIdentities(r, e);
    label Identities:
    assert forall o <- resources :: unchanged(o);
    TableKept(r.resources);
    assert TableStorage(r.identities) !! TableStorage(r.resources) by { PartsApart(r); }
    ApplyResources(r, e);
    TableKept@Identities(r.identities);
  }

  /** The new storage of a record is its old one, as far as it is not new altogether. */
  twostate lemma StorageGrows(r: Record, new c: Record)
    requires c.identities == r.identities && c.resources == r.resources
    requires fresh(TableStorage(r.identities) - old(TableStorage(r.identities)))
    requires fresh(TableStorage(r.resources) - old(TableStorage(r.resources)))
    requires c.categories.arr == r.categories.arr || fresh(c.categories.arr)
    requires c.levels.arr == r.levels.arr || fresh(c.levels.arr)
    ensures fresh(Storage(c) - old(Storage(r)))
  {
    forall o <- Storage(c) - old(Storage(r)) ensures fresh(o) {
      if o in TableStorage(r.identities) {
        assert o in TableStorage(r.identities) - old(TableStorage(r.identities));
      } else if o in TableStorage(r.resources) {
        assert o in TableStorage(r.resources) - old(TableStorage(r.resources));
      }
    }
  }

  /** The lists of a record are what EditLists made of them. */
  twostate predicate ListsEdited(r: Record, new c: Record, e: Edit)
    requires r.categories.Valid() && r.levels.Valid()
    reads c.categories.arr, c.levels.arr
  {
    && c == r.(categories := c.categories, levels := c.levels)
    && c.categories.Valid() && (c.categories.arr == r.categories.arr || fresh(c.categories.arr))
    && c.levels.Valid() && (c.levels.arr == r.levels.arr || fresh(c.levels.arr))
    && c.categories.Value() == EditedCategories(old(r.categories.Value()), e)
    && c.levels.Value() == EditedLevels(old(r.levels.Value()), e)
  }

  method ListsAway(r: Record, e: Edit, ghost others: set<object>) returns (c: Record)
    requires r.categories.Valid() && r.levels.Valid() && r.categories.arr !in others && r.levels.arr !in others
    modifies r.categories.arr, r.levels.arr
    ensures ListsEdited(r, c, e) && forall o <- others :: unchanged(o)
  {
    c := EditLists(r, e);
  }

  method ApplyParts(r: Record, e: Edit) returns (c: Record)
    requires Valid(r)
    modifies Storage(r)
    ensures TablesEdited(r, e) && ListsEdited(r, c, e)
  {
    PartsApart(r);
    ApplyTables(r, e);
    label Tables:
    assert r.categories.Value() == old(r.categories.Value()) && r.levels.Value() == old(r.levels.Value());
    PartsApart(r);
    c := ListsAway(r, e, TableStorage(r.identities) + TableStorage(r.resources));
    TableKept@Tables(r.identities);
    TableKept@Tables(r.resources);
  }

  /** An edit of a record, which has exactly its value as effect if no array is shared between entries. */
  method Apply(r: Record, e: Edit) returns (c: Record)
    requires Valid(r)
    modifies Storage(r)
    ensures Valid(c) && fresh(Storage(c) - old(Storage(r)))
    ensures c.identities == r.identities && c.resources == r.resources
    ensures old(Unshared(r)) ==>
              && Unshared(c)
              && Value(c) == Edited(old(Value(r)), r.identities != null, r.resources != null, e)
  {
    c := ApplyParts(r, e);
    StorageGrows(r, c);
  }

  /** Any number of edits of a record with the storage mine; after is the storage it has then. */
  method ApplyAll(r: Record, edits: seq<Edit>, ghost mine: set<object>) returns (c: Record, ghost after: set<object>)
    requires Valid(r) && Storage(r) == mine
    modifies mine
    ensures Valid(c) && Storage(c) == after && fresh(after - mine)
    ensures old(Unshared(r)) ==> IsEdited(c, old(Value(r)), r.identities != null, r.resources != null, edits)
  {
    c, after := r, mine;
    ghost var was := Value(r);
    for i := 0 to |edits|
      invariant Valid(c) && Storage(c) == after && fresh(after - mine)
      invariant c.identities == r.identities && c.resources == r.resources
      invariant old(Unshared(r)) ==> IsEdited(c, was, r.identities != null, r.resources != null, edits[..i])
    {
      assert edits[..i + 1][..i] == edits[..i];
      c := Apply(c, edits[i]);
      after := Storage(c);
    }
    assert edits[..|edits|] == edits;
  }

  /** The record shares nothing between its entries, and has the value was after these edits. */
  ghost predicate IsEdited(c: Record, was: Records.Record, identities: bool, resources: bool, edits: seq<Edit>)
    requires Valid(c)
    reads c.identities, c.resources, Storage(c)
  {
    Unshared(c) && Value(c) == EditedAll(was, identities, resources, edits)
  }

  // --- Isolation ------------------------------------------------------------------------------------------

  twostate lemma StaysFresh(new a: set<object>, new b: set<object>)
    requires fresh(a) && fresh(b - a)
    ensures fresh(b)
  {
    forall o <- b ensures fresh(o) {
      if o !in a { assert o in b - a; }
    }
  }

  method FreshClone(r: Record) returns (c: Record, ghost mine: set<object>)
    requires Valid(r)
    ensures Valid(c) && Storage(c) == mine && fresh(mine) && Unshared(c) && Value(c) == old(Value(r))
    ensures (c.identities == null <==> r.identities == null) && (c.resources == null <==> r.resources == null)
  {
    c := CloneRecord(r);
    mine := Storage(c);
  }

  /** A clone, edited: it has the value of the original after these edits, and no object that existed before is
      written. */
  method CloneAndEdit(r: Record, edits: seq<Edit>, ghost others: set<object>) returns (edited: Record)
    requires Valid(r)
    ensures Valid(edited) && fresh(Storage(edited)) && forall o <- others :: unchanged(o)
    ensures IsEdited(edited, old(Value(r)), r.identities != null, r.resources != null, edits)
  {
    ghost var mine, after;
    var c;
    c, mine := FreshClone(r);
    edited, after := ApplyAll(c, edits, mine);
    StaysFresh(mine, after);
  }

  /** Edits of a clone have exactly the effect they have on the value of a record, and whatever they are, the original
      keeps its own. */
  method EditClone(r: Record, edits: seq<Edit>) returns (edited: Record)
    requires Valid(r)
    ensures Valid(r) && Value(r) == old(Value(r))
    ensures Valid(edited) && fresh(Storage(edited))
    ensures Value(edited) == EditedAll(old(Value(r)), r.identities != null, r.resources != null, edits)
  {
    edited := CloneAndEdit(r, edits, Storage(r));
    RecordKept(r);
  }

  method CloneApart(r: Record) returns (c: Record)
    requires Valid(r)
    ensures Valid(r) && Value(r) == old(Value(r)) && Storage(r) == old(Storage(r)) && (old(Unshared(r)) ==> Unshared(r))
    ensures Valid(c) && Value(c) == Value(r) && fresh(Storage(c)) && Storage(r) !! Storage(c)
  {
    ghost var was := Storage(r);
    assert forall o <- was :: allocated(o);
    c := CloneRecord(r);
    RecordKept(r);
  }

  method ApplyAway(r: Record, edits: seq<Edit>, ghost mine: set<object>, ghost others: set<object>)
      returns (edited: Record)
    requires Valid(r) && Storage(r) == mine && mine !! others
    modifies mine
    ensures Valid(edited) && forall o <- others :: unchanged(o)
    ensures old(Unshared(r)) ==> IsEdited(edited, old(Value(r)), r.identities != null, r.resources != null, edits)
  {
    ghost var after;
    edited, after := ApplyAll(r, edits, mine);
  }

  /** Edits of one record leave a record with other storage alone. */
  method EditBeside(r: Record, c: Record, edits: seq<Edit>) returns (edited: Record)
    requires Valid(r) && Valid(c) && Storage(r) !! Storage(c)
    modifies Storage(r)
    ensures Valid(c) && Value(c) == old(Value(c)) && Valid(edited)
    ensures old(Unshared(r)) ==> IsEdited(edited, old(Value(r)), r.identities != null, r.resources != null, edits)
  {
    edited := ApplyAway(r, edits, Storage(r), Storage(c));
    RecordKept(c);
  }

  /** And whatever is done to the original, the clone keeps the value the original had. */
  method EditOriginal(r: Record, edits: seq<Edit>) returns (c: Record, edited: Record)
    requires Valid(r)
    modifies Storage(r)
    ensures Valid(c) && Value(c) == old(Value(r))
    ensures Valid(edited)
    ensures old(Unshared(r)) ==>
              Value(edited) == EditedAll(old(Value(r)), r.identities != null, r.resources != null, edits)
  {
    c := CloneApart(r);
    edited := EditBeside(r, c, edits);
  }
}
