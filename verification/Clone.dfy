/** Record.Clone on records whose maps and slices are references. */
module Clone {
  import opened Slices
  import Records

  // --- Storage --------------------------------------------------------------------------------------------

  /** A Go map: a reference to its entries. */
  class Table<K(==), V> {
    var m: map<K, V>

    constructor (m: map<K, V>)
      ensures this.m == m
    {
      this.m := m;
    }
  }

  class Cell {
    var content: int

    constructor (content: int)
      ensures this.content == content
    {
      this.content := content;
    }
  }

  /** A value of CustomData: without references, with a reference, or with one and a Clone method that copies what it
      refers to. */
  datatype Custom = Plain(v: int) | Ref(cell: Cell) | Cloner(cell: Cell)

  /** The parts of a Record that are references, and everything else by value (base's own lists and maps are not
      looked at). */
  datatype Record = Record(
    base: Records.Record,
    identities: Table?<Records.IdentityType, Slice<Records.IdentityEntry>>,
    categories: Slice<nat>,
    resources: Table?<string, Slice<Records.ResourceEntry>>,
    levels: Slice<string>,
    custom: Table?<string, Custom>)

  ghost predicate TableValid<K, V>(t: Table?<K, Slice<V>>)
    reads t
  {
    t != null ==> forall k <- t.m :: t.m[k].Valid()
  }

  ghost function TableStorage<K, V>(t: Table?<K, Slice<V>>): set<object>
    reads t
  {
    if t == null then {} else {t} + set k | k in t.m :: t.m[k].arr
  }

  /** What a map of slices holds, entry by entry. */
  ghost function TableValue<K, V>(t: Table?<K, Slice<V>>): map<K, seq<V>>
    requires TableValid(t)
    reads t, TableStorage(t)
  {
    if t == null then map[] else map k | k in t.m :: t.m[k].Value()
  }

  /** No two entries of the map are slices of one array. */
  ghost predicate TableUnshared<K, V>(t: Table?<K, Slice<V>>)
    reads t
  {
    t != null ==> forall k <- t.m, j <- t.m :: k != j ==> t.m[k].arr != t.m[j].arr
  }

  ghost predicate Unshared(r: Record)
    reads r.identities, r.resources
  {
    TableUnshared(r.identities) && TableUnshared(r.resources)
  }

  ghost predicate Valid(r: Record)
    reads r.identities, r.resources
  {
    TableValid(r.identities) && TableValid(r.resources) && r.categories.Valid() && r.levels.Valid()
  }

  /** Everything a holder of the record can write through its identities, resources, categories and levels. */
  ghost function Storage(r: Record): set<object>
    reads r.identities, r.resources
  {
    TableStorage(r.identities) + TableStorage(r.resources) + {r.categories.arr, r.levels.arr}
  }

  /** The record's value, custom data apart. */
  ghost function Value(r: Record): Records.Record
    requires Valid(r)
    reads r.identities, r.resources, Storage(r)
  {
    r.base.(callerIdentities := TableValue(r.identities), targetResources := TableValue(r.resources),
            operationCategories := r.categories.Value(), callerAccessLevels := r.levels.Value())
  }

  // --- Clone ----------------------------------------------------------------------------------------------

  /** slices.Clone, and the make and copy of the map cloners. */
  method CloneSlice<V(0)>(s: Slice<V>) returns (c: Slice<V>)
    requires s.Valid()
    ensures c.Valid() && fresh(c.arr) && c.Value() == s.Value()
  {
    var a := new V[s.len];
    for i := 0 to s.len
      invariant forall j :: 0 <= j < i ==> a[j] == s.arr[j]
    {
      a[i] := s.arr[i];
    }
    c := Slice(a, s.len);
    assert c.Value() == s.Value();
  }

  /** cloneCallerIdentities and cloneTargetResources: nil for nil, otherwise a new map of new slices. */
  method CloneTable<K(==), V(0)>(t: Table?<K, Slice<V>>) returns (c: Table?<K, Slice<V>>)
    requires TableValid(t)
    ensures c == null <==> t == null
    ensures TableValid(c) && fresh(TableStorage(c)) && TableValue(c) == TableValue(t) && TableUnshared(c)
  {
    if t == null {
      return null;
    }
    c := new Table(map[]);
    var rest := t.m.Keys;
    while rest != {}
      invariant rest <= t.m.Keys && c != null && fresh(c) && c.m.Keys == t.m.Keys - rest
      invariant TableUnshared(c) && ClonedSoFar(t, c)
      invariant forall k <- c.m :: fresh(c.m[k].arr)
    {
      var k :| k in rest;
      PutClone(t, c, k);
      rest := rest - {k};
    }
    assert TableValue(c) == TableValue(t);
  }

  /** The entries of c are those of t. */
  ghost predicate ClonedSoFar<K, V>(t: Table<K, Slice<V>>, c: Table<K, Slice<V>>)
    requires TableValid(t)
    reads t, TableStorage(t), c, TableStorage(c)
  {
    TableValid(c) && forall k <- c.m :: k in t.m && c.m[k].Value() == t.m[k].Value()
  }

  /** One round of the loop. */
  method PutClone<K(==), V(0)>(t: Table<K, Slice<V>>, c: Table<K, Slice<V>>, k: K)
    requires TableValid(t) && t != c && k in t.m && k !in c.m
    requires TableUnshared(c) && ClonedSoFar(t, c)
    modifies c
    ensures c.m.Keys == old(c.m.Keys) + {k} && forall j <- old(c.m) :: c.m[j] == old(c.m[j])
    ensures TableUnshared(c) && ClonedSoFar(t, c) && fresh(c.m[k].arr)
  {
    var copy := CloneSlice(t.m[k]);
    c.m := c.m[k := copy];
  }

  /** cloneCustomData: a new map; a value that is a Cloner is cloned, any other is copied, references and all. */
  method CloneCustom(t: Table?<string, Custom>) returns (c: Table?<string, Custom>)
    ensures c == null <==> t == null
    ensures c != null ==>
              && fresh(c) && c.m.Keys == t.m.Keys
              && forall k <- t.m ::
                   match t.m[k]
                   case Cloner(cell) => c.m[k].Cloner? && fresh(c.m[k].cell) && c.m[k].cell.content == cell.content
                   case _ => c.m[k] == t.m[k]
  {
    if t == null {
      return null;
    }
    c := new Table(map[]);
    var rest := t.m.Keys;
    while rest != {}
      invariant rest <= t.m.Keys && c != null && fresh(c) && c.m.Keys == t.m.Keys - rest
      invariant forall k <- c.m ::
                  match t.m[k]
                  case Cloner(cell) => c.m[k].Cloner? && fresh(c.m[k].cell) && c.m[k].cell.content == cell.content
                  case _ => c.m[k] == t.m[k]
    {
      var k :| k in rest;
      match t.m[k] {
        case Cloner(cell) =>
          var copy := new Cell(cell.content);
          c.m := c.m[k := Cloner(copy)];
        case v =>
          c.m := c.m[k := v];
      }
      rest := rest - {k};
    }
  }

  /** Clone: equal in value, and made of nothing that existed before, references inside custom data apart. */
  method CloneRecord(r: Record) returns (c: Record)
    requires Valid(r)
    ensures Valid(c) && fresh(Storage(c)) && Value(c) == Value(r) && Unshared(c)
    ensures (c.identities == null <==> r.identities == null) && (c.resources == null <==> r.resources == null)
    ensures c.custom == null <==> r.custom == null
    ensures c.custom != null ==>
              && fresh(c.custom) && c.custom.m.Keys == r.custom.m.Keys
              && forall k <- r.custom.m ::
                   match r.custom.m[k]
                   case Cloner(cell) =>
                     c.custom.m[k].Cloner? && fresh(c.custom.m[k].cell)
                     && c.custom.m[k].cell.content == cell.content
                   case _ => c.custom.m[k] == r.custom.m[k]
  {
    var custom := CloneCustom(r.custom);
    c := CloneParts(r);
    c := c.(custom := custom);
  }

  /** Everything but the custom data. */
  method CloneParts(r: Record) returns (c: Record)
    requires Valid(r)
    ensures Valid(c) && fresh(Storage(c)) && Value(c) == Value(r) && Unshared(c)
    ensures (c.identities == null <==> r.identities == null) && (c.resources == null <==> r.resources == null)
  {
    var categories, levels := CloneLists(r);
    label Lists:
    var identities, resources := CloneTables(r);
    assert categories.Value() == old@Lists(categories.Value()) && levels.Value() == old@Lists(levels.Value());
    c := Record(r.base, identities, categories, resources, levels, null);
  }

  method CloneTables(r: Record)
    returns (identities: Table?<Records.IdentityType, Slice<Records.IdentityEntry>>,
             resources: Table?<string, Slice<Records.ResourceEntry>>)
    requires Valid(r)
    ensures TableValid(identities) && TableValid(resources)
    ensures fresh(TableStorage(identities)) && fresh(TableStorage(resources))
    ensures TableValue(identities) == TableValue(r.identities)
    ensures TableValue(resources) == TableValue(r.resources)
    ensures TableUnshared(identities) && TableUnshared(resources)
    ensures (identities == null <==> r.identities == null) && (resources == null <==> r.resources == null)
  {
    identities := CloneTable(r.identities);
    resources := CloneTable(r.resources);
  }

  method CloneLists(r: Record) returns (categories: Slice<nat>, levels: Slice<string>)
    requires Valid(r)
    ensures categories.Valid() && levels.Valid() && fresh(categories.arr) && fresh(levels.arr)
    ensures categories.Value() == r.categories.Value() && levels.Value() == r.levels.Value()
  {
    categories := CloneSlice(r.categories);
    levels := CloneSlice(r.levels);
  }
}
