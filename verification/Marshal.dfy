/** marshalPrep on messages whose slices share their backing arrays with the caller and with the copy that is
    requeued after a failed write. */
module Marshal {
  import opened Slices
  import opened Normalise
  import Records
  import opened Protocol

  // --- The two orders -------------------------------------------------------------------------------------

  const CATEGORIES: Order<nat> := Order((x: nat, y: nat) => x <= y, 0)

  /** Go's order on strings. */
  predicate StringLeq(s: string, t: string) {
    s == [] || (t != [] && (s[0] < t[0] || (s[0] == t[0] && StringLeq(s[1..], t[1..]))))
  }

  const LEVELS: Order<string> := Order(StringLeq, "")

  lemma CategoriesValid()
    ensures CATEGORIES.Valid()
  {
  }

  lemma {:induction false} StringLeqTotal(s: string, t: string)
    ensures StringLeq(s, t) || StringLeq(t, s)
    ensures StringLeq(s, t) && StringLeq(t, s) ==> s == t
  {
    if s != [] && t != [] {
      StringLeqTotal(s[1..], t[1..]);
      assert s == [s[0]] + s[1..] && t == [t[0]] + t[1..];
    }
  }

  lemma {:induction false} StringLeqTransitive(s: string, t: string, u: string)
    requires StringLeq(s, t) && StringLeq(t, u)
    ensures StringLeq(s, u)
  {
    if s != [] && s[0] == t[0] == u[0] {
      StringLeqTransitive(s[1..], t[1..], u[1..]);
    }
  }

  /** Go's order: a beginning comes before the whole, and otherwise the first difference decides. */
  ghost predicate ComesBefore(s: string, t: string) {
    s <= t || exists i: nat :: SmallerAt(s, t, i)
  }

  /** s and t first differ at i, and s has the smaller character there. */
  ghost predicate SmallerAt(s: string, t: string, i: nat) {
    i < |s| && i < |t| && s[..i] == t[..i] && (s[i] as int) < t[i] as int
  }

  lemma {:induction false} StringLeqMeans(s: string, t: string)
    ensures StringLeq(s, t) <==> ComesBefore(s, t)
  {
    if s != [] && t != [] {
      if s[0] == t[0] {
        StringLeqMeans(s[1..], t[1..]);
        SameHead(s, t);
      } else {
        HeadDecides(s, t);
      }
    }
  }

  lemma HeadDecides(s: string, t: string)
    requires s != [] && t != [] && s[0] != t[0]
    ensures ComesBefore(s, t) <==> s[0] < t[0]
  {
    if s[0] < t[0] { assert s[..0] == t[..0] && SmallerAt(s, t, 0); }
    forall i: nat | SmallerAt(s, t, i) ensures i == 0 {
      if i > 0 { SameUpTo(s, t, i); }
    }
  }

  lemma SameUpTo(s: string, t: string, i: nat)
    requires 0 < i && SmallerAt(s, t, i)
    ensures s[0] == t[0]
  {
    assert s[..i][0] == t[..i][0];
  }

  lemma SameHead(s: string, t: string)
    requires s != [] && t != [] && s[0] == t[0]
    ensures ComesBefore(s, t) <==> ComesBefore(s[1..], t[1..])
  {
    var a, b := s[1..], t[1..];
    assert s == [s[0]] + a && t == [t[0]] + b;
    assert s <= t <==> a <= b;
    forall i: nat ensures SmallerAt(s, t, i + 1) <==> SmallerAt(a, b, i) { OneFurther(s, t, i); }
    if i: nat :| SmallerAt(s, t, i) {
      assert SmallerAt(s, t, (i - 1) + 1) ==> SmallerAt(a, b, i - 1);
    }
  }

  lemma OneFurther(s: string, t: string, i: nat)
    requires s != [] && t != [] && s[0] == t[0]
    ensures SmallerAt(s, t, i + 1) <==> SmallerAt(s[1..], t[1..], i)
  {
    var a, b := s[1..], t[1..];
    if i < |a| && i < |b| {
      assert s[..i + 1] == [s[0]] + a[..i] && t[..i + 1] == [t[0]] + b[..i];
      assert a[..i] == s[..i + 1][1..] && b[..i] == t[..i + 1][1..];
    }
  }

  lemma LevelsValid()
    ensures LEVELS.Valid()
  {
    forall s: string, t: string
      ensures LEVELS.leq(s, t) || LEVELS.leq(t, s)
      ensures LEVELS.leq(s, t) && LEVELS.leq(t, s) ==> s == t
    {
      StringLeqTotal(s, t);
    }
    forall s: string, t: string, u: string | LEVELS.leq(s, t) && LEVELS.leq(t, u) ensures LEVELS.leq(s, u) {
      StringLeqTransitive(s, t, u);
    }
  }

  // --- Messages -------------------------------------------------------------------------------------------

  /** A message as it is copied through the send channel: the two lists are slice headers, everything else is part of
      the value (record's own two lists are not looked at). */
  datatype Message = Message(typ: MsgType, record: Records.Record, categories: Slice<nat>, levels: Slice<string>) {
    ghost predicate Valid() {
      categories.Valid() && levels.Valid()
    }

    /** The record as a reader of the message sees it now. */
    function Seen(): Records.Record
      requires Valid()
      reads categories.arr, levels.arr
    {
      record.(operationCategories := categories.Value(), callerAccessLevels := levels.Value())
    }
  }

  /** The record marshalPrep puts into the payload. */
  function Normalised(a: Records.Record): Records.Record {
    a.(operationCategories := Payload(CATEGORIES, a.operationCategories),
       callerAccessLevels := Payload(LEVELS, a.callerAccessLevels))
  }

  /** The record that the header given to marshalPrep sees afterwards. */
  function Scrubbed(a: Records.Record): Records.Record {
    a.(operationCategories := Left(CATEGORIES, a.operationCategories),
       callerAccessLevels := Left(LEVELS, a.callerAccessLevels))
  }

  /** a with other lists. */
  function WithLists(a: Records.Record, categories: seq<nat>, levels: seq<string>): Records.Record {
    a.(operationCategories := categories, callerAccessLevels := levels)
  }

  /** The record that the header sees after n marshallings of its arrays. */
  function ScrubbedAfter(a: Records.Record, n: nat): Records.Record {
    WithLists(a, LeftAfter(CATEGORIES, a.operationCategories, n), LeftAfter(LEVELS, a.callerAccessLevels, n))
  }

  lemma ScrubbedNext(a: Records.Record, n: nat)
    ensures ScrubbedAfter(a, n + 1) == Scrubbed(ScrubbedAfter(a, n))
  {
    LeftNext(CATEGORIES, a.operationCategories, n);
    LeftNext(LEVELS, a.callerAccessLevels, n);
  }

  lemma LeftNext<T(!new)>(o: Order<T>, s: seq<T>, n: nat)
    ensures LeftAfter(o, s, n + 1) == Left(o, LeftAfter(o, s, n))
  {
  }

  /** slices.Sort and slices.Compact on one list. */
  method SortCompact<T(==, !new)>(o: Order<T>, s: Slice<T>) returns (r: Slice<T>)
    requires o.Valid() && s.Valid()
    modifies s.arr
    ensures r.Valid() && r.arr == s.arr
    ensures r.Value() == Payload(o, old(s.Value()))
    ensures s.Value() == Left(o, old(s.Value()))
    ensures forall x :: s.len <= x < s.arr.Length ==> s.arr[x] == old(s.arr[x])
  {
    ghost var was := s.Value();
    SortSlice(o, s);
    PayloadProperties(o, was);
    ghost var p := Payload(o, was);
    r := Compact(o, s);
    assert r.len == |p| && s.Value() == p + Zeros(o.zero, s.len - |p|);
    FirstPart(p, Zeros(o.zero, s.len - |p|));
    assert r.Value() == s.Value()[..|p|];
  }

  lemma FirstPart<T>(p: seq<T>, z: seq<T>)
    ensures (p + z)[..|p|] == p
  {
  }

  method SortSlice<T(==, !new)>(o: Order<T>, s: Slice<T>)
    requires o.Valid() && s.Valid()
    modifies s.arr
    ensures s.Value() == Arranged(o, old(s.Value()))
    ensures forall x :: s.len <= x < s.arr.Length ==> s.arr[x] == old(s.arr[x])
  {
    ghost var was := s.Value();
    ghost var tail := s.arr[s.len..];
    Sort(o, s.arr, s.len);
    ArrangedProperties(o, was);
    AscendingUnique(o, s.Value(), Arranged(o, was));
    forall x | s.len <= x < s.arr.Length ensures s.arr[x] == old(s.arr[x]) {
      assert s.arr[s.len..][x - s.len] == tail[x - s.len];
    }
  }

  datatype Prepared = Body(msg: Message) | NoRecord | UnknownType

  /** What goes over the wire for a user message: the name of its type, here the type, and its record. */
  datatype Packet = Packet(typ: MsgType, record: Records.Record)

  /** marshalPrep. The payload is the message with its lists normalised; the arrays behind them are the message's. */
  method MarshalPrep(m: Message) returns (r: Prepared)
    requires m.Valid()
    modifies m.categories.arr, m.levels.arr
    ensures r.Body? <==> UserType(m.typ)
    ensures r.UnknownType? <==> m.typ == AT_UNKNOWN || m.typ > DIAGNOSTIC
    ensures r.Body? ==>
              && r.msg.Valid() && r.msg.categories.arr == m.categories.arr && r.msg.levels.arr == m.levels.arr
              && r.msg.Seen() == Normalised(old(m.Seen()))
              && m.Seen() == Scrubbed(old(m.Seen()))
    ensures r.Body? ==>
              && r.msg == m.(categories := r.msg.categories, levels := r.msg.levels)
              && r.msg.categories.len == |Payload(CATEGORIES, old(m.categories.Value()))|
              && r.msg.levels.len == |Payload(LEVELS, old(m.levels.Value()))|
    ensures !r.Body? ==> m.Seen() == old(m.Seen())
    ensures forall x :: m.categories.len <= x < m.categories.arr.Length ==>
                          m.categories.arr[x] == old(m.categories.arr[x])
    ensures forall x :: m.levels.len <= x < m.levels.arr.Length ==> m.levels.arr[x] == old(m.levels.arr[x])
  {
    if m.typ == DATA_PLANE || m.typ == CONTROL_PLANE {
      CategoriesValid();
      LevelsValid();
      var categories := SortCompact(CATEGORIES, m.categories);
      var levels := SortCompact(LEVELS, m.levels);
      return Body(m.(categories := categories, levels := levels));
    }
    if m.typ == HEARTBEAT || m.typ == DIAGNOSTIC {
      return NoRecord;
    }
    return UnknownType;
  }

  /** Any number of attempts to write one message, each of which marshals it again. */
  method MarshalTimes(m: Message, k: nat)
    requires m.Valid() && UserType(m.typ)
    modifies m.categories.arr, m.levels.arr
    ensures m.Seen() == ScrubbedAfter(old(m.Seen()), k)
    ensures forall x :: m.categories.len <= x < m.categories.arr.Length ==>
                          m.categories.arr[x] == old(m.categories.arr[x])
    ensures forall x :: m.levels.len <= x < m.levels.arr.Length ==> m.levels.arr[x] == old(m.levels.arr[x])
  {
    ghost var was := m.Seen();
    for i := 0 to k
      invariant m.Seen() == ScrubbedAfter(was, i)
      invariant forall x :: m.categories.len <= x < m.categories.arr.Length ==>
                              m.categories.arr[x] == old(m.categories.arr[x])
      invariant forall x :: m.levels.len <= x < m.levels.arr.Length ==> m.levels.arr[x] == old(m.levels.arr[x])
    {
      ScrubbedNext(was, i);
      var _ := MarshalPrep(m);
    }
  }

  /** A connection that fails some times and then works: every attempt marshals the same message again, which write
      had requeued as it was. What is sent at last is what the last attempt marshalled. */
  method DeliverAfter(m: Message, failures: nat) returns (sent: Message)
    requires m.Valid() && UserType(m.typ)
    modifies m.categories.arr, m.levels.arr
    ensures sent.Valid() && sent.categories.arr == m.categories.arr && sent.levels.arr == m.levels.arr
    ensures sent.typ == m.typ
    ensures sent.Seen() == Normalised(ScrubbedAfter(old(m.Seen()), failures))
  {
    MarshalTimes(m, failures);
    var r := MarshalPrep(m);
    sent := r.msg;
  }

  // --- What is sent ---------------------------------------------------------------------------------------

  lemma ScrubbedOnce(a: Records.Record, categories: seq<nat>, levels: seq<string>)
    ensures Scrubbed(WithLists(a, categories, levels))
            == WithLists(a, Left(CATEGORIES, categories), Left(LEVELS, levels))
    ensures Normalised(WithLists(a, categories, levels))
            == WithLists(a, Payload(CATEGORIES, categories), Payload(LEVELS, levels))
  {
  }

  /** What is sent after n failed attempts. */
  lemma RetriedRecord(a: Records.Record, n: nat)
    requires n >= 1
    ensures Normalised(ScrubbedAfter(a, n))
            == WithLists(a, Payload(CATEGORIES, Left(CATEGORIES, a.operationCategories)),
                         Payload(LEVELS, Left(LEVELS, a.callerAccessLevels)))
  {
    CategoriesValid();
    LevelsValid();
    LaterPayloads(CATEGORIES, a.operationCategories, n);
    LaterPayloads(LEVELS, a.callerAccessLevels, n);
    ScrubbedOnce(a, LeftAfter(CATEGORIES, a.operationCategories, n), LeftAfter(LEVELS, a.callerAccessLevels, n));
  }

  /** What is sent violates exactly the checks that the record violates as the message's headers see it when it is
      marshalled. That is the record Send validated if nobody has written the arrays since. */
  lemma FirstPayloadKeepsChecks(a: Records.Record, c: Records.Check)
    ensures Records.Violates(Normalised(a), c) <==> Records.Violates(a, c)
  {
    CategoriesValid();
    LevelsValid();
    NoneLost(CATEGORIES, a.operationCategories);
    NoneLost(LEVELS, a.callerAccessLevels);
  }

  lemma NoneLost<T(!new)>(o: Order<T>, s: seq<T>)
    requires o.Valid()
    ensures SameElements(Payload(o, s), s) && (Payload(o, s) == [] <==> s == [])
  {
    PayloadProperties(o, s);
    assert s != [] ==> s[0] in Payload(o, s);
    assert Payload(o, s) != [] ==> Payload(o, s)[0] in s;
  }

  /** A valid record sent from arrays that were marshalled before, by a failed write of the same message or otherwise:
      it differs from what the first attempt would have sent
      unless the categories and the access levels were free of duplicates (or UnknownOperationCategory, the zero
      value, was among the categories already). */
  lemma RetrySendsTheSame(a: Records.Record, n: nat)
    requires Records.IsValid(a) && n >= 1
    ensures Normalised(ScrubbedAfter(a, n)) == Normalised(a)
            <==> (NoDuplicates(a.operationCategories) || 0 in a.operationCategories)
                 && NoDuplicates(a.callerAccessLevels)
    ensures Normalised(ScrubbedAfter(a, n)) == Normalised(ScrubbedAfter(a, 1))
  {
    CategoriesValid();
    LevelsValid();
    RetriedRecord(a, n);
    RetriedRecord(a, 1);
    SecondPayload(CATEGORIES, a.operationCategories);
    SecondPayload(LEVELS, a.callerAccessLevels);
    assert !Records.Violates(a, Records.AccessLevelBlank);
    SameLists(a, Payload(CATEGORIES, Left(CATEGORIES, a.operationCategories)),
              Payload(LEVELS, Left(LEVELS, a.callerAccessLevels)),
              Payload(CATEGORIES, a.operationCategories), Payload(LEVELS, a.callerAccessLevels));
  }

  lemma SameLists(a: Records.Record, c: seq<nat>, l: seq<string>, d: seq<nat>, k: seq<string>)
    ensures WithLists(a, c, l) == WithLists(a, d, k) <==> c == d && l == k
  {
  }

  /** What the headers of a valid record see once it was marshalled is valid exactly if its access levels had no
      duplicates; otherwise there is an empty level among them. */
  lemma SeenStaysValid(a: Records.Record, n: nat)
    requires Records.IsValid(a) && n >= 1
    ensures Records.IsValid(ScrubbedAfter(a, n)) <==> NoDuplicates(a.callerAccessLevels)
    ensures !NoDuplicates(a.callerAccessLevels) ==> Records.Violates(ScrubbedAfter(a, n), Records.AccessLevelBlank)
  {
    RetriedLevels(a, n);
    RetriedCategories(a, n);
    OnlyBlankLevels(a, ScrubbedAfter(a, n));
  }

  /** So with a duplicate among the access levels a retried record is sent with an empty level. */
  lemma RetryStaysValid(a: Records.Record, n: nat)
    requires Records.IsValid(a) && n >= 1
    ensures Records.IsValid(Normalised(ScrubbedAfter(a, n))) <==> NoDuplicates(a.callerAccessLevels)
    ensures !NoDuplicates(a.callerAccessLevels) ==>
              Records.Violates(Normalised(ScrubbedAfter(a, n)), Records.AccessLevelBlank)
  {
    var b := ScrubbedAfter(a, n);
    SeenStaysValid(a, n);
    forall c: Records.Check ensures Records.Violates(Normalised(b), c) <==> Records.Violates(b, c) {
      FirstPayloadKeepsChecks(b, c);
    }
  }

  lemma RetriedLevels(a: Records.Record, n: nat)
    requires n >= 1
    ensures var b := ScrubbedAfter(a, n).callerAccessLevels;
      forall x :: x in b <==> x in a.callerAccessLevels || (x == "" && !NoDuplicates(a.callerAccessLevels))
  {
    LevelsValid();
    LaterPayloads(LEVELS, a.callerAccessLevels, n);
    forall x
      ensures x in ScrubbedAfter(a, n).callerAccessLevels
              <==> x in a.callerAccessLevels || (x == "" && !NoDuplicates(a.callerAccessLevels))
    {
      LeftElements(LEVELS, a.callerAccessLevels, x);
    }
  }

  lemma RetriedCategories(a: Records.Record, n: nat)
    requires n >= 1
    ensures var b := ScrubbedAfter(a, n).operationCategories;
      forall x :: x in b <==> x in a.operationCategories || (x == 0 && !NoDuplicates(a.operationCategories))
  {
    CategoriesValid();
    LaterPayloads(CATEGORIES, a.operationCategories, n);
    forall x
      ensures x in ScrubbedAfter(a, n).operationCategories
              <==> x in a.operationCategories || (x == 0 && !NoDuplicates(a.operationCategories))
    {
      LeftElements(CATEGORIES, a.operationCategories, x);
    }
  }

  /** b is a with other lists: the same levels and perhaps the empty one, the same categories and perhaps 0. */
  lemma OnlyBlankLevels(a: Records.Record, b: Records.Record)
    requires Records.IsValid(a)
    requires b == WithLists(a, b.operationCategories, b.callerAccessLevels)
    requires forall x :: x in b.callerAccessLevels
                         <==> x in a.callerAccessLevels || (x == "" && !NoDuplicates(a.callerAccessLevels))
    requires forall x :: x in b.operationCategories
                         <==> x in a.operationCategories || (x == 0 && !NoDuplicates(a.operationCategories))
    ensures Records.IsValid(b) <==> NoDuplicates(a.callerAccessLevels)
    ensures !NoDuplicates(a.callerAccessLevels) ==> Records.Violates(b, Records.AccessLevelBlank)
  {
    assert a.callerAccessLevels != [] by { assert !Records.Violates(a, Records.AccessLevelRequired); }
    assert a.callerAccessLevels[0] in b.callerAccessLevels;
    assert a.operationCategories != [] by { assert !Records.Violates(a, Records.CategoryRequired); }
    assert a.operationCategories[0] in b.operationCategories;
    if NoDuplicates(a.callerAccessLevels) {
      forall c: Records.Check ensures !Records.Violates(b, c) {
        assert !Records.Violates(a, c);
      }
    } else {
      assert "" in b.callerAccessLevels && Records.Blank("");
      assert Records.Violates(b, Records.AccessLevelBlank);
    }
  }

  // --- An input for which a retry is not the same ----------------------------------------------------------

  const DUPLICATED := Records.Record(
    "id", Records.Address(true, false, false, false), map[2 := [Records.IdentityEntry("user", "description")]], [2],
    map["type" := [Records.ResourceEntry("name", "", "", "")]], ["Level1", "Level1"], "level", "operation", "",
    "agent", "", 1)

  /** A valid record that names an access level twice: sent at once it has that level; sent after a failed write it
      has an empty level before it, and is no longer valid. */
  lemma DuplicatedLevelFails()
    ensures Records.IsValid(DUPLICATED) && Records.IsValid(Normalised(DUPLICATED))
    ensures Normalised(DUPLICATED).callerAccessLevels == ["Level1"]
    ensures Normalised(ScrubbedAfter(DUPLICATED, 1)).callerAccessLevels == ["", "Level1"]
    ensures !Records.IsValid(Normalised(ScrubbedAfter(DUPLICATED, 1)))
  {
    var levels := ["Level1", "Level1"];
    LevelsValid();
    DuplicatedIsValid();
    PayloadProperties(LEVELS, levels);
    assert levels[0] == levels[1] && !NoDuplicates(levels);
    assert SameElements(["Level1"], levels);
    StrictlyAscendingUnique(LEVELS, Payload(LEVELS, levels), ["Level1"]);
    SecondPayload(LEVELS, levels);
    RetriedRecord(DUPLICATED, 1);
    RetryStaysValid(DUPLICATED, 1);
    forall c: Records.Check ensures !Records.Violates(Normalised(DUPLICATED), c) {
      FirstPayloadKeepsChecks(DUPLICATED, c);
    }
  }

  lemma DuplicatedIsValid()
    ensures Records.IsValid(DUPLICATED)
  {
    var a := DUPLICATED;
    assert !Records.Blank("Level1") by { assert 'L' in "Level1"; }
    assert !Records.Blank("type") by { assert 't' in "type"; }
    assert 2 in a.callerIdentities && "type" in a.targetResources;
    assert Records.GoodIdentities(a.callerIdentities[2]);
    assert Records.GoodResources("type", a.targetResources["type"]);
    assert Records.OC_OTHER !in a.operationCategories;
    assert forall k <- a.callerAccessLevels :: k == "Level1";
  }
}
