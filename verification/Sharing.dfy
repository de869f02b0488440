/** Messages whose slices share backing arrays with other messages: what marshalling one of them does to the others,
    and to the record in the hands of the caller. No write needs to fail for any of this. */
module Sharing {
  import opened Slices
  import opened Normalise
  import opened Protocol
  import opened Marshal
  import Records
  import Clients = Client

  // --- One array, two headers -----------------------------------------------------------------------------

  lemma {:induction false} LeftAfterLength<T(!new)>(o: Order<T>, s: seq<T>, k: nat)
    requires o.Valid()
    ensures |LeftAfter(o, s, k)| == |s|
  {
    if k > 0 {
      LeftAfterLength(o, s, k - 1);
      PayloadProperties(o, LeftAfter(o, s, k - 1));
    }
  }

  /** An array after a header of the given length on it was marshalled k times. */
  ghost function Through<T(!new)>(o: Order<T>, all: seq<T>, len: nat, k: nat): (t: seq<T>)
    requires o.Valid() && len <= |all|
    ensures |t| == |all|
  {
    LeftAfterLength(o, all[..len], k);
    LeftAfter(o, all[..len], k) + all[len..]
  }

  /** What the header mine sees after the header other was marshalled k times. */
  ghost function SeenBeside<T(!new)>(o: Order<T>, mine: Slice<T>, other: Slice<T>, k: nat): seq<T>
    requires o.Valid() && mine.Valid() && other.Valid()
    reads mine.arr, other.arr
  {
    if mine.arr == other.arr then Through(o, mine.arr[..], other.len, k)[..mine.len] else mine.Value()
  }

  /** The list a header sees after it was marshalled, read off the whole array. */
  lemma ThroughArray<T(!new)>(o: Order<T>, s: Slice<T>, was: seq<T>, k: nat)
    requires o.Valid() && s.Valid() && |was| == s.arr.Length
    requires s.Value() == LeftAfter(o, was[..s.len], k)
    requires forall x :: s.len <= x < s.arr.Length ==> s.arr[x] == was[x]
    ensures s.arr[..] == Through(o, was, s.len, k)
  {
    assert s.arr[..] == s.Value() + was[s.len..];
  }

  /** The record that m's headers see after the message other was marshalled k times. */
  ghost function RecordBeside(m: Message, other: Message, k: nat): Records.Record
    requires m.Valid() && other.Valid()
    reads m.categories.arr, m.levels.arr, other.categories.arr, other.levels.arr
  {
    CategoriesValid();
    LevelsValid();
    WithLists(m.record, SeenBeside(CATEGORIES, m.categories, other.categories, k),
              SeenBeside(LEVELS, m.levels, other.levels, k))
  }

  /** A message is sent for the first time after k attempts to write another one. Whatever their headers share, what
      is sent is what m's headers see by then, normalised. */
  method SendBeside(m: Message, other: Message, k: nat) returns (sent: Packet)
    requires m.Valid() && other.Valid() && UserType(m.typ) && UserType(other.typ)
    modifies m.categories.arr, m.levels.arr, other.categories.arr, other.levels.arr
    ensures sent == Packet(m.typ, Normalised(old(RecordBeside(m, other, k))))
  {
    CategoriesValid();
    LevelsValid();
    ghost var categories, levels := other.categories.arr[..], other.levels.arr[..];
    MarshalTimes(other, k);
    ThroughArray(CATEGORIES, other.categories, categories, k);
    ThroughArray(LEVELS, other.levels, levels, k);
    SeenNow(CATEGORIES, m.categories);
    SeenNow(LEVELS, m.levels);
    assert m.Seen() == old(RecordBeside(m, other, k));
    var r := MarshalPrep(m);
    sent := Packet(r.msg.typ, r.msg.Seen());
  }

  lemma SeenNow<T(!new)>(o: Order<T>, s: Slice<T>)
    requires s.Valid()
    ensures s.Value() == s.arr[..][..s.len]
  {
  }

  // --- When it makes a difference -------------------------------------------------------------------------

  lemma InPrefix<T(!new)>(s: seq<T>, p: nat, x: T)
    requires p <= |s|
    ensures x in s <==> x in s[..p] || x in s[p..]
  {
    assert s == s[..p] + s[p..];
  }

  lemma ThroughElements<T(!new)>(o: Order<T>, s: seq<T>, p: nat, k: nat, x: T)
    requires o.Valid() && p <= |s| && k >= 1
    ensures x in Through(o, s, p, k) <==> x in s || (x == o.zero && !NoDuplicates(s[..p]))
  {
    LaterPayloads(o, s[..p], k);
    LeftElements(o, s[..p], x);
    InPrefix(s, p, x);
  }

  /** A header sees the list s, and another one of length p, not longer, on the same array was marshalled: the payload
      is the same as without that exactly if the shorter list had no duplicates or the zero value is in s. */
  lemma LongerHeader<T(!new)>(o: Order<T>, s: seq<T>, p: nat, k: nat)
    requires o.Valid() && p <= |s| && k >= 1
    ensures Payload(o, Through(o, s, p, k)) == Payload(o, s) <==> NoDuplicates(s[..p]) || o.zero in s
  {
    var t := Through(o, s, p, k);
    forall x ensures x in t <==> x in s || (x == o.zero && !NoDuplicates(s[..p])) { ThroughElements(o, s, p, k, x); }
    PayloadProperties(o, s);
    PayloadProperties(o, t);
    if NoDuplicates(s[..p]) || o.zero in s {
      SamePayload(o, s, t);
    } else {
      assert o.zero in Payload(o, t) && o.zero !in Payload(o, s);
    }
  }

  /** The first q elements of s are its least. */
  ghost predicate Least<T(!new)>(o: Order<T>, s: seq<T>, q: nat)
    requires q <= |s|
  {
    forall x, y :: x in s[..q] && y in s && y !in s[..q] ==> o.leq(x, y)
  }

  /** The first q elements of s are free of duplicates, or they are all there are and the zero value is among them. */
  ghost predicate Enough<T(!new)>(o: Order<T>, s: seq<T>, q: nat)
    requires q <= |s|
  {
    NoDuplicates(s[..q]) || (o.zero in s && forall x :: x in s ==> x in s[..q])
  }

  /** a holds the least elements of l. */
  ghost predicate LeastOf<T(!new)>(o: Order<T>, a: seq<T>, l: seq<T>) {
    && (forall x :: x in a ==> x in l)
    && (forall x, y :: x in a && y in l && y !in a ==> o.leq(x, y))
  }

  lemma SameFirst<T(!new)>(o: Order<T>, a: seq<T>, l: seq<T>)
    requires o.Valid() && StrictlyAscending(o, a) && StrictlyAscending(o, l) && LeastOf(o, a, l) && a != []
    ensures l != [] && a[0] == l[0]
  {
    assert a[0] in l && l[0] in l;
    assert o.leq(l[0], a[0]);
    assert o.leq(a[0], l[0]);
  }

  lemma LeastOfRest<T(!new)>(o: Order<T>, a: seq<T>, l: seq<T>)
    requires StrictlyAscending(o, a) && StrictlyAscending(o, l) && LeastOf(o, a, l)
    requires a != [] && l != [] && a[0] == l[0]
    ensures LeastOf(o, a[1..], l[1..])
  {
    forall x ensures (x in a[1..] <==> x in a && x != a[0]) && (x in l[1..] <==> x in l && x != l[0]) {
      TailElements(a, x);
      TailElements(l, x);
    }
  }

  /** The least elements of an ascending list, in order, are its beginning. */
  lemma {:induction false} LeastPrefix<T(!new)>(o: Order<T>, a: seq<T>, l: seq<T>)
    requires o.Valid() && StrictlyAscending(o, a) && StrictlyAscending(o, l) && LeastOf(o, a, l)
    ensures a <= l
  {
    if a != [] {
      SameFirst(o, a, l);
      LeastOfRest(o, a, l);
      LeastPrefix(o, a[1..], l[1..]);
      assert a == [a[0]] + a[1..] && l == [l[0]] + l[1..];
    }
  }

  lemma PayloadFixed<T(!new)>(o: Order<T>, s: seq<T>)
    requires o.Valid() && StrictlyAscending(o, s)
    ensures Payload(o, s) == s
  {
    PayloadProperties(o, s);
    StrictlyAscendingUnique(o, Payload(o, s), s);
  }

  /** What is behind the header after k marshallings, if the zero value does not get into the payload. */
  lemma LeftLater<T(!new)>(o: Order<T>, s: seq<T>, k: nat)
    requires o.Valid() && k >= 1 && (k == 1 || NoDuplicates(s) || o.zero in s)
    ensures |Payload(o, s)| <= |s|
    ensures LeftAfter(o, s, k) == Payload(o, s) + Zeros(o.zero, |s| - |Payload(o, s)|)
  {
    PayloadProperties(o, s);
    LeftNext(o, s, k - 1);
    if k > 1 {
      LaterPayloads(o, s, k - 1);
      SecondPayload(o, s);
      LeftAfterLength(o, s, k - 1);
    }
  }

  lemma LaterWithZero<T(!new)>(o: Order<T>, s: seq<T>, k: nat)
    requires o.Valid() && k >= 1 && !NoDuplicates(s) && o.zero !in s
    ensures var p := Payload(o, LeftAfter(o, s, k)); p != [] && p[0] == o.zero
  {
    LaterPayloads(o, s, k);
    SecondPayload(o, s);
  }

  /** Otherwise it leads the list from the second marshalling on. */
  lemma ZeroLeads<T(!new)>(o: Order<T>, s: seq<T>, k: nat)
    requires o.Valid() && k >= 2 && !NoDuplicates(s) && o.zero !in s
    ensures LeftAfter(o, s, k) != [] && LeftAfter(o, s, k)[0] == o.zero
  {
    LaterWithZero(o, s, k - 1);
    LeftNext(o, s, k - 1);
    FirstOfLeft(o, LeftAfter(o, s, k - 1));
  }

  lemma FirstOfLeft<T(!new)>(o: Order<T>, t: seq<T>)
    requires Payload(o, t) != [] && Payload(o, t)[0] == o.zero
    ensures Left(o, t) != [] && Left(o, t)[0] == o.zero
  {
  }

  /** The payload of s reaches at least to q. */
  lemma WithinPayload<T(!new)>(o: Order<T>, s: seq<T>, q: nat)
    requires o.Valid() && q <= |Payload(o, s)| <= |s|
    ensures Payload(o, s)[..q] == Payload(o, s[..q]) <==> Least(o, s, q) && Enough(o, s, q)
  {
    var p, a := Payload(o, s), Payload(o, s[..q]);
    PayloadProperties(o, s);
    PayloadProperties(o, s[..q]);
    if p[..q] == a {
      FirstAreLeast(o, s, q);
    } else if Least(o, s, q) {
      forall x | x in a ensures x in p { InPrefix(s, q, x); }
      LeastPrefix(o, a, p);
      if o.zero in s && forall x :: x in s ==> x in s[..q] {
        StrictlyAscendingUnique(o, a, p);
      }
    }
  }

  lemma FirstAreLeast<T(!new)>(o: Order<T>, s: seq<T>, q: nat)
    requires o.Valid() && q <= |Payload(o, s)| <= |s| && Payload(o, s)[..q] == Payload(o, s[..q])
    ensures Least(o, s, q)
  {
    var p := Payload(o, s);
    PayloadProperties(o, s);
    PayloadProperties(o, s[..q]);
    forall x, y | x in s[..q] && y in s && y !in s[..q] ensures o.leq(x, y) {
      assert x in p[..q];
      var i :| 0 <= i < q && p[i] == x;
      InPrefix(p, q, y);
      var j :| 0 <= j < |p| - q && p[q..][j] == y;
      assert p[q + j] == y;
    }
  }

  /** The payload of s ends before q, and zeros follow it. */
  lemma BeyondPayload<T(!new)>(o: Order<T>, s: seq<T>, q: nat)
    requires o.Valid() && |Payload(o, s)| < q <= |s|
    ensures Payload(o, Payload(o, s) + Zeros(o.zero, q - |Payload(o, s)|)) == Payload(o, s[..q])
            <==> Least(o, s, q) && Enough(o, s, q)
  {
    var p, a := Payload(o, s), Payload(o, s[..q]);
    var seen := p + Zeros(o.zero, q - |p|);
    PayloadProperties(o, s);
    PayloadProperties(o, s[..q]);
    PayloadProperties(o, seen);
    assert seen[|p|] == o.zero;
    forall x | x in a ensures x in p { InPrefix(s, q, x); }
    if Least(o, s, q) { LeastPrefix(o, a, p); }
    if o.zero in s && forall x :: x in s ==> x in s[..q] {
      SamePayload(o, seen, s[..q]);
    }
    InPrefix(s, q, o.zero);
    assert o.zero in Payload(o, seen);
    forall x | x in s ensures x in Payload(o, seen) { assert x in p && x in seen; }
  }

  /** A header of length q sees the beginning of a list, and the header of the whole list was marshalled k times: when
      the payload of the shorter one is still what it was. */
  ghost predicate Unharmed<T(!new)>(o: Order<T>, s: seq<T>, q: nat, k: nat)
    requires q <= |s|
  {
    || q == 0 || k == 0
    || ((k == 1 || NoDuplicates(s) || o.zero in s) && Least(o, s, q) && Enough(o, s, q))
  }

  /** That is exactly then: besides the trivial cases it takes that the shorter header held the least elements, without
      duplicates or all of them with the zero value, and that no zero value got into the payload of the longer one. */
  lemma ShorterHeader<T(!new)>(o: Order<T>, s: seq<T>, q: nat, k: nat)
    requires o.Valid() && q <= |s|
    ensures Payload(o, Through(o, s, |s|, k)[..q]) == Payload(o, s[..q]) <==> Unharmed(o, s, q, k)
  {
    var t := Through(o, s, |s|, k);
    assert s[..|s|] == s && t == LeftAfter(o, s, k);
    if q == 0 {
      assert t[..q] == s[..q];
    } else if k > 0 {
      if k == 1 || NoDuplicates(s) || o.zero in s {
        LeftLater(o, s, k);
        var p := Payload(o, s);
        PayloadProperties(o, s);
        if q <= |p| {
          assert t[..q] == p[..q];
          PayloadFixed(o, p[..q]);
          WithinPayload(o, s, q);
        } else {
          assert t[..q] == p + Zeros(o.zero, q - |p|);
          BeyondPayload(o, s, q);
        }
      } else {
        ZeroLeads(o, s, k);
        ZeroIsNew(o, t[..q], s, q);
      }
    }
  }

  lemma ZeroIsNew<T(!new)>(o: Order<T>, t: seq<T>, s: seq<T>, q: nat)
    requires o.Valid() && t != [] && t[0] == o.zero && o.zero !in s && q <= |s|
    ensures Payload(o, t) != Payload(o, s[..q])
  {
    PayloadProperties(o, t);
    PayloadProperties(o, s[..q]);
    InPrefix(s, q, o.zero);
    assert o.zero in Payload(o, t);
  }

  // --- Two messages ---------------------------------------------------------------------------------------

  lemma SeenIsThrough<T(!new)>(o: Order<T>, mine: Slice<T>, other: Slice<T>, k: nat)
    requires o.Valid() && mine.Valid() && mine.arr == other.arr && other.len <= mine.len
    ensures SeenBeside(o, mine, other, k) == Through(o, mine.Value(), other.len, k)
  {
    assert mine.arr[..][..other.len] == mine.Value()[..other.len];
    LeftAfterLength(o, mine.Value()[..other.len], k);
    assert mine.arr[..][other.len..][..mine.len - other.len] == mine.Value()[other.len..];
  }

  /** When the list of one header is sent as if it had the array to itself, after another header was marshalled k
      times: they are on different arrays, or the other one is not longer and does not bring in the zero value, or it
      is longer and the shorter one is unharmed. */
  ghost predicate SentAlone<T(!new)>(o: Order<T>, mine: Slice<T>, other: Slice<T>, k: nat)
    requires mine.Valid() && other.Valid()
    reads mine.arr, other.arr
  {
    || mine.arr != other.arr || k == 0
    || (if other.len <= mine.len then NoDuplicates(other.Value()) || o.zero in mine.Value()
        else Unharmed(o, other.Value(), mine.len, k))
  }

  lemma ListBeside<T(!new)>(o: Order<T>, mine: Slice<T>, other: Slice<T>, k: nat)
    requires o.Valid() && mine.Valid() && other.Valid()
    ensures Payload(o, SeenBeside(o, mine, other, k)) == Payload(o, mine.Value()) <==> SentAlone(o, mine, other, k)
  {
    if mine.arr == other.arr {
      if other.len <= mine.len {
        SeenIsThrough(o, mine, other, k);
        assert mine.Value()[..other.len] == other.Value();
        if k == 0 {
          assert Through(o, mine.Value(), other.len, 0) == mine.Value();
        } else {
          LongerHeader(o, mine.Value(), other.len, k);
        }
      } else {
        SeenIsShorter(o, mine, other, k);
        ShorterHeader(o, other.Value(), mine.len, k);
      }
    }
  }

  lemma SeenIsShorter<T(!new)>(o: Order<T>, mine: Slice<T>, other: Slice<T>, k: nat)
    requires o.Valid() && mine.Valid() && other.Valid() && mine.arr == other.arr && mine.len <= other.len
    ensures SeenBeside(o, mine, other, k) == Through(o, other.Value(), other.len, k)[..mine.len]
    ensures mine.Value() == other.Value()[..mine.len]
  {
    var s := other.Value();
    assert s[..other.len] == s && other.arr[..][..other.len] == s;
    LeftAfterLength(o, s, k);
  }

  /** Any two messages, one of which was marshalled k times before the other is marshalled for the first time: the other
      one is sent as if it had its arrays to itself exactly if both of its lists are. */
  lemma BesideSendsTheSame(m: Message, other: Message, k: nat)
    requires m.Valid() && other.Valid()
    ensures Normalised(RecordBeside(m, other, k)) == Normalised(m.Seen())
            <==> SentAlone(CATEGORIES, m.categories, other.categories, k)
                 && SentAlone(LEVELS, m.levels, other.levels, k)
  {
    CategoriesValid();
    LevelsValid();
    ListBeside(CATEGORIES, m.categories, other.categories, k);
    ListBeside(LEVELS, m.levels, other.levels, k);
    SameLists(m.record, Payload(CATEGORIES, SeenBeside(CATEGORIES, m.categories, other.categories, k)),
              Payload(LEVELS, SeenBeside(LEVELS, m.levels, other.levels, k)),
              Payload(CATEGORIES, m.categories.Value()), Payload(LEVELS, m.levels.Value()));
  }

  /** A valid record with one category and one access level. */
  function WithCategory(c: nat): Records.Record {
    WithLists(DUPLICATED, [c], ["Level1"])
  }

  lemma WithCategoryIsValid(c: nat)
    requires c != Records.OC_OTHER
    ensures Records.IsValid(WithCategory(c))
  {
    var a := WithCategory(c);
    DuplicatedIsValid();
    forall d: Records.Check ensures !Records.Violates(a, d) {
      assert !Records.Violates(DUPLICATED, d);
      assert DUPLICATED.callerAccessLevels[0] == "Level1";
    }
  }

  /** No list has duplicates here: one message has the categories 3 and 2, another one only the first of them, on the
      same array. After the first was written, the other one is sent with a category that it never had. */
  method ShorterSendsAnother() returns (meant: Records.Record, sent: Packet)
    ensures meant == WithCategory(3) && Records.IsValid(meant)
    ensures sent == Packet(DATA_PLANE, WithCategory(2)) && Records.IsValid(sent.record)
  {
    var a, b, c := new nat[] [3, 2], new string[] ["Level1"], new string[] ["Level1"];
    var other := Message(DATA_PLANE, DUPLICATED, Slice(a, 2), Slice(b, 1));
    var m := Message(DATA_PLANE, DUPLICATED, Slice(a, 1), Slice(c, 1));
    assert m.categories.Value() == [3] && m.levels.Value() == ["Level1"];
    assert a[..] == [3, 2];
    meant := m.Seen();
    WithCategoryIsValid(3);
    WithCategoryIsValid(2);
    CategoriesValid();
    LevelsValid();
    SortsPair();
    PayloadFixed(CATEGORIES, [2]);
    PayloadFixed(LEVELS, ["Level1"]);
    assert SeenBeside(CATEGORIES, m.categories, other.categories, 1) == [2];
    sent := SendBeside(m, other, 1);
  }

  lemma SortsPair()
    requires CATEGORIES.Valid()
    ensures LeftAfter(CATEGORIES, [3, 2], 1) == [2, 3] && Through(CATEGORIES, [3, 2], 2, 1) == [2, 3]
  {
    PayloadProperties(CATEGORIES, [3, 2]);
    StrictlyAscendingUnique(CATEGORIES, Payload(CATEGORIES, [3, 2]), [2, 3]);
    LeftNext(CATEGORIES, [3, 2], 0);
    assert [3, 2][..2] == [3, 2];
  }

  // --- Any number of messages from one template -----------------------------------------------------------

  predicate FromTemplate(m: Message, categories: Slice<nat>, levels: Slice<string>) {
    UserType(m.typ) && m.categories == categories && m.levels == levels
  }

  /** What is sent for a message whose lists are cs and ls when their arrays have been marshalled n times before. */
  ghost function SentAfter(m: Message, cs: seq<nat>, ls: seq<string>, n: nat): Packet {
    Packet(m.typ, Normalised(ScrubbedAfter(WithLists(m.record, cs, ls), n)))
  }

  /** Messages that were given the same two slices are marshalled one after the other; one that comes again is a retry,
      or was sent again. What is sent is decided by how often the slices were marshalled before, by any of them. */
  method MarshalEach(ms: seq<Message>, categories: Slice<nat>, levels: Slice<string>)
      returns (sent: seq<Packet>)
    requires categories.Valid() && levels.Valid() && forall m <- ms :: FromTemplate(m, categories, levels)
    modifies categories.arr, levels.arr
    ensures |sent| == |ms|
    ensures forall i :: 0 <= i < |ms| ==>
              sent[i] == SentAfter(ms[i], old(categories.Value()), old(levels.Value()), i)
  {
    ghost var cs, ls := categories.Value(), levels.Value();
    sent := [];
    while |sent| < |ms|
      invariant UpTo(ms, sent, categories, levels, cs, ls, |sent|)
    {
      sent := MarshalAnother(ms, sent, categories, levels, cs, ls, |sent|);
    }
  }

  ghost predicate SentSoFar(ms: seq<Message>, sent: seq<Packet>, cs: seq<nat>, ls: seq<string>) {
    |sent| <= |ms| && forall i :: 0 <= i < |sent| ==> sent[i] == SentAfter(ms[i], cs, ls, i)
  }

  /** Where the loop stands: what was sent, and what the template's headers see now. */
  ghost predicate UpTo(ms: seq<Message>, sent: seq<Packet>, categories: Slice<nat>, levels: Slice<string>,
                       cs: seq<nat>, ls: seq<string>, n: nat)
    reads categories.arr, levels.arr
  {
    && categories.Valid() && levels.Valid() && |sent| == n && SentSoFar(ms, sent, cs, ls)
    && categories.Value() == LeftAfter(CATEGORIES, cs, n) && levels.Value() == LeftAfter(LEVELS, ls, n)
  }

  method MarshalAnother(ms: seq<Message>, sent: seq<Packet>, categories: Slice<nat>, levels: Slice<string>,
                        ghost cs: seq<nat>, ghost ls: seq<string>, n: nat)
      returns (more: seq<Packet>)
    requires n < |ms| && FromTemplate(ms[n], categories, levels)
    requires UpTo(ms, sent, categories, levels, cs, ls, n)
    modifies categories.arr, levels.arr
    ensures UpTo(ms, more, categories, levels, cs, ls, n + 1)
  {
    var next := MarshalNext(ms[n], cs, ls, n);
    OneMoreSent(ms, sent, cs, ls, next);
    more := sent + [next];
  }

  lemma OneMoreSent(ms: seq<Message>, sent: seq<Packet>, cs: seq<nat>, ls: seq<string>, next: Packet)
    requires SentSoFar(ms, sent, cs, ls) && |sent| < |ms|
    requires next == SentAfter(ms[|sent|], cs, ls, |sent|)
    ensures SentSoFar(ms, sent + [next], cs, ls)
  {
  }

  method MarshalNext(m: Message, ghost cs: seq<nat>, ghost ls: seq<string>, ghost i: nat)
      returns (sent: Packet)
    requires m.Valid() && UserType(m.typ)
    requires m.categories.Value() == LeftAfter(CATEGORIES, cs, i) && m.levels.Value() == LeftAfter(LEVELS, ls, i)
    modifies m.categories.arr, m.levels.arr
    ensures m.categories.Value() == LeftAfter(CATEGORIES, cs, i + 1)
    ensures m.levels.Value() == LeftAfter(LEVELS, ls, i + 1)
    ensures sent == SentAfter(m, cs, ls, i)
  {
    LeftNext(CATEGORIES, cs, i);
    LeftNext(LEVELS, ls, i);
    var r := MarshalPrep(m);
    sent := Packet(r.msg.typ, r.msg.Seen());
  }

  /** Two valid messages with the slices of one template that names an access level twice: both writes succeed at the
      first attempt, and the second one sends an empty access level. */
  method TwoFromOneTemplate() returns (first: Packet, second: Packet)
    ensures Records.IsValid(DUPLICATED)
    ensures first == Packet(DATA_PLANE, Normalised(DUPLICATED)) && Records.IsValid(first.record)
    ensures first.record.callerAccessLevels == ["Level1"]
    ensures second.typ == CONTROL_PLANE
    ensures second.record.callerAccessLevels == ["", "Level1"] && !Records.IsValid(second.record)
  {
    var a, b := new nat[] [2], new string[] ["Level1", "Level1"];
    var categories, levels := Slice(a, 1), Slice(b, 2);
    assert categories.Value() == [2] && levels.Value() == ["Level1", "Level1"];
    var m := Message(DATA_PLANE, DUPLICATED, categories, levels);
    var n := Message(CONTROL_PLANE, DUPLICATED, categories, levels);
    var sent := MarshalEach([m, n], categories, levels);
    DuplicatedLevelFails();
    assert ScrubbedAfter(DUPLICATED, 0) == DUPLICATED;
    first, second := sent[0], sent[1];
  }

  // --- The caller's own record ----------------------------------------------------------------------------

  /** A caller sends a message, its sender marshals it k times, and the caller sends it again. A record that was valid
      is still valid then, in the hands of the caller, exactly if its access levels had no duplicates or it was never
      marshalled: otherwise Send refuses it, unless it refuses everything because the client has died. Whether there
      is room on the queue decides what else either Send answers; before1 and before2 are the states it looks at. */
  method Resend(c: Clients.Client, p: nat, m: Message, k: nat)
      returns (first: Clients.SendResult, second: Clients.SendResult, ghost before1: State, ghost before2: State)
    requires c.Valid() && c.published && p !in c.producers && m.Valid() && UserType(m.typ)
    modifies c, m.categories.arr, m.levels.arr
    ensures c.Valid()
    ensures first.ErrClientDead? <==> old(c.clientDead)
    ensures first.ErrValidation? <==>
              !old(c.clientDead) && !Records.IsValid(old(m.Seen()).(serviceTreeID := c.serviceTreeID))
    ensures first.Accepted? || first.ErrQueueFull? ==> (first.Accepted? <==> |before1.queue| < c.cfg.queueSize)
    ensures !first.Accepted? ==> second == first
    ensures first.Accepted? ==>
              (second.ErrValidation? <==>
                 !second.ErrClientDead? && k >= 1 && !NoDuplicates(old(m.levels.Value())))
    ensures first.Accepted? && (second.Accepted? || second.ErrQueueFull?) ==>
              && (second.Accepted? <==> |before2.queue| < c.cfg.queueSize)
              && (second.Accepted? ==> c.sendCh == before2.queue + [Msg(m.typ, |before2.hist.accepted|)])
  {
    ghost var a := m.Seen().(serviceTreeID := c.serviceTreeID);
    first, before1 := c.Send(p, m.typ, m.Seen());
    second, before2 := first, before1;
    if first.Accepted? {
      MarshalTimes(m, k);
      if k >= 1 { SeenStaysValid(a, k); }
      c.Interfere(Producer(p));
      assert m.Seen().(serviceTreeID := c.serviceTreeID) == ScrubbedAfter(a, k);
      second, before2 := c.Send(p, m.typ, m.Seen());
    }
  }
}
