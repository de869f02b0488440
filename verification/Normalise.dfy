/** What sorting and compacting a list in place does to the list that a header of the original length still sees, and
    so to every later marshalling of the same message. */
module Normalise {
  import opened Slices

  function Insert<T(!new)>(o: Order<T>, x: T, s: seq<T>): seq<T> {
    if s == [] then [x]
    else if o.leq(s[|s| - 1], x) then s + [x]
    else Insert(o, x, s[..|s| - 1]) + [s[|s| - 1]]
  }

  /** The list sorted. */
  function Arranged<T(!new)>(o: Order<T>, s: seq<T>): seq<T> {
    if s == [] then [] else Insert(o, s[|s| - 1], Arranged(o, s[..|s| - 1]))
  }

  /** What marshalPrep sends: the list sorted and without duplicates. */
  function Payload<T(==, !new)>(o: Order<T>, s: seq<T>): seq<T> {
    Compacted(Arranged(o, s))
  }

  /** What it leaves behind the header it was given. */
  function Left<T(==, !new)>(o: Order<T>, s: seq<T>): seq<T> {
    var p := Payload(o, s);
    p + Zeros(o.zero, if |p| <= |s| then |s| - |p| else 0)
  }

  /** What is behind the header after n marshallings. */
  function LeftAfter<T(==, !new)>(o: Order<T>, s: seq<T>, n: nat): seq<T> {
    if n == 0 then s else Left(o, LeftAfter(o, s, n - 1))
  }

  lemma {:induction false} InsertProperties<T(!new)>(o: Order<T>, x: T, s: seq<T>)
    requires o.Valid() && Ascending(o, s)
    ensures Ascending(o, Insert(o, x, s)) && multiset(Insert(o, x, s)) == multiset(s) + multiset{x}
  {
    if s != [] {
      var k := |s| - 1;
      assert s == s[..k] + [s[k]];
      if o.leq(s[k], x) {
        forall i | 0 <= i < |s| ensures o.leq(s[i], x) { assert o.leq(s[i], s[k]); }
      } else {
        InsertProperties(o, x, s[..k]);
        var t := Insert(o, x, s[..k]);
        forall i | 0 <= i < |t| ensures o.leq(t[i], s[k]) {
          assert t[i] in multiset(t);
          assert t[i] in s[..k] || t[i] == x;
        }
      }
    }
  }

  lemma {:induction false} ArrangedProperties<T(!new)>(o: Order<T>, s: seq<T>)
    requires o.Valid()
    ensures Ascending(o, Arranged(o, s)) && multiset(Arranged(o, s)) == multiset(s)
  {
    if s != [] {
      var k := |s| - 1;
      ArrangedProperties(o, s[..k]);
      InsertProperties(o, s[k], Arranged(o, s[..k]));
      assert s == s[..k] + [s[k]];
    }
  }

  lemma Permuted<T(!new)>(s: seq<T>, t: seq<T>)
    requires multiset(s) == multiset(t)
    ensures |s| == |t| && SameElements(s, t)
  {
    assert |multiset(s)| == |multiset(t)|;
    forall x ensures x in s <==> x in t {
      assert x in multiset(s) <==> x in multiset(t);
    }
  }

  lemma {:induction false} CountedOnce<T(!new)>(s: seq<T>)
    ensures NoDuplicates(s) <==> forall x: T :: multiset(s)[x] <= 1
  {
    if s != [] {
      var k := |s| - 1;
      CountedOnce(s[..k]);
      assert s == s[..k] + [s[k]];
      if NoDuplicates(s) {
        assert NoDuplicates(s[..k]);
        assert s[k] !in s[..k];
      } else if NoDuplicates(s[..k]) {
        var i :| 0 <= i < k && s[i] == s[k];
        assert s[..k][i] == s[k];
        assert multiset(s[..k])[s[k]] >= 1;
        assert multiset(s)[s[k]] > 1;
      } else {
        var x :| multiset(s[..k])[x] > 1;
        assert multiset(s)[x] > 1;
      }
    }
  }

  lemma ArrangedDuplicates<T(!new)>(o: Order<T>, s: seq<T>)
    requires o.Valid()
    ensures NoDuplicates(Arranged(o, s)) <==> NoDuplicates(s)
  {
    ArrangedProperties(o, s);
    CountedOnce(s);
    CountedOnce(Arranged(o, s));
  }

  /** What is sent is strictly ascending, has exactly the elements of the list, and is as long only if the list has no
      duplicates. */
  lemma PayloadProperties<T(!new)>(o: Order<T>, s: seq<T>)
    requires o.Valid()
    ensures StrictlyAscending(o, Payload(o, s)) && SameElements(Payload(o, s), s)
    ensures |Payload(o, s)| <= |s| && (|Payload(o, s)| == |s| <==> NoDuplicates(s))
  {
    ArrangedProperties(o, s);
    Permuted(Arranged(o, s), s);
    ArrangedDuplicates(o, s);
    CompactedElements(Arranged(o, s));
    CompactedAscends(o, Arranged(o, s));
    CompactedLength(o, Arranged(o, s));
  }

  /** Behind the header the list keeps its length and its elements, and gains the zero value if it had duplicates. */
  lemma LeftElements<T(!new)>(o: Order<T>, s: seq<T>, x: T)
    requires o.Valid()
    ensures |Left(o, s)| == |s|
    ensures x in Left(o, s) <==> x in s || (x == o.zero && !NoDuplicates(s))
  {
    PayloadProperties(o, s);
    var p := Payload(o, s);
    if !NoDuplicates(s) { assert Left(o, s)[|p|] == o.zero; }
  }

  lemma SamePayload<T(!new)>(o: Order<T>, s: seq<T>, t: seq<T>)
    requires o.Valid() && SameElements(s, t)
    ensures Payload(o, s) == Payload(o, t)
  {
    PayloadProperties(o, s);
    PayloadProperties(o, t);
    StrictlyAscendingUnique(o, Payload(o, s), Payload(o, t));
  }

  /** Marshalling the requeued message again sends the same list exactly when the list had no duplicates or already
      had the zero value in it; otherwise it sends the zero value first, which the user never put there. */
  lemma SecondPayload<T(!new)>(o: Order<T>, s: seq<T>)
    requires o.Valid()
    ensures Payload(o, Left(o, s)) == Payload(o, s) <==> NoDuplicates(s) || o.zero in s
    ensures !(NoDuplicates(s) || o.zero in s) ==> Payload(o, Left(o, s)) == [o.zero] + Payload(o, s)
  {
    PayloadProperties(o, s);
    PayloadProperties(o, Left(o, s));
    forall x ensures x in Left(o, s) <==> x in s || (x == o.zero && !NoDuplicates(s)) { LeftElements(o, s, x); }
    if NoDuplicates(s) || o.zero in s {
      SamePayload(o, s, Left(o, s));
    } else {
      var t := [o.zero] + Payload(o, s);
      assert StrictlyAscending(o, t) by {
        forall j | 0 < j < |t| ensures t[0] != t[j] { assert t[j] in Payload(o, s); }
      }
      assert SameElements(t, Payload(o, Left(o, s)));
      StrictlyAscendingUnique(o, t, Payload(o, Left(o, s)));
    }
  }

  lemma NoDuplicatesLeft<T(!new)>(o: Order<T>, s: seq<T>)
    requires o.Valid() && NoDuplicates(s)
    ensures NoDuplicates(Left(o, s))
  {
    PayloadProperties(o, s);
    assert Left(o, s) == Payload(o, s);
  }

  /** Every marshalling after the second sends what the second sent. */
  lemma {:induction false} LaterPayloads<T(!new)>(o: Order<T>, s: seq<T>, n: nat)
    requires o.Valid() && n >= 1
    ensures Payload(o, LeftAfter(o, s, n)) == Payload(o, Left(o, s))
    ensures SameElements(LeftAfter(o, s, n), Left(o, s))
    ensures NoDuplicates(s) ==> NoDuplicates(LeftAfter(o, s, n))
  {
    if n == 1 {
      assert LeftAfter(o, s, 1) == Left(o, s);
      if NoDuplicates(s) { NoDuplicatesLeft(o, s); }
    } else {
      var t := LeftAfter(o, s, n - 1);
      LaterPayloads(o, s, n - 1);
      forall x ensures x in Left(o, t) <==> x in Left(o, s) {
        LeftElements(o, t, x);
        LeftElements(o, s, x);
      }
      if NoDuplicates(s) { NoDuplicatesLeft(o, t); }
      SamePayload(o, Left(o, t), Left(o, s));
    }
  }
}
