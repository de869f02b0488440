/** Go slices over shared backing arrays, and the two functions of package slices that marshalPrep applies to them. */
module Slices {
  /** An ordered element type and its zero value. */
  datatype Order<!T(!new)> = Order(leq: (T, T) -> bool, zero: T) {
    /** A total order whose least element is the zero value. */
    ghost predicate Valid() {
      && (forall x: T :: leq(zero, x))
      && (forall x: T, y: T :: leq(x, y) || leq(y, x))
      && (forall x: T, y: T :: leq(x, y) && leq(y, x) ==> x == y)
      && (forall x: T, y: T, z: T :: leq(x, y) && leq(y, z) ==> leq(x, z))
    }
  }

  /** A slice that starts at the start of its backing array; a nil slice is one of length 0. */
  datatype Slice<T> = Slice(arr: array<T>, len: nat) {
    predicate Valid() {
      len <= arr.Length
    }

    function Value(): seq<T>
      requires Valid()
      reads arr
    {
      arr[..len]
    }
  }

  // --- Lists ----------------------------------------------------------------------------------------------

  ghost predicate Ascending<T(!new)>(o: Order<T>, s: seq<T>) {
    forall i, j :: 0 <= i < j < |s| ==> o.leq(s[i], s[j])
  }

  ghost predicate StrictlyAscending<T(!new)>(o: Order<T>, s: seq<T>) {
    forall i, j :: 0 <= i < j < |s| ==> o.leq(s[i], s[j]) && s[i] != s[j]
  }

  ghost predicate NoDuplicates<T(!new)>(s: seq<T>) {
    forall i, j :: 0 <= i < j < |s| ==> s[i] != s[j]
  }

  ghost predicate SameElements<T(!new)>(s: seq<T>, t: seq<T>) {
    forall x: T :: x in s <==> x in t
  }

  /** Adjacent equal elements reduced to the first of them. */
  function Compacted<T(==)>(s: seq<T>): seq<T> {
    if |s| < 2 then s
    else if s[|s| - 1] == s[|s| - 2] then Compacted(s[..|s| - 1])
    else Compacted(s[..|s| - 1]) + [s[|s| - 1]]
  }

  function Zeros<T>(zero: T, n: nat): (z: seq<T>)
    ensures |z| == n && forall i :: 0 <= i < n ==> z[i] == zero
  {
    seq(n, _ => zero)
  }

  lemma {:induction false} CompactedElements<T(!new)>(s: seq<T>)
    ensures SameElements(Compacted(s), s) && |Compacted(s)| <= |s|
    ensures s != [] ==> Compacted(s) != [] && Compacted(s)[|Compacted(s)| - 1] == s[|s| - 1]
  {
    if |s| >= 2 {
      var k := |s| - 1;
      CompactedElements(s[..k]);
      assert s == s[..k] + [s[k]];
      if s[k] == s[k - 1] { assert s[..k][k - 1] == s[k - 1]; }
    }
  }

  lemma {:induction false} CompactedAscends<T(!new)>(o: Order<T>, s: seq<T>)
    requires o.Valid() && Ascending(o, s)
    ensures StrictlyAscending(o, Compacted(s))
  {
    if |s| >= 2 {
      var k := |s| - 1;
      CompactedAscends(o, s[..k]);
      CompactedElements(s[..k]);
      if s[k] != s[k - 1] {
        var c := Compacted(s[..k]);
        forall i | 0 <= i < |c| ensures o.leq(c[i], s[k]) && c[i] != s[k] {
          assert c[i] in s[..k];
          var j :| 0 <= j < k && s[j] == c[i];
          assert o.leq(s[j], s[k - 1]) && o.leq(s[k - 1], s[k]);
        }
      }
    }
  }

  /** The last element of an ascending list is a duplicate exactly if it equals the one before it. */
  lemma LastDuplicate<T(!new)>(o: Order<T>, s: seq<T>)
    requires o.Valid() && Ascending(o, s) && |s| >= 2
    ensures var k := |s| - 1; NoDuplicates(s) <==> NoDuplicates(s[..k]) && s[k] != s[k - 1]
  {
    var k := |s| - 1;
    if NoDuplicates(s[..k]) && s[k] != s[k - 1] {
      forall i, j | 0 <= i < j < |s| ensures s[i] != s[j] {
        if j < k {
          assert s[..k][i] != s[..k][j];
        } else {
          assert o.leq(s[i], s[k - 1]) && o.leq(s[k - 1], s[k]);
        }
      }
    }
  }

  /** Compacting shortens an ascending list exactly when it has duplicates. */
  lemma {:induction false} CompactedLength<T(!new)>(o: Order<T>, s: seq<T>)
    requires o.Valid() && Ascending(o, s)
    ensures |Compacted(s)| == |s| <==> NoDuplicates(s)
  {
    if |s| >= 2 {
      CompactedLength(o, s[..|s| - 1]);
      CompactedElements(s[..|s| - 1]);
      LastDuplicate(o, s);
    }
  }

  lemma TailElements<T(!new)>(s: seq<T>, x: T)
    requires s != [] && forall i :: 0 < i < |s| ==> s[0] != s[i]
    ensures x in s[1..] <==> x in s && x != s[0]
  {
    assert s == [s[0]] + s[1..];
  }

  /** A strictly ascending list is determined by its elements. */
  lemma {:induction false} StrictlyAscendingUnique<T(!new)>(o: Order<T>, s: seq<T>, t: seq<T>)
    requires o.Valid() && StrictlyAscending(o, s) && StrictlyAscending(o, t) && SameElements(s, t)
    ensures s == t
  {
    assert s != [] ==> s[0] in s;
    assert t != [] ==> t[0] in t;
    if s != [] && t != [] {
      assert s[0] in t && t[0] in s;
      assert s[0] == t[0];
      forall x ensures x in s[1..] <==> x in t[1..] {
        TailElements(s, x);
        TailElements(t, x);
      }
      StrictlyAscendingUnique(o, s[1..], t[1..]);
      assert s == [s[0]] + s[1..] && t == [t[0]] + t[1..];
    }
  }

  lemma SameHead<T(!new)>(o: Order<T>, s: seq<T>, t: seq<T>)
    requires o.Valid() && Ascending(o, s) && Ascending(o, t) && multiset(s) == multiset(t) && s != [] && t != []
    ensures s[0] == t[0]
  {
    assert s[0] in multiset(t) && t[0] in multiset(s);
    var i :| 0 <= i < |t| && t[i] == s[0];
    var j :| 0 <= j < |s| && s[j] == t[0];
    assert o.leq(s[0], s[j]) && o.leq(t[0], t[i]);
  }

  lemma TailMultiset<T>(s: seq<T>)
    requires s != []
    ensures multiset(s[1..]) == multiset(s) - multiset{s[0]}
  {
    assert s == [s[0]] + s[1..];
  }

  /** An ascending list is determined by its elements and how often they occur. */
  lemma {:induction false} AscendingUnique<T(!new)>(o: Order<T>, s: seq<T>, t: seq<T>)
    requires o.Valid() && Ascending(o, s) && Ascending(o, t) && multiset(s) == multiset(t)
    ensures s == t
  {
    assert |multiset(s)| == |multiset(t)|;
    if s != [] {
      SameHead(o, s, t);
      TailMultiset(s);
      TailMultiset(t);
      AscendingUnique(o, s[1..], t[1..]);
      assert s == [s[0]] + s[1..] && t == [t[0]] + t[1..];
    }
  }

  // --- In place -------------------------------------------------------------------------------------------

  lemma SwappedMultiset<T>(s: seq<T>, i: nat, j: nat)
    requires i < j < |s|
    ensures multiset(s[i := s[j]][j := s[i]]) == multiset(s)
  {
  }

  method Swap<T>(a: array<T>, n: nat, j: nat)
    requires 0 < j < n <= a.Length
    modifies a
    ensures a[j] == old(a[j - 1]) && a[j - 1] == old(a[j])
    ensures forall k :: 0 <= k < a.Length && k != j && k != j - 1 ==> a[k] == old(a[k])
    ensures multiset(a[..n]) == multiset(old(a[..n]))
  {
    ghost var was := a[..n];
    a[j - 1], a[j] := a[j], a[j - 1];
    assert a[..n] == was[j - 1 := was[j]][j := was[j - 1]];
    SwappedMultiset(was, j - 1, j);
  }

  /** slices.Sort, which sorts short slices by insertion. */
  method Sort<T(!new)>(o: Order<T>, a: array<T>, n: nat)
    requires o.Valid() && n <= a.Length
    modifies a
    ensures Ascending(o, a[..n]) && multiset(a[..n]) == multiset(old(a[..n]))
    ensures a[n..] == old(a[n..])
  {
    var i := 1;
    while i < n
      invariant i <= n || n == 0
      invariant forall p, q :: 0 <= p < q < i && q < n ==> o.leq(a[p], a[q])
      invariant multiset(a[..n]) == multiset(old(a[..n]))
      invariant forall k :: n <= k < a.Length ==> a[k] == old(a[k])
    {
      var j := i;
      while j > 0 && !o.leq(a[j - 1], a[j])
        invariant 0 <= j <= i < n
        invariant forall p, q :: 0 <= p < q <= i && q != j ==> o.leq(a[p], a[q])
        invariant multiset(a[..n]) == multiset(old(a[..n]))
        invariant forall k :: n <= k < a.Length ==> a[k] == old(a[k])
      {
        Swap(a, n, j);
        j := j - 1;
      }
      i := i + 1;
    }
  }

  lemma CompactedSnoc<T>(s: seq<T>, i: nat)
    requires 0 < i < |s|
    ensures Compacted(s[..i + 1]) == if s[i] == s[i - 1] then Compacted(s[..i]) else Compacted(s[..i]) + [s[i]]
  {
    assert s[..i + 1][..i] == s[..i];
  }

  /** Where the second loop of slices.Compact stands: what was looked at is compacted, the rest is as it was. */
  ghost predicate Squeezed<T>(now: seq<T>, was: seq<T>, w: nat, i: nat) {
    w <= i <= |was| == |now| && now[..w] == Compacted(was[..i]) && now[w..] == was[w..]
  }

  lemma SqueezeOne<T>(now: seq<T>, was: seq<T>, w: nat, i: nat)
    requires 0 < w < i < |was| && Squeezed(now, was, w, i)
    ensures now[i] == was[i] && now[i - 1] == was[i - 1]
    ensures if now[i] != now[i - 1] then Squeezed(now[w := now[i]], was, w + 1, i + 1) else Squeezed(now, was, w, i + 1)
  {
    assert now[w..][i - w] == was[w..][i - w] && now[w..][i - 1 - w] == was[w..][i - 1 - w];
    CompactedSnoc(was, i);
    if now[i] != now[i - 1] {
      var next := now[w := now[i]];
      assert next[..w + 1] == now[..w] + [now[i]];
      assert next[w + 1..] == now[w..][1..] && was[w + 1..] == was[w..][1..];
    }
  }

  lemma SqueezeStart<T>(was: seq<T>, start: nat)
    requires 0 < start < |was| && was[start] == was[start - 1] && Compacted(was[..start]) == was[..start]
    ensures Squeezed(was, was, start, start + 1)
  {
    CompactedSnoc(was, start);
  }

  /** The second loop of slices.Compact, entered at the first repeated element. */
  method Squeeze<T(==)>(a: array<T>, n: nat, start: nat) returns (w: nat)
    requires 0 < start < n <= a.Length && a[start] == a[start - 1]
    requires Compacted(a[..start]) == a[..start]
    modifies a
    ensures w <= n && a[..w] == Compacted(old(a[..n]))
    ensures a[n..] == old(a[n..])
  {
    ghost var was := a[..n];
    w := start;
    var i := start + 1;
    assert was[..start] == a[..start];
    SqueezeStart(was, start);
    while i < n
      invariant 0 < w < i <= n && Squeezed(a[..n], was, w, i)
      invariant a[n..] == old(a[n..])
    {
      w := Keep(a, n, w, i, was);
      i := i + 1;
    }
    assert was[..n] == was && a[..n][..w] == a[..w];
  }

  /** One round of that loop. */
  method Keep<T(==)>(a: array<T>, n: nat, w: nat, i: nat, ghost was: seq<T>) returns (v: nat)
    requires 0 < w < i < n <= a.Length && |was| == n && Squeezed(a[..n], was, w, i)
    modifies a
    ensures w <= v <= w + 1 && Squeezed(a[..n], was, v, i + 1) && a[n..] == old(a[n..])
  {
    ghost var now := a[..n];
    SqueezeOne(now, was, w, i);
    v := w;
    if a[i] != a[i - 1] {
      a[w] := a[i];
      assert a[..n] == now[w := now[i]];
      v := w + 1;
    }
  }

  /** clear, from lo to hi. */
  method Clear<T>(a: array<T>, lo: nat, hi: nat, zero: T)
    requires lo <= hi <= a.Length
    modifies a
    ensures a[..lo] == old(a[..lo]) && a[lo..hi] == Zeros(zero, hi - lo) && a[hi..] == old(a[hi..])
  {
    var x := lo;
    while x < hi
      invariant lo <= x <= hi && a[..lo] == old(a[..lo]) && a[hi..] == old(a[hi..])
      invariant forall y :: lo <= y < x ==> a[y] == zero
    {
      a[x] := zero;
      x := x + 1;
    }
  }

  /** slices.Compact: one of each run of equal elements stays, in place, and the freed tail is zeroed. */
  method Compact<T(==, !new)>(o: Order<T>, s: Slice<T>) returns (r: Slice<T>)
    requires s.Valid()
    modifies s.arr
    ensures r == Slice(s.arr, |Compacted(old(s.Value()))|) && r.len <= s.len
    ensures s.Value() == Compacted(old(s.Value())) + Zeros(o.zero, s.len - r.len)
    ensures forall x :: s.len <= x < s.arr.Length ==> s.arr[x] == old(s.arr[x])
  {
    var a := s.arr;
    ghost var was := s.Value();
    CompactedElements(was);
    if s.len < 2 {
      return s;
    }
    var k := 1;
    while k < s.len
      invariant 1 <= k <= s.len && a[..] == old(a[..])
      invariant Compacted(was[..k]) == was[..k]
    {
      if a[k] == a[k - 1] {
        assert a[..k] == was[..k];
        k := Squeeze(a, s.len, k);
        Clear(a, k, s.len, o.zero);
        return Slice(a, k);
      }
      CompactedSnoc(was, k);
      k := k + 1;
    }
    assert was[..k] == was;
    return s;
  }
}
