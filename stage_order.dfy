/** The canonical stage order and the in-place sort of the raw records by
    their position in it (`data.sort` with an `indexOf` comparator; the
    sort that comparator drives is stable). */
module StageOrder {
  import opened FunnelTypes

  const FunnelOrder: seq<string> := ["Suspect", "Qualify", "Demo", "Proposal", "Negotiate", "Won"]

  /** Array.prototype.indexOf: the first position of x, or -1. */
  function IndexOf(order: seq<string>, x: string): (r: int)
    ensures -1 <= r < |order|
    ensures r == -1 <==> x !in order
    ensures 0 <= r ==> order[r] == x && x !in order[..r]
  {
    if |order| == 0 then -1
    else if order[0] == x then 0
    else
      var k := IndexOf(order[1..], x);
      assert order == [order[0]] + order[1..];
      if k == -1 then -1
      else
        assert order[..k + 1] == [order[0]] + order[1..][..k];
        k + 1
  }

  /** The sort key of a record: its label's index in FunnelOrder. */
  function Key(r: StageRecord): int
  {
    IndexOf(FunnelOrder, r.name)
  }

  /** Unknown labels get key -1 and so sort before "Suspect" (key 0). */
  lemma KeyRange(r: StageRecord)
    ensures -1 <= Key(r) < 6
    ensures Key(r) == -1 <==> r.name !in FunnelOrder
    ensures Key(r) == 0 <==> r.name == "Suspect"
  {
  }

  /** The comparator `key(a) - key(b)` orders s. */
  ghost predicate Sorted(s: seq<StageRecord>, key: StageRecord -> int)
  {
    forall i, j :: 0 <= i < j < |s| ==> key(s[i]) <= key(s[j])
  }

  /** The records of s with key k, in their original relative order. */
  function Filter(s: seq<StageRecord>, key: StageRecord -> int, k: int): seq<StageRecord>
  {
    if |s| == 0 then []
    else Filter(s[..|s| - 1], key, k) + (if key(s[|s| - 1]) == k then [s[|s| - 1]] else [])
  }

  /** Insert x after every element whose key is at most x's. */
  function Insert(t: seq<StageRecord>, x: StageRecord, key: StageRecord -> int): seq<StageRecord>
  {
    if |t| == 0 then [x]
    else if key(t[|t| - 1]) <= key(x) then t + [x]
    else Insert(t[..|t| - 1], x, key) + [t[|t| - 1]]
  }

  /** The stable sort of s by key (insertion sort). */
  function SortBy(s: seq<StageRecord>, key: StageRecord -> int): seq<StageRecord>
  {
    if |s| == 0 then [] else Insert(SortBy(s[..|s| - 1], key), s[|s| - 1], key)
  }

  /** The order `data.sort` leaves the records in. */
  function SortByStage(s: seq<StageRecord>): seq<StageRecord>
  {
    SortBy(s, Key)
  }

  lemma {:induction false} InsertMultiset(t: seq<StageRecord>, x: StageRecord, key: StageRecord -> int)
    ensures multiset(Insert(t, x, key)) == multiset(t) + multiset{x}
  {
    if |t| > 0 && key(t[|t| - 1]) > key(x) {
      InsertMultiset(t[..|t| - 1], x, key);
      assert t == t[..|t| - 1] + [t[|t| - 1]];
    }
  }

  lemma {:induction false} InsertSorted(t: seq<StageRecord>, x: StageRecord, key: StageRecord -> int)
    requires Sorted(t, key)
    ensures Sorted(Insert(t, x, key), key)
  {
    if |t| > 0 && key(t[|t| - 1]) > key(x) {
      var d, last := t[..|t| - 1], t[|t| - 1];
      InsertSorted(d, x, key);
      InsertMultiset(d, x, key);
      var u := Insert(d, x, key);
      forall i | 0 <= i < |u| ensures key(u[i]) <= key(last) {
        assert u[i] in multiset(u);
        if u[i] != x {
          assert u[i] in multiset(d);
          var m :| 0 <= m < |d| && d[m] == u[i];
          assert t[m] == u[i];
        }
      }
      assert Insert(t, x, key) == u + [last];
    }
  }

  /** Inserting x keeps, for every key, the order of the records with
      that key: x only moves left past records whose keys exceed its own. */
  lemma {:induction false} InsertFilter(t: seq<StageRecord>, x: StageRecord, key: StageRecord -> int, k: int)
    ensures Filter(Insert(t, x, key), key, k) == Filter(t, key, k) + (if key(x) == k then [x] else [])
  {
    if |t| == 0 {
      assert Filter([x], key, k) == Filter([x][..0], key, k) + (if key(x) == k then [x] else []);
    } else if key(t[|t| - 1]) <= key(x) {
      assert (t + [x])[..|t|] == t;
    } else {
      var d, last := t[..|t| - 1], t[|t| - 1];
      InsertFilter(d, x, key, k);
      var u := Insert(d, x, key);
      var fx := if key(x) == k then [x] else [];
      var fl := if key(last) == k then [last] else [];
      assert (u + [last])[..|u|] == u;
      assert Filter(u + [last], key, k) == Filter(u, key, k) + fl;
      // last's key exceeds x's, so at most one of them has key k
      assert fx == [] || fl == [];
      assert fx + fl == fl + fx;
    }
  }

  /** SortBy yields a permutation of its input, ordered by key. */
  lemma {:induction false} SortSortedPermutation(s: seq<StageRecord>, key: StageRecord -> int)
    ensures Sorted(SortBy(s, key), key)
    ensures multiset(SortBy(s, key)) == multiset(s)
    ensures |SortBy(s, key)| == |s|
  {
    if |s| > 0 {
      var d := s[..|s| - 1];
      SortSortedPermutation(d, key);
      InsertSorted(SortBy(d, key), s[|s| - 1], key);
      InsertMultiset(SortBy(d, key), s[|s| - 1], key);
      assert s == d + [s[|s| - 1]];
      assert |multiset(SortBy(s, key))| == |s|;
    }
  }

  /** Stability: for every key value, the records with that key keep their
      relative order. */
  lemma {:induction false} SortStable(s: seq<StageRecord>, key: StageRecord -> int, k: int)
    ensures Filter(SortBy(s, key), key, k) == Filter(s, key, k)
  {
    if |s| > 0 {
      var d := s[..|s| - 1];
      SortStable(d, key, k);
      SortSortedPermutation(d, key);
      InsertFilter(SortBy(d, key), s[|s| - 1], key, k);
    }
  }

  /** The sort by stage: a permutation, with non-decreasing stage index and
      stable for records of the same stage. */
  lemma SortByStageSpec(s: seq<StageRecord>)
    ensures |SortByStage(s)| == |s| && multiset(SortByStage(s)) == multiset(s)
    ensures forall i, j :: 0 <= i < j < |s| ==> Key(SortByStage(s)[i]) <= Key(SortByStage(s)[j])
    ensures forall k :: Filter(SortByStage(s), Key, k) == Filter(s, Key, k)
  {
    SortSortedPermutation(s, Key);
    forall k ensures Filter(SortByStage(s), Key, k) == Filter(s, Key, k) {
      SortStable(s, Key, k);
    }
  }

  /** Records with an unknown label end up before every record of a known
      stage, "Suspect" included. */
  lemma UnknownFirst(s: seq<StageRecord>, i: nat, j: nat)
    requires i < |SortByStage(s)| && j < |SortByStage(s)|
    requires SortByStage(s)[i].name !in FunnelOrder
    requires SortByStage(s)[j].name in FunnelOrder
    ensures i < j
  {
    SortSortedPermutation(s, Key);
    KeyRange(SortByStage(s)[i]);
    KeyRange(SortByStage(s)[j]);
  }

  lemma {:induction false} FilterWithin(s: seq<StageRecord>, key: StageRecord -> int, k: int)
    ensures forall e :: e in Filter(s, key, k) ==> e in s && key(e) == k
  {
    if |s| > 0 {
      FilterWithin(s[..|s| - 1], key, k);
      assert s == s[..|s| - 1] + [s[|s| - 1]];
    }
  }

  /** The filter at the last element's key ends with that element. */
  lemma FilterAtLastKey(t: seq<StageRecord>, key: StageRecord -> int)
    requires |t| > 0
    ensures |Filter(t, key, key(t[|t| - 1]))| > 0
    ensures Filter(t, key, key(t[|t| - 1]))[|Filter(t, key, key(t[|t| - 1]))| - 1] == t[|t| - 1]
  {
  }

  /** In a sorted sequence, no key with a non-empty filter exceeds the
      last element's key. */
  lemma LastKeyAtLeast(t: seq<StageRecord>, key: StageRecord -> int, k: int)
    requires Sorted(t, key) && Filter(t, key, k) != []
    ensures |t| > 0 && k <= key(t[|t| - 1])
  {
    FilterWithin(t, key, k);
    var e := Filter(t, key, k)[0];
    assert e in Filter(t, key, k);
    var m :| 0 <= m < |t| && t[m] == e;
  }

  /** Two sorted sequences with the same per-key filters end in the same
      element. */
  lemma SameLast(t1: seq<StageRecord>, t2: seq<StageRecord>, key: StageRecord -> int)
    requires Sorted(t1, key) && Sorted(t2, key) && |t1| > 0 && |t2| > 0
    requires forall k :: Filter(t1, key, k) == Filter(t2, key, k)
    ensures t1[|t1| - 1] == t2[|t2| - 1]
  {
    var l1, l2 := t1[|t1| - 1], t2[|t2| - 1];
    FilterAtLastKey(t1, key);
    FilterAtLastKey(t2, key);
    assert Filter(t1, key, key(l2)) == Filter(t2, key, key(l2));
    assert Filter(t1, key, key(l1)) == Filter(t2, key, key(l1));
    LastKeyAtLeast(t1, key, key(l2));
    LastKeyAtLeast(t2, key, key(l1));
    var f := Filter(t1, key, key(l1));
    assert f[|f| - 1] == l1 && f[|f| - 1] == l2;
  }

  lemma SortedPrefix(t: seq<StageRecord>, key: StageRecord -> int)
    requires Sorted(t, key) && |t| > 0
    ensures Sorted(t[..|t| - 1], key)
  {
  }

  /** Equal filters of two sequences ending in the same element give equal
      filters of what precedes it. */
  lemma FiltersOfPrefixes(d1: seq<StageRecord>, d2: seq<StageRecord>, l: StageRecord, key: StageRecord -> int)
    requires forall k :: Filter(d1 + [l], key, k) == Filter(d2 + [l], key, k)
    ensures forall k :: Filter(d1, key, k) == Filter(d2, key, k)
  {
    assert (d1 + [l])[..|d1|] == d1;
    assert (d2 + [l])[..|d2|] == d2;
    forall k ensures Filter(d1, key, k) == Filter(d2, key, k) {
      var e := if key(l) == k then [l] else [];
      var f1, f2 := Filter(d1 + [l], key, k), Filter(d2 + [l], key, k);
      assert f1 == Filter(d1, key, k) + e;
      assert f2 == Filter(d2, key, k) + e;
      assert Filter(d1, key, k) == f1[..|f1| - |e|];
    }
  }

  /** A sorted sequence is determined by its per-key filters. */
  lemma {:induction false} SortedUnique(t1: seq<StageRecord>, t2: seq<StageRecord>, key: StageRecord -> int)
    requires Sorted(t1, key) && Sorted(t2, key)
    requires forall k :: Filter(t1, key, k) == Filter(t2, key, k)
    ensures t1 == t2
    decreases |t1| + |t2|
  {
    if |t1| == 0 && |t2| > 0 {
      FilterAtLastKey(t2, key);
      assert false;
    } else if |t1| > 0 && |t2| == 0 {
      FilterAtLastKey(t1, key);
      assert false;
    } else if |t1| > 0 {
      SameLast(t1, t2, key);
      var d1, d2, l := t1[..|t1| - 1], t2[..|t2| - 1], t1[|t1| - 1];
      assert t1 == d1 + [l];
      assert t2 == d2 + [l];
      FiltersOfPrefixes(d1, d2, l, key);
      SortedPrefix(t1, key);
      SortedPrefix(t2, key);
      SortedUnique(d1, d2, key);
    }
  }

  /** Sort invariance: two inputs that agree, stage by stage, on the
      relative order of that stage's records sort to the same output. */
  lemma SortInvariant(s1: seq<StageRecord>, s2: seq<StageRecord>)
    requires forall k :: Filter(s1, Key, k) == Filter(s2, Key, k)
    ensures SortByStage(s1) == SortByStage(s2)
  {
    SortSortedPermutation(s1, Key);
    SortSortedPermutation(s2, Key);
    forall k ensures Filter(SortByStage(s1), Key, k) == Filter(SortByStage(s2), Key, k) {
      SortStable(s1, Key, k);
      SortStable(s2, Key, k);
    }
    SortedUnique(SortByStage(s1), SortByStage(s2), Key);
  }

  /** Three records whose keys are ordered b, c, a sort to b, c, a. */
  lemma SortThree(a: StageRecord, b: StageRecord, c: StageRecord, key: StageRecord -> int)
    requires key(b) < key(c) < key(a)
    ensures SortBy([a, b, c], key) == [b, c, a]
  {
    var s := [a, b, c];
    assert s[..1] == [a] && s[..2] == [a, b];
    assert [a][..0] == [] && [b, a][..1] == [b] && [b][..0] == [];
    assert SortBy([a], key) == Insert([], a, key) == [a];
    assert SortBy(s[..2], key) == Insert([a], b, key) == Insert([], b, key) + [a] == [b, a];
    assert SortBy(s, key) == Insert([b, a], c, key) == Insert([b], c, key) + [a];
  }

  /** A shuffled three-stage input comes out in funnel order. */
  lemma SortExample()
    ensures var suspect := StageRecord("Suspect", 1000, 500000.0, 0.0, 0.0);
            var qualify := StageRecord("Qualify", 400, 300000.0, 0.4, 0.6);
            var won := StageRecord("Won", 50, 100000.0, 0.125, 0.333);
            SortByStage([won, suspect, qualify]) == [suspect, qualify, won]
  {
    var suspect := StageRecord("Suspect", 1000, 500000.0, 0.0, 0.0);
    var qualify := StageRecord("Qualify", 400, 300000.0, 0.4, 0.6);
    var won := StageRecord("Won", 50, 100000.0, 0.125, 0.333);
    assert FunnelOrder[0] == "Suspect" && FunnelOrder[1] == "Qualify" && FunnelOrder[5] == "Won";
    assert Key(suspect) == 0;
    assert Key(qualify) == 1;
    assert Key(won) == 5;
    SortThree(won, suspect, qualify, Key);
  }

  /** Inserting x into t where every later element has a larger key. */
  lemma {:induction false} InsertSplit(t: seq<StageRecord>, j: nat, x: StageRecord, key: StageRecord -> int)
    requires j <= |t|
    requires forall m :: j <= m < |t| ==> key(t[m]) > key(x)
    ensures Insert(t, x, key) == Insert(t[..j], x, key) + t[j..]
    decreases |t| - j
  {
    if j < |t| {
      var d := t[..|t| - 1];
      InsertSplit(d, j, x, key);
      assert d[..j] == t[..j];
      assert d[j..] + [t[|t| - 1]] == t[j..];
    } else {
      assert t[..j] == t;
    }
  }

  /** One step of the in-place sort: a[i] is swapped left past every
      element of the sorted prefix a[..i] with a larger key. */
  method InsertAt(a: array<StageRecord>, i: nat, key: StageRecord -> int)
    requires i < a.Length
    modifies a
    ensures a[..i + 1] == Insert(old(a[..i]), old(a[i]), key)
    ensures forall m :: i < m < a.Length ==> a[m] == old(a[m])
  {
    ghost var t := a[..i];
    var x := a[i];
    var j := i;
    while j > 0 && key(a[j - 1]) > key(x)
      invariant 0 <= j <= i
      invariant forall m :: 0 <= m < j ==> a[m] == t[m]
      invariant a[j] == x
      invariant forall m :: j < m <= i ==> a[m] == t[m - 1]
      invariant forall m :: i < m < a.Length ==> a[m] == old(a[m])
      invariant forall m :: j <= m < i ==> key(t[m]) > key(x)
    {
      a[j - 1], a[j] := a[j], a[j - 1];
      j := j - 1;
    }
    PlacedIsInsert(a[..i + 1], t, j, x, key);
  }

  /** The array shape the insertion loop leaves: the prefix of t, then x,
      then the rest of t, all larger than x, is Insert(t, x). */
  lemma PlacedIsInsert(r: seq<StageRecord>, t: seq<StageRecord>, j: nat, x: StageRecord, key: StageRecord -> int)
    requires j <= |t| && |r| == |t| + 1
    requires forall m :: 0 <= m < j ==> r[m] == t[m]
    requires r[j] == x
    requires forall m :: j < m <= |t| ==> r[m] == t[m - 1]
    requires forall m :: j <= m < |t| ==> key(t[m]) > key(x)
    requires j == 0 || key(t[j - 1]) <= key(x)
    ensures r == Insert(t, x, key)
  {
    InsertSplit(t, j, x, key);
    assert Insert(t[..j], x, key) == t[..j] + [x];
    assert r == t[..j] + [x] + t[j..];
  }

  /** `data.sort((a, b) => key(a) - key(b))`, in place: insertion sort. */
  method SortInPlace(a: array<StageRecord>, key: StageRecord -> int)
    modifies a
    ensures a[..] == SortBy(old(a[..]), key)
  {
    ghost var s := a[..];
    var i := 0;
    while i < a.Length
      invariant 0 <= i <= a.Length
      invariant a[..i] == SortBy(s[..i], key)
      invariant forall m :: i <= m < a.Length ==> a[m] == s[m]
    {
      InsertAt(a, i, key);
      assert s[..i + 1][..i] == s[..i];
      i := i + 1;
    }
    assert a[..] == a[..a.Length];
    assert s == s[..a.Length];
  }
}
