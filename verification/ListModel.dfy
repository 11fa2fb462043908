/** What a kernel list is, without pointers: a sequence and the walking index. */
module ListModel {
  import opened Ticks

  /** The ring of a list starts at its end marker, so index -1 is the end marker and index i is the
  i-th item.  Lists whose index never moves are plain sequences with index -1. */
  datatype Ring<T> = Ring(items: seq<T>, index: int) {
    ghost predicate Valid() {
      -1 <= index < |items|
    }

    /** listINSERT_END: directly before the index, so it is the last to be picked. */
    function InsertEnd(x: T): (r: Ring<T>)
      requires -1 <= index < |items|
    {
      var p := if index == -1 then |items| else index;
      Ring(items[..p] + [x] + items[p..], if index == -1 then -1 else index + 1)
    }

    /** Insertion at position p; the index stays on its item. */
    function InsertAt(p: nat, x: T): (r: Ring<T>)
      requires p <= |items|
    {
      Ring(items[..p] + [x] + items[p..], if index >= p then index + 1 else index)
    }

    /** Removal of the item at position p; an index on it moves to the item before. */
    function RemoveAt(p: nat): (r: Ring<T>)
      requires p < |items|
    {
      Ring(items[..p] + items[p + 1..], if index >= p then index - 1 else index)
    }

    /** listGET_OWNER_OF_NEXT_ENTRY: the next index, skipping the end marker. */
    function Next(): (i: nat)
      requires -1 <= index < |items| && |items| > 0
      ensures i < |items|
    {
      if index + 1 == |items| then 0 else index + 1
    }

    /** The index after k picks. */
    function After(k: nat): (r: Ring<T>)
      requires -1 <= index < |items| && |items| > 0
      ensures r.items == items && -1 <= r.index < |items|
      decreases k
    {
      if k == 0 then this else this.(index := Next()).After(k - 1)
    }

    /** The item returned by the k-th pick (from 1). */
    function Pick(k: nat): T
      requires -1 <= index < |items| && |items| > 0 && k > 0
    {
      items[After(k - 1).Next()]
    }
  }

  predicate Differ<T(==)>(s: seq<T>, i: nat, j: nat)
    requires i < |s| && j < |s|
  {
    s[i] != s[j]
  }

  predicate NoDuplicates<T(==)>(s: seq<T>) {
    forall i, j {:trigger Differ(s, i, j)} | 0 <= i < j < |s| :: Differ(s, i, j)
  }

  lemma NoDuplicatesInsert<T>(s: seq<T>, p: nat, x: T)
    requires NoDuplicates(s) && p <= |s| && x !in s
    ensures NoDuplicates(s[..p] + [x] + s[p..])
  {
    var t := s[..p] + [x] + s[p..];
    forall i, j | 0 <= i < j < |t|
      ensures Differ(t, i, j)
    {
      if i != p && j != p {
        assert Differ(s, if i < p then i else i - 1, if j < p then j else j - 1);
      }
    }
  }

  lemma OthersDiffer<T>(s: seq<T>, p: nat)
    requires NoDuplicates(s) && p < |s|
    ensures forall i | 0 <= i < |s| && i != p :: s[i] != s[p]
  {
    forall i | 0 <= i < |s| && i != p
      ensures s[i] != s[p]
    {
      if i < p {
        assert Differ(s, i, p);
      } else {
        assert Differ(s, p, i);
      }
    }
  }

  lemma NoDuplicatesRemove<T>(s: seq<T>, p: nat)
    requires NoDuplicates(s) && p < |s|
    ensures NoDuplicates(s[..p] + s[p + 1..]) && s[p] !in s[..p] + s[p + 1..]
  {
    var t := s[..p] + s[p + 1..];
    forall i, j | 0 <= i < j < |t|
      ensures Differ(t, i, j)
    {
      assert Differ(s, if i < p then i else i + 1, if j < p then j else j + 1);
    }
    forall i | 0 <= i < |t|
      ensures t[i] != s[p]
    {
      if i < p {
        assert Differ(s, i, p);
      } else {
        assert Differ(s, p, i + 1);
      }
    }
  }

  lemma TailOfInsert<T>(s: seq<T>, p: nat, x: T)
    requires p + 1 <= |s|
    ensures (s[..p + 1] + [x] + s[p + 1..])[1..] == s[1..][..p] + [x] + s[1..][p..]
  {
  }

  lemma TailOfRemove<T>(s: seq<T>, p: nat)
    requires p + 1 < |s|
    ensures (s[..p + 1] + s[p + 2..])[1..] == s[1..][..p] + s[1..][p + 1..]
  {
  }

  // ----- walking -----

  /** Until the end marker is skipped, each pick advances by one. */
  lemma {:induction false} AfterIsAdvance<T>(r: Ring<T>, k: nat)
    requires -1 <= r.index < |r.items| && |r.items| > 0
    ensures k <= |r.items| ==>
              r.After(k).index == if k == 0 then r.index
                                  else if r.index + k < |r.items| then r.index + k
                                  else r.index + k - |r.items|
    decreases k
  {
    if 0 < k <= |r.items| {
      AfterIsAdvance(r.(index := r.Next()), k - 1);
    }
  }

  /** |items| successive picks return every item exactly once. */
  lemma PicksVisitEachOnce<T>(r: Ring<T>, x: T)
    requires -1 <= r.index < |r.items| && NoDuplicates(r.items) && x in r.items
    ensures exists k :: 1 <= k <= |r.items| && r.Pick(k) == x
    ensures forall k, l :: 1 <= k <= |r.items| && 1 <= l <= |r.items| && r.Pick(k) == x && r.Pick(l) == x ==> k == l
  {
    var n := |r.items|;
    var i :| 0 <= i < n && r.items[i] == x;
    OthersDiffer(r.items, i);
    var k0 := if i > r.index then i - r.index else i - r.index + n;
    forall k | 1 <= k <= n
      ensures r.Pick(k) == x <==> k == k0
    {
      PickIsAt(r, k);
    }
    assert 1 <= k0 <= n && r.Pick(k0) == x;
  }

  lemma PickIsAt<T>(r: Ring<T>, k: nat)
    requires -1 <= r.index < |r.items| && 1 <= k <= |r.items|
    ensures r.Pick(k) == r.items[if r.index + k < |r.items| then r.index + k else r.index + k - |r.items|]
  {
    AfterIsAdvance(r, k - 1);
  }

  /** An item inserted at the end is picked after every item already in the list except the
  one the index is on, which had its turn just before. */
  lemma InsertedLastIsPickedLast<T>(r: Ring<T>, x: T)
    requires -1 <= r.index < |r.items| && x !in r.items
    ensures r.InsertEnd(x).Valid()
    ensures var others := if r.index == -1 then |r.items| else |r.items| - 1;
            && (forall k | 1 <= k <= others :: r.InsertEnd(x).Pick(k) == r.Pick(k))
            && r.InsertEnd(x).Pick(others + 1) == x
  {
    var s := r.InsertEnd(x);
    var others := if r.index == -1 then |r.items| else |r.items| - 1;
    AfterIsAdvance(s, others);
    forall k | 1 <= k <= others
      ensures s.Pick(k) == r.Pick(k)
    {
      AfterIsAdvance(s, k - 1);
      AfterIsAdvance(r, k - 1);
    }
  }

  /** The picks of one round of s are those of r, with the m-th left out. */
  ghost predicate LeftOut<T>(r: Ring<T>, s: Ring<T>, m: nat)
    requires r.Valid() && s.Valid() && |r.items| > 1 && |s.items| == |r.items| - 1
  {
    forall k | 1 <= k < |r.items| :: s.Pick(k) == r.Pick(if k < m then k else k + 1)
  }

  /** Removing an item does not disturb the turns of the others: the picks of one round are those
  before the removal, with the item left out. */
  lemma RemovalKeepsTurns<T>(r: Ring<T>, p: nat)
    requires r.Valid() && p < |r.items| && |r.items| > 1
    ensures r.RemoveAt(p).Valid() && |r.RemoveAt(p).items| == |r.items| - 1
    ensures exists m :: 1 <= m <= |r.items| && r.Pick(m) == r.items[p] && LeftOut(r, r.RemoveAt(p), m)
  {
    var n := |r.items|;
    var m := if p > r.index then p - r.index else p - r.index + n;
    PickIsAt(r, m);
    forall k | 1 <= k < n
      ensures r.RemoveAt(p).Pick(k) == r.Pick(if k < m then k else k + 1)
    {
      TurnAfterRemoval(r, p, m, k);
    }
    assert LeftOut(r, r.RemoveAt(p), m);
  }

  lemma TurnAfterRemoval<T>(r: Ring<T>, p: nat, m: nat, k: nat)
    requires r.Valid() && p < |r.items| && 1 <= k < |r.items|
    requires m == if p > r.index then p - r.index else p - r.index + |r.items|
    ensures r.RemoveAt(p).Valid() && r.RemoveAt(p).Pick(k) == r.Pick(if k < m then k else k + 1)
  {
    PickIsAt(r.RemoveAt(p), k);
    PickIsAt(r, if k < m then k else k + 1);
  }

  /** Inserting an item leaves the walking index on its item, or on the end marker. */
  lemma InsertionKeepsCursor<T>(r: Ring<T>, p: nat, x: T)
    requires r.Valid() && p <= |r.items|
    ensures var s := r.InsertAt(p, x);
            && s.Valid() && (r.index == -1 <==> s.index == -1)
            && (r.index >= 0 ==> s.items[s.index] == r.items[r.index])
  {
  }

  // ----- sorted insertion -----

  datatype Entry<T> = Entry(value: Tick, owner: T)

  /** First position whose value exceeds v: where vListInsert puts an item of value v. */
  function UpperBound(values: seq<Tick>, v: Tick): (p: nat)
    ensures p <= |values|
    ensures forall i | 0 <= i < p :: values[i] <= v
    ensures p < |values| ==> v < values[p]
  {
    if |values| == 0 || v < values[0] then 0 else 1 + UpperBound(values[1..], v)
  }

  /** These three facts determine the position. */
  lemma UpperBoundIsUnique(values: seq<Tick>, v: Tick, p: nat)
    requires p <= |values|
    requires forall i | 0 <= i < p :: values[i] <= v
    requires p < |values| ==> v < values[p]
    ensures p == UpperBound(values, v)
  {
  }

  function Values<T>(s: seq<Entry<T>>): (r: seq<Tick>)
    ensures |r| == |s| && forall i | 0 <= i < |s| :: r[i] == s[i].value
  {
    seq(|s|, i requires 0 <= i < |s| => s[i].value)
  }

  /** vListInsert on a list whose index stays on the end marker. */
  function InsertSorted<T>(s: seq<Entry<T>>, e: Entry<T>): seq<Entry<T>> {
    var p := UpperBound(Values(s), e.value);
    s[..p] + [e] + s[p..]
  }

  predicate Sorted<T>(s: seq<Entry<T>>) {
    forall i, j | 0 <= i < j < |s| :: s[i].value <= s[j].value
  }

  /** Insertion puts the new entry behind every entry of an equal or smaller value, so equal
  values stay in order of arrival, and before every larger one. */
  lemma InsertSortedPosition<T>(s: seq<Entry<T>>, e: Entry<T>)
    requires Sorted(s)
    ensures var p := UpperBound(Values(s), e.value);
            && InsertSorted(s, e) == s[..p] + [e] + s[p..]
            && (forall i | 0 <= i < p :: s[i].value <= e.value)
            && (forall i | p <= i < |s| :: e.value < s[i].value)
  {
    var p := UpperBound(Values(s), e.value);
    if p < |s| {
      assert e.value < Values(s)[p] == s[p].value;
    }
  }

  lemma InsertSortedKeepsSorted<T>(s: seq<Entry<T>>, e: Entry<T>)
    requires Sorted(s)
    ensures Sorted(InsertSorted(s, e))
  {
    InsertSortedPosition(s, e);
  }

  lemma InsertSortedAdds<T>(s: seq<Entry<T>>, e: Entry<T>)
    ensures multiset(InsertSorted(s, e)) == multiset(s) + multiset{e}
    ensures forall x :: x in InsertSorted(s, e) <==> x in s || x == e
  {
    var p := UpperBound(Values(s), e.value);
    assert s == s[..p] + s[p..];
  }
}
