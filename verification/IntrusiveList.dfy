/** The circular doubly linked list with an end marker.  Its nodes are heap objects, and each operation
is the pointer surgery of list.c and list.h, proved to do to the ring that the nodes stand for what
the function in module ListModel does. */
module IntrusiveList {
  import opened Ticks
  import opened ListModel

  class ListItem {
    var xItemValue: Tick
    var pxNext: ListItem?
    var pxPrevious: ListItem?
    var pxContainer: List?

    /** vListInitialiseItem, with the value set by the caller. */
    constructor (value: Tick)
      ensures xItemValue == value && pxContainer == null
    {
      xItemValue := value;
      pxNext, pxPrevious, pxContainer := null, null, null;
    }
  }

  function Succ(i: nat, n: nat): (j: nat)
    requires i < n
    ensures j < n
  {
    if i + 1 == n then 0 else i + 1
  }

  function Pred(i: nat, n: nat): (j: nat)
    requires i < n
    ensures j < n
  {
    if i == 0 then n - 1 else i - 1
  }

  class List {
    var uxNumberOfItems: nat
    var pxIndex: ListItem
    const xListEnd: ListItem
    ghost var ring: seq<ListItem>   // the end marker, then the items in order
    ghost var cursor: int           // pxIndex is ring[cursor + 1]

    ghost predicate LinkedAt(i: nat)
      requires i < |ring|
      reads `ring, ring
    {
      && ring[i].pxNext == ring[Succ(i, |ring|)]
      && ring[i].pxPrevious == ring[Pred(i, |ring|)]
    }

    ghost predicate Linked()
      reads `ring, ring
    {
      forall i {:trigger LinkedAt(i)} | 0 <= i < |ring| :: LinkedAt(i)
    }

    /** Everything but the walking index. */
    ghost predicate RingOk()
      reads `ring, `uxNumberOfItems, ring
    {
      && |ring| > 0 && ring[0] == xListEnd
      && NoDuplicates(ring)
      && Linked()
      && xListEnd.xItemValue == MAX_DELAY
      && uxNumberOfItems == |ring| - 1
      && (forall i | 0 < i < |ring| :: ring[i].pxContainer == this)
    }

    ghost predicate Valid()
      reads this, ring
    {
      && RingOk()
      && -1 <= cursor < |ring| - 1
      && pxIndex == ring[cursor + 1]
    }

    /** The ring of ListModel this list stands for. */
    ghost function Model(): (r: Ring<ListItem>)
      requires Valid()
      reads this, ring
      ensures r.Valid()
    {
      Ring(ring[1..], cursor)
    }

    ghost function ItemValues(): (v: seq<Tick>)
      requires Valid()
      reads this, ring
      ensures |v| == |ring| - 1 && forall i | 0 <= i < |v| :: v[i] == ring[i + 1].xItemValue
    {
      seq(|ring| - 1, i requires 0 <= i < |ring| - 1 reads this, ring => ring[i + 1].xItemValue)
    }

    /** vListInitialise. */
    constructor ()
      ensures Valid() && fresh(this) && fresh(xListEnd)
      ensures Model() == Ring([], -1)
    {
      var end := new ListItem(MAX_DELAY);
      xListEnd := end;
      pxIndex := end;
      uxNumberOfItems := 0;
      ring := [end];
      cursor := -1;
      new;
      xListEnd.pxNext := xListEnd;
      xListEnd.pxPrevious := xListEnd;
    }

    twostate lemma SplicedIsLinked(p: nat, new item: ListItem)
      requires old(Linked()) && p < old(|ring|)
      requires ring == old(ring)[..p + 1] + [item] + old(ring)[p + 1..]
      requires item.pxPrevious == old(ring)[p] && old(ring)[p].pxNext == item
      requires item.pxNext == old(ring)[Succ(p, old(|ring|))] && item.pxNext.pxPrevious == item
      requires forall i | 0 <= i < old(|ring|) && i != p ::
                 old(ring)[i].pxNext == old(ring[i].pxNext)
      requires forall i | 0 <= i < old(|ring|) && i != Succ(p, old(|ring|)) ::
                 old(ring)[i].pxPrevious == old(ring[i].pxPrevious)
      ensures Linked()
    {
      forall i | 0 <= i < |ring|
        ensures LinkedAt(i)
      {
        if i != p + 1 {
          assert old(LinkedAt(if i <= p then i else i - 1));
        }
      }
    }

    /** The pointer assignments of vListInsert and vListInsertEnd: `item` goes between `before`,
    which is ring[p], and the node after it. */
    method Splice(before: ListItem, item: ListItem, ghost p: nat)
      requires RingOk() && item !in ring && p < |ring| && before == ring[p]
      modifies `uxNumberOfItems, `ring, (set n | n in ring)`pxNext, (set n | n in ring)`pxPrevious
      modifies item`pxNext, item`pxPrevious, item`pxContainer
      ensures RingOk() && ring == old(ring)[..p + 1] + [item] + old(ring)[p + 1..]
    {
      assert LinkedAt(p);
      OthersDiffer(ring, p);
      OthersDiffer(ring, Succ(p, |ring|));
      NoDuplicatesInsert(ring, p + 1, item);
      item.pxNext := before.pxNext;
      item.pxNext.pxPrevious := item;
      item.pxPrevious := before;
      before.pxNext := item;
      item.pxContainer := this;
      uxNumberOfItems := uxNumberOfItems + 1;
      ring := ring[..p + 1] + [item] + ring[p + 1..];
      SplicedIsLinked(p, item);
      forall i | 0 < i < |ring|
        ensures ring[i].pxContainer == this
      {
        assert ring[i] == if i <= p then old(ring)[i] else if i == p + 1 then item else old(ring)[i - 1];
      }
    }

    /** Both insertions leave pxIndex on the same node. */
    method InsertAfter(before: ListItem, item: ListItem, ghost p: nat)
      requires Valid() && item !in ring && p < |ring| && before == ring[p]
      modifies `uxNumberOfItems, `ring, `cursor
      modifies (set n | n in ring)`pxNext, (set n | n in ring)`pxPrevious
      modifies item`pxNext, item`pxPrevious, item`pxContainer
      ensures Valid() && Model() == old(Model()).InsertAt(p, item)
    {
      TailOfInsert(ring, p, item);
      Splice(before, item, p);
      cursor := if cursor >= p then cursor + 1 else cursor;
    }

    /** vListInsertEnd and listINSERT_END. */
    method InsertEnd(item: ListItem)
      requires Valid() && item !in ring && item.pxContainer == null
      modifies this, (set n | n in ring)`pxNext, (set n | n in ring)`pxPrevious
      modifies item`pxNext, item`pxPrevious, item`pxContainer
      ensures Valid() && Model() == old(Model()).InsertEnd(item)
    {
      assert LinkedAt(cursor + 1);
      InsertAfter(pxIndex.pxPrevious, item, if cursor == -1 then |ring| - 1 else cursor);
    }

    /** vListInsert. */
    method Insert(item: ListItem)
      requires Valid() && item !in ring && item.pxContainer == null
      modifies this, (set n | n in ring)`pxNext, (set n | n in ring)`pxPrevious
      modifies item`pxNext, item`pxPrevious, item`pxContainer
      ensures Valid()
      ensures Model() == old(Model()).InsertAt(UpperBound(old(ItemValues()), item.xItemValue), item)
    {
      ghost var p;
      var before;
      p, before := FindBefore(item.xItemValue);
      InsertAfter(before, item, p);
    }

    /** The insertion scan of vListInsert. */
    method FindBefore(v: Tick) returns (ghost p: nat, before: ListItem)
      requires Valid()
      ensures before == ring[UpperBound(ItemValues(), v)] && p == UpperBound(ItemValues(), v)
    {
      if v == MAX_DELAY {
        assert LinkedAt(0);
        before := xListEnd.pxPrevious;
        p := |ring| - 1;
      } else {
        before := xListEnd;
        p := 0;
        assert LinkedAt(0);
        while before.pxNext.xItemValue <= v
          invariant 0 <= p < |ring| && before == ring[p] && LinkedAt(p)
          invariant forall i | 0 < i <= p :: ring[i].xItemValue <= v
          decreases |ring| - p
        {
          before := before.pxNext;
          p := p + 1;
          assert LinkedAt(p);
        }
      }
      UpperBoundIsUnique(ItemValues(), v, p);
    }

    /** uxListRemove and listREMOVE_ITEM: the list is found through the item. */
    static method Remove(item: ListItem, ghost p: nat) returns (left: nat)
      requires item.pxContainer != null && item.pxContainer.Valid()
      requires p + 1 < |item.pxContainer.ring| && item.pxContainer.ring[p + 1] == item
      modifies item.pxContainer, (set n | n in item.pxContainer.ring)`pxNext
      modifies (set n | n in item.pxContainer.ring)`pxPrevious, item`pxContainer
      ensures item.pxContainer == null
      ensures var list := old(item.pxContainer);
              && list.Valid() && left == list.uxNumberOfItems
              && list.Model() == old(item.pxContainer.Model()).RemoveAt(p)
    {
      var list := item.pxContainer;
      TailOfRemove(list.ring, p);
      OthersDiffer(list.ring, list.cursor + 1);
      assert list.LinkedAt(p + 1);
      var previous := item.pxPrevious;
      list.Unlink(item, p);
      if list.pxIndex == item {
        list.pxIndex := previous;
      }
      list.cursor := if list.cursor >= p then list.cursor - 1 else list.cursor;
      left := list.uxNumberOfItems;
    }

    /** The pointer assignments of uxListRemove. */
    method Unlink(item: ListItem, ghost p: nat)
      requires RingOk() && p + 1 < |ring| && ring[p + 1] == item
      modifies `uxNumberOfItems, `ring, (set n | n in ring)`pxNext, (set n | n in ring)`pxPrevious, item`pxContainer
      ensures RingOk() && ring == old(ring)[..p + 1] + old(ring)[p + 2..] && item.pxContainer == null
    {
      assert LinkedAt(p + 1);
      OthersDiffer(ring, p);
      OthersDiffer(ring, p + 1);
      OthersDiffer(ring, Succ(p + 1, |ring|));
      NoDuplicatesRemove(ring, p + 1);
      item.pxNext.pxPrevious := item.pxPrevious;
      item.pxPrevious.pxNext := item.pxNext;
      item.pxContainer := null;
      uxNumberOfItems := uxNumberOfItems - 1;
      ring := ring[..p + 1] + ring[p + 2..];
      assert item !in ring;
      UnlinkedIsLinked(p);
      forall i | 0 < i < |ring|
        ensures ring[i].pxContainer == this
      {
        assert ring[i] == old(ring)[if i <= p then i else i + 1] && ring[i] in ring;
      }
    }

    twostate lemma UnlinkedIsLinked(p: nat)
      requires old(RingOk()) && p + 1 < old(|ring|)
      requires var was := old(ring);
               var next := Succ(p + 1, |was|);
               && ring == was[..p + 1] + was[p + 2..]
               && was[p].pxNext == was[next] && was[next].pxPrevious == was[p]
               && (forall i | 0 <= i < |was| && i != p :: was[i].pxNext == old(was[i].pxNext))
               && (forall i | 0 <= i < |was| && i != next :: was[i].pxPrevious == old(was[i].pxPrevious))
      ensures Linked()
    {
      forall i | 0 <= i < |ring|
        ensures LinkedAt(i)
      {
        assert old(LinkedAt(if i <= p then i else i + 1));
      }
    }

    /** listGET_OWNER_OF_NEXT_ENTRY. */
    method NextEntry() returns (item: ListItem)
      requires Valid() && uxNumberOfItems > 0
      modifies `pxIndex, `cursor
      ensures Valid() && Model() == old(Model()).(index := old(Model()).Next())
      ensures item == Model().items[Model().index]
    {
      assert LinkedAt(cursor + 1) && LinkedAt(0);
      OthersDiffer(ring, 0);
      pxIndex := pxIndex.pxNext;
      if pxIndex == xListEnd {
        pxIndex := pxIndex.pxNext;
      }
      cursor := if cursor + 2 == |ring| then 0 else cursor + 1;
      assert forall i | 0 <= i < |ring| :: old(LinkedAt(i)) ==> LinkedAt(i);
      item := pxIndex;
    }
  }
}
