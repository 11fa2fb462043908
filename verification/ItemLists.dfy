/** A family of kernel lists over the same kind of list item. */
module ItemLists {
  import opened ListModel

  type Task = nat

  /** Where an element stands in a sequence. */
  function Position<T(==)>(s: seq<T>, x: T): (i: nat)
    requires x in s
    ensures i < |s| && s[i] == x
  {
    if s[0] == x then 0 else 1 + Position(s[1..], x)
  }

  /** Every task has one state list item and one event list item.  An item records the list it is in
  (pxContainer), so it can be unlinked without naming the list.  Both views are kept: what is in
  each list, and where each item says it is. */
  datatype Lists<P(==)> = Lists(at: map<P, Ring<Task>>, container: map<Task, P>) {
    /** A list that was never touched is empty. */
    function Of(p: P): Ring<Task> {
      if p in at then at[p] else Ring([], -1)
    }

    predicate Holds(p: P, t: Task) {
      t in Of(p).items
    }

    /** listREMOVE_ITEM, uxListRemove. */
    function Unlink(t: Task): Lists<P>
      requires t in container && Holds(container[t], t)
    {
      var p := container[t];
      Lists(at[p := Of(p).RemoveAt(Position(Of(p).items, t))], container - {t})
    }

    /** listINSERT_END, vListInsertEnd. */
    function Append(p: P, t: Task): Lists<P>
      requires -1 <= Of(p).index < |Of(p).items|
    {
      Lists(at[p := Of(p).InsertEnd(t)], container[t := p])
    }

    /** vListInsert, once the position is known. */
    function InsertAt(p: P, i: nat, t: Task): Lists<P>
      requires i <= |Of(p).items|
    {
      Lists(at[p := Of(p).InsertAt(i, t)], container[t := p])
    }
  }

  /** Every item is in exactly the list its container names, once, and every index is on a live
  item or the end marker. */
  ghost predicate Consistent<P(!new)>(l: Lists<P>) {
    && (forall p :: ListOk(l, p))
    && (forall p, t {:trigger l.Holds(p, t)} :: l.Holds(p, t) <==> t in l.container && l.container[t] == p)
  }

  ghost predicate ListOk<P>(l: Lists<P>, p: P) {
    l.Of(p).Valid() && NoDuplicates(l.Of(p).items)
  }

  lemma UnlinkKeeps<P(!new)>(l: Lists<P>, t: Task)
    requires Consistent(l) && t in l.container
    ensures l.Holds(l.container[t], t) && Consistent(l.Unlink(t))
    ensures var p, m := l.container[t], l.Unlink(t);
            && var i := Position(l.Of(p).items, t);
            && m.Of(p).items == l.Of(p).items[..i] + l.Of(p).items[i + 1..]
            && m.Of(p) == l.Of(p).RemoveAt(i)
            && (forall q | q != p :: m.Of(q) == l.Of(q))
  {
    var p := l.container[t];
    assert l.Holds(p, t);
    var m := l.Unlink(t);
    var s := l.Of(p).items;
    var i := Position(s, t);
    assert ListOk(l, p);
    NoDuplicatesRemove(s, i);
    forall q
      ensures ListOk(m, q)
    {
      assert ListOk(l, q);
    }
    forall q, u
      ensures m.Holds(q, u) <==> u in m.container && m.container[u] == q
    {
      assert l.Holds(q, u) <==> u in l.container && l.container[u] == q;
      if q == p && u != t {
        assert s == s[..i] + [t] + s[i + 1..];
      }
    }
  }

  lemma InsertAtKeeps<P(!new)>(l: Lists<P>, p: P, i: nat, t: Task)
    requires Consistent(l) && t !in l.container && i <= |l.Of(p).items|
    ensures Consistent(l.InsertAt(p, i, t))
    ensures l.InsertAt(p, i, t).Of(p) == l.Of(p).InsertAt(i, t)
    ensures forall q | q != p :: l.InsertAt(p, i, t).Of(q) == l.Of(q)
  {
    var m := l.InsertAt(p, i, t);
    var s := l.Of(p).items;
    assert ListOk(l, p) && !l.Holds(p, t);
    NoDuplicatesInsert(s, i, t);
    forall q
      ensures ListOk(m, q)
    {
      assert ListOk(l, q);
    }
    forall q, u
      ensures m.Holds(q, u) <==> u in m.container && m.container[u] == q
    {
      assert l.Holds(q, u) <==> u in l.container && l.container[u] == q;
      if q == p {
        assert s == s[..i] + s[i..];
      }
    }
  }

  lemma AppendKeeps<P(!new)>(l: Lists<P>, p: P, t: Task)
    requires Consistent(l) && t !in l.container
    ensures l.Of(p).Valid() && Consistent(l.Append(p, t))
    ensures l.Append(p, t).Of(p) == l.Of(p).InsertEnd(t)
    ensures forall q | q != p :: l.Append(p, t).Of(q) == l.Of(q)
  {
    assert ListOk(l, p);
    var r := l.Of(p);
    var i := if r.index == -1 then |r.items| else r.index;
    InsertAtKeeps(l, p, i, t);
    var m, n := l.Append(p, t), l.InsertAt(p, i, t);
    assert m.Of(p).items == n.Of(p).items;
    forall q
      ensures ListOk(m, q)
    {
      assert ListOk(n, q);
    }
    forall q, u
      ensures m.Holds(q, u) <==> u in m.container && m.container[u] == q
    {
      assert n.Holds(q, u) <==> u in n.container && n.container[u] == q;
    }
  }
}
