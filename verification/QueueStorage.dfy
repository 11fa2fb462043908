/** The storage of a queue: a ring of fixed-size items in a byte array.  The read pointer is on the slot
before the front item, the write pointer on the first free one; an item is copied in and out byte by
byte. */
module QueueStorage {
  import opened Bytes

  datatype CopyPosition = SendToBack | SendToFront | Overwrite

  type Item = seq<Byte>

  // ----- slots -----

  /** Slot number i of a ring of `length` slots, for i at most twice round. */
  function Slot(length: nat, i: nat): (s: nat)
    requires length > 0 && i <= 2 * length
    ensures s < length
  {
    if i < length then i else if i < 2 * length then i - length else 0
  }

  /** Distinct positions less than one round apart are distinct slots. */
  lemma SlotsDiffer(length: nat, i: nat, j: nat)
    requires length > 0 && i < j < i + length && j <= 2 * length
    ensures Slot(length, i) != Slot(length, j)
  {
  }

  lemma SlotFits(length: nat, size: nat, s: nat)
    requires s < length
    ensures 0 <= s * size && s * size + size <= length * size
    ensures (s + 1) * size == s * size + size
  {
    assert (s + 1) * size <= length * size;
  }

  /** Slots do not overlap. */
  lemma SlotsApart(size: nat, s: nat, t: nat)
    requires s != t
    ensures s * size + size <= t * size || t * size + size <= s * size
  {
    if s < t {
      assert (s + 1) * size <= t * size;
    } else {
      assert (t + 1) * size <= s * size;
    }
  }

  /** The item in slot s of a memory of `length` slots. */
  function ItemAt(memory: seq<Byte>, length: nat, size: nat, s: nat): (item: Item)
    requires |memory| == length * size && s < length
    ensures |item| == size
  {
    SlotFits(length, size, s);
    memory[s * size..s * size + size]
  }

  /** The n items behind slot r, in order. */
  function ItemsFrom(memory: seq<Byte>, length: nat, size: nat, r: nat, n: nat): (items: seq<Item>)
    requires |memory| == length * size && r < length && n <= length
    ensures |items| == n
  {
    seq(n, k requires 0 <= k < n => ItemAt(memory, length, size, Slot(length, r + 1 + k)))
  }

  /** Writing one slot changes that item only. */
  lemma WriteSlot(memory: seq<Byte>, length: nat, size: nat, s: nat, item: Item, after: seq<Byte>)
    requires |memory| == length * size && s < length && |item| == size
    requires s * size >= 0 && s * size + size <= |memory|
    requires after == memory[..s * size] + item + memory[s * size + size..]
    ensures |after| == |memory|
    ensures forall t | 0 <= t < length ::
              ItemAt(after, length, size, t) == if t == s then item else ItemAt(memory, length, size, t)
  {
    forall t | 0 <= t < length
      ensures ItemAt(after, length, size, t) == if t == s then item else ItemAt(memory, length, size, t)
    {
      SlotFits(length, size, t);
      if t != s {
        SlotsApart(size, s, t);
      }
    }
  }

  /** Only slot s changed, to hold `item`. */
  ghost predicate OnlySlot(memory: seq<Byte>, after: seq<Byte>, length: nat, size: nat, s: nat, item: Item) {
    && |memory| == length * size && |after| == length * size
    && forall t | 0 <= t < length ::
         ItemAt(after, length, size, t) == if t == s then item else ItemAt(memory, length, size, t)
  }

  lemma Appended(memory: seq<Byte>, after: seq<Byte>, length: nat, size: nat, r: nat, n: nat, item: Item)
    requires r < length && n < length
    requires OnlySlot(memory, after, length, size, Slot(length, r + n + 1), item)
    ensures ItemsFrom(after, length, size, r, n + 1) == ItemsFrom(memory, length, size, r, n) + [item]
  {
    forall k | 0 <= k < n + 1
      ensures ItemsFrom(after, length, size, r, n + 1)[k] == (ItemsFrom(memory, length, size, r, n) + [item])[k]
    {
      if k < n {
        SlotsDiffer(length, r + 1 + k, r + n + 1);
      }
    }
  }

  function Before(length: nat, r: nat): (q: nat)
    requires r < length
    ensures q < length
  {
    if r == 0 then length - 1 else r - 1
  }

  lemma SlotBefore(length: nat, r: nat, i: nat)
    requires r < length && i <= length
    ensures Slot(length, Before(length, r) + 1 + i) == Slot(length, r + i)
  {
  }

  lemma Prepended(memory: seq<Byte>, after: seq<Byte>, length: nat, size: nat, r: nat, n: nat, item: Item)
    requires r < length && n < length
    requires OnlySlot(memory, after, length, size, r, item)
    ensures ItemsFrom(after, length, size, Before(length, r), n + 1) == [item] + ItemsFrom(memory, length, size, r, n)
  {
    forall k | 0 <= k < n + 1
      ensures ItemAt(after, length, size, Slot(length, Before(length, r) + 1 + k))
           == ([item] + ItemsFrom(memory, length, size, r, n))[k]
    {
      SlotBefore(length, r, k);
      if k > 0 {
        SlotsDiffer(length, r, r + k);
      }
    }
  }

  lemma Dropped(memory: seq<Byte>, length: nat, size: nat, r: nat, n: nat)
    requires r < length && 0 < n <= length && |memory| == length * size
    ensures ItemsFrom(memory, length, size, r, n)[0] == ItemAt(memory, length, size, Slot(length, r + 1))
    ensures ItemsFrom(memory, length, size, Slot(length, r + 1), n - 1) == ItemsFrom(memory, length, size, r, n)[1..]
  {
    var q := Slot(length, r + 1);
    forall k | 0 <= k < n - 1
      ensures ItemsFrom(memory, length, size, q, n - 1)[k] == ItemsFrom(memory, length, size, r, n)[1..][k]
    {
      assert Slot(length, q + 1 + k) == Slot(length, r + 1 + (k + 1));
    }
  }

  /** Stepping one slot on in bytes, with the wrap at the tail. */
  lemma NextOffset(length: nat, size: nat, s: nat)
    requires s < length
    ensures (s * size + size >= length * size) ==> size == 0 || s + 1 == length
    ensures s + 1 == length ==> s * size + size >= length * size
    ensures s + 1 < length ==> s * size + size == (s + 1) * size
  {
    SlotFits(length, size, s);
    if s + 1 < length {
      SlotFits(length, size, s + 1);
    }
    assert s + 1 == length ==> (s + 1) * size == length * size;
  }

  class Storage {
    const uxLength: nat
    const uxItemSize: nat
    const pcHead: array<Byte>
    var pcWriteTo: int          // offsets from pcHead
    var pcReadFrom: int
    var uxMessagesWaiting: nat
    ghost var r: nat            // the slot pcReadFrom points to

    ghost predicate Valid()
      reads this, pcHead
    {
      && uxLength > 0 && pcHead.Length == uxLength * uxItemSize
      && r < uxLength && uxMessagesWaiting <= uxLength
      && pcReadFrom == r * uxItemSize
      && pcWriteTo == Slot(uxLength, r + uxMessagesWaiting + 1) * uxItemSize
    }

    ghost function Items(): (items: seq<Item>)
      requires Valid()
      reads this, pcHead
      ensures |items| == uxMessagesWaiting
    {
      ItemsFrom(pcHead[..], uxLength, uxItemSize, r, uxMessagesWaiting)
    }

    /** A new queue, as xQueueGenericReset leaves it. */
    constructor (length: nat, itemSize: nat)
      requires length > 0
      ensures Valid() && Items() == [] && uxLength == length && uxItemSize == itemSize && fresh(pcHead)
    {
      uxLength, uxItemSize := length, itemSize;
      pcHead := new Byte[length * itemSize];
      uxMessagesWaiting := 0;
      pcWriteTo := 0;
      pcReadFrom := (length - 1) * itemSize;
      r := length - 1;
    }

    /** memcpy to pcWriteTo, which moves on and wraps at the tail. */
    method WriteBack(item: Item)
      requires Valid() && |item| == uxItemSize && uxMessagesWaiting < uxLength
      modifies `pcWriteTo, pcHead
      ensures OnlySlot(old(pcHead[..]), pcHead[..], uxLength, uxItemSize, Slot(uxLength, r + uxMessagesWaiting + 1), item)
      ensures pcWriteTo == Slot(uxLength, r + uxMessagesWaiting + 2) * uxItemSize
    {
      ghost var w := Slot(uxLength, r + uxMessagesWaiting + 1);
      SlotFits(uxLength, uxItemSize, w);
      CopyInto(pcHead, pcWriteTo, item);
      WriteSlot(old(pcHead[..]), uxLength, uxItemSize, w, item, pcHead[..]);
      NextOffset(uxLength, uxItemSize, w);
      pcWriteTo := pcWriteTo + uxItemSize;
      if pcWriteTo >= uxLength * uxItemSize {
        pcWriteTo := 0;
      }
    }

    /** memcpy to pcReadFrom, which moves back and wraps at the head. */
    method WriteFront(item: Item)
      requires Valid() && |item| == uxItemSize
      modifies `pcReadFrom, pcHead
      ensures OnlySlot(old(pcHead[..]), pcHead[..], uxLength, uxItemSize, r, item)
      ensures pcReadFrom == Before(uxLength, r) * uxItemSize
    {
      SlotFits(uxLength, uxItemSize, r);
      CopyInto(pcHead, pcReadFrom, item);
      WriteSlot(old(pcHead[..]), uxLength, uxItemSize, r, item, pcHead[..]);
      StepBack(uxLength, uxItemSize, r);
      pcReadFrom := pcReadFrom - uxItemSize;
      if pcReadFrom < 0 {
        pcReadFrom := uxLength * uxItemSize - uxItemSize;
      }
    }

    static lemma StepBack(length: nat, size: nat, s: nat)
      requires s < length
      ensures (length - 1) * size == length * size - size
      ensures s > 0 ==> s * size - size == (s - 1) * size >= 0
      ensures size == 0 ==> s * size == 0 && (length - 1) * size == 0 && Before(length, s) * size == 0
    {
    }

    /** prvCopyDataToQueue, and the count it stores. */
    method CopyDataToQueue(item: Item, xPosition: CopyPosition)
      requires Valid() && |item| == uxItemSize
      requires xPosition != Overwrite ==> uxMessagesWaiting < uxLength
      requires xPosition == Overwrite ==> uxLength == 1
      modifies this, pcHead
      ensures Valid()
      ensures Items() == match xPosition
                case SendToBack => old(Items()) + [item]
                case SendToFront => [item] + old(Items())
                case Overwrite => [item]
    {
      var waiting := uxMessagesWaiting;
      ghost var memory := pcHead[..];
      if xPosition == SendToBack {
        WriteBack(item);
        Appended(memory, pcHead[..], uxLength, uxItemSize, r, waiting, item);
      } else {
        WriteFront(item);
        if xPosition == Overwrite {
          if waiting > 0 {
            waiting := waiting - 1;
          }
        }
        Prepended(memory, pcHead[..], uxLength, uxItemSize, r, waiting, item);
        SlotBefore(uxLength, r, waiting + 1);
        r := Before(uxLength, r);
      }
      uxMessagesWaiting := waiting + 1;
    }

    /** prvCopyDataFromQueue. */
    method CopyDataFromQueue() returns (item: Item)
      requires Valid() && uxMessagesWaiting > 0
      modifies `pcReadFrom, `r
      ensures item == old(Items()[0])
      ensures r == Slot(uxLength, old(r) + 1) && pcReadFrom == r * uxItemSize
    {
      NextOffset(uxLength, uxItemSize, r);
      SlotFits(uxLength, uxItemSize, Slot(uxLength, r + 1));
      Dropped(pcHead[..], uxLength, uxItemSize, r, uxMessagesWaiting);
      pcReadFrom := pcReadFrom + uxItemSize;
      if pcReadFrom >= uxLength * uxItemSize {
        pcReadFrom := 0;
      }
      r := Slot(uxLength, r + 1);
      assert pcReadFrom == r * uxItemSize;
      item := pcHead[pcReadFrom..pcReadFrom + uxItemSize];
      assert item == ItemAt(pcHead[..], uxLength, uxItemSize, r);
    }

    /** The copying part of xQueueReceive: the front item leaves the queue. */
    method Receive() returns (item: Item)
      requires Valid() && uxMessagesWaiting > 0
      modifies this
      ensures Valid() && [item] + Items() == old(Items())
    {
      Dropped(pcHead[..], uxLength, uxItemSize, r, uxMessagesWaiting);
      item := CopyDataFromQueue();
      uxMessagesWaiting := uxMessagesWaiting - 1;
    }

    /** The copying part of xQueuePeek: the read pointer is put back. */
    method Peek() returns (item: Item)
      requires Valid() && uxMessagesWaiting > 0
      modifies `pcReadFrom, `r
      ensures Valid() && item == Items()[0] && Items() == old(Items())
    {
      var pcOriginalReadPosition := pcReadFrom;
      ghost var slot := r;
      item := CopyDataFromQueue();
      pcReadFrom := pcOriginalReadPosition;
      r := slot;
    }
  }
}
