/** Stream and message buffers: a ring of bytes with one unused byte, between the tail, which only the
reader moves, and the head, which only the writer moves.  In a message buffer each message is stored
behind its length. */
module StreamBuffer {
  import opened Ticks
  import opened Bytes

  // ----- ring arithmetic -----

  /** The index i places after `start`, as the code computes it: add, and subtract the length once
  if that is too far. */
  function Pos(length: nat, start: nat, i: nat): (p: nat)
    requires start < length && i <= length
    ensures p < length
  {
    if start + i < length then start + i else start + i - length
  }

  /** prvBytesInBuffer, in unbounded arithmetic. */
  function BytesInBuffer(length: nat, head: nat, tail: nat): (n: nat)
    requires head < length && tail < length
    ensures n < length
  {
    var count := length + head - tail;
    if count >= length then count - length else count
  }

  /** xStreamBufferSpacesAvailable, in unbounded arithmetic. */
  function SpacesAvailable(length: nat, head: nat, tail: nat): (n: nat)
    requires head < length && tail < length
    ensures n < length
  {
    var space := length + tail - head - 1;
    if space >= length then space - length else space
  }

  /** Used bytes and free bytes make up all but one byte of the storage, and the head is as far
  behind the tail as there are bytes. */
  lemma UsedPlusSpace(length: nat, head: nat, tail: nat)
    requires head < length && tail < length
    ensures BytesInBuffer(length, head, tail) + SpacesAvailable(length, head, tail) == length - 1
    ensures Pos(length, tail, BytesInBuffer(length, head, tail)) == head
    ensures forall n: nat | n < length && Pos(length, tail, n) == head :: n == BytesInBuffer(length, head, tail)
  {
  }

  /** The same with the wrap-around of a 32-bit size_t. */
  function BytesInBuffer32(length: Tick, head: Tick, tail: Tick): Tick {
    var count := Wrap(Wrap(length + head) - tail);
    if count >= length then count - length else count
  }

  /** The 32-bit count is right for every head and tail exactly if twice the length does not exceed
  2^32. */
  lemma BytesInBuffer32IsRightIff(length: Tick)
    requires length > 0
    ensures (forall head: Tick, tail: Tick | head < length && tail < length ::
               BytesInBuffer32(length, head, tail) == BytesInBuffer(length, head, tail))
            <==> 2 * length <= TICK_MODULUS
  {
    if 2 * length <= TICK_MODULUS {
      forall head: Tick, tail: Tick | head < length && tail < length
        ensures BytesInBuffer32(length, head, tail) == BytesInBuffer(length, head, tail)
      {
      }
    } else {
      var head: Tick := length - 1;
      assert BytesInBuffer32(length, head, 0) != BytesInBuffer(length, head, 0);
    }
  }

  /** Going on from where one stopped. */
  lemma PosAdds(length: nat, start: nat, i: nat, j: nat)
    requires start < length && i + j <= length
    ensures Pos(length, Pos(length, start, i), j) == Pos(length, start, i + j)
  {
  }

  /** Different distances below one round are different indices. */
  lemma PosDiffers(length: nat, start: nat, i: nat, j: nat)
    requires start < length && i < length && j < length && i != j
    ensures Pos(length, start, i) != Pos(length, start, j)
  {
  }

  // ----- message lengths -----

  const LENGTH_BYTES := 4

  /** The length of a message as it is stored: the bytes of a 32-bit size_t, least significant
  first. */
  function StoredLength(n: Tick): (b: seq<Byte>)
    ensures |b| == LENGTH_BYTES
  {
    var q := n / 0x100;
    var r := q / 0x100;
    [n % 0x100, q % 0x100, r % 0x100, r / 0x100]
  }

  function LoadedLength(b: seq<Byte>): (n: Tick)
    requires |b| == LENGTH_BYTES
  {
    (b[0] as int) + 0x100 * (b[1] as int) + 0x1_0000 * (b[2] as int) + 0x100_0000 * (b[3] as int)
  }

  lemma LengthRoundTrip(n: Tick)
    ensures LoadedLength(StoredLength(n)) == n
  {
  }

  // ----- what sending and receiving do to the bytes in the buffer -----

  function Min(a: nat, b: nat): nat {
    if a < b then a else b
  }

  /** prvWriteMessageToBuffer when `space` bytes are free: a message goes in whole or not at all, a
  stream as far as it fits. */
  function Accepted(message: bool, space: nat, data: seq<Byte>): nat {
    if message then (if space >= |data| + LENGTH_BYTES then |data| else 0) else Min(|data|, space)
  }

  function Stored(message: bool, space: nat, data: seq<Byte>): seq<Byte>
    requires |data| < TICK_MODULUS
  {
    var n := Accepted(message, space, data);
    if n == 0 then [] else if message then StoredLength(|data|) + data else data[..n]
  }

  /** prvReadMessageFromBuffer: how many bytes the caller gets. */
  function Delivered(message: bool, contents: seq<Byte>, room: nat): nat
    requires message ==> |contents| > LENGTH_BYTES
  {
    if message then
      var n := LoadedLength(contents[..LENGTH_BYTES]);
      if n > room then 0 else Min(n, |contents| - LENGTH_BYTES)
    else Min(room, |contents|)
  }

  /** Of a message everything is accepted or nothing, everything exactly if its length fits too; of a
  stream as much as there is and fits. */
  lemma AcceptedIsMost(message: bool, space: nat, data: seq<Byte>)
    ensures var n := Accepted(message, space, data);
            && n <= |data|
            && (message ==> (n == |data| <==> |data| + LENGTH_BYTES <= space || |data| == 0) && (n == |data| || n == 0))
            && (!message ==> n <= space && (n == |data| || n == space))
  {
  }

  /** Of a whole message everything is delivered or nothing, everything exactly if it fits the caller's
  buffer; of a stream as much as there is and fits. */
  lemma DeliveredIsMost(message: bool, data: seq<Byte>, rest: seq<Byte>, room: nat)
    requires message ==> 0 < |data| < TICK_MODULUS
    ensures message ==> Delivered(true, StoredLength(|data|) + data + rest, room) == if |data| <= room then |data| else 0
    ensures !message ==> var n := Delivered(false, data, room); n <= room && n <= |data| && (n == room || n == |data|)
  {
    if message {
      LengthRoundTrip(|data|);
      assert (StoredLength(|data|) + data + rest)[..LENGTH_BYTES] == StoredLength(|data|);
    }
  }

  // ----- the storage as a ring -----

  /** n bytes from index `start` on. */
  function Span(memory: seq<Byte>, start: nat, n: nat): (s: seq<Byte>)
    requires start < |memory| && n <= |memory|
    ensures |s| == n
  {
    seq(n, i requires 0 <= i < n => memory[Pos(|memory|, start, i)])
  }

  /** The storage after writing `data` from index `start` on. */
  function Written(memory: seq<Byte>, start: nat, data: seq<Byte>): (r: seq<Byte>)
    requires start < |memory| && |data| <= |memory|
    ensures |r| == |memory|
  {
    seq(|memory|, p requires 0 <= p < |memory| =>
      var i := BytesInBuffer(|memory|, p, start);
      if i < |data| then data[i] else memory[p])
  }

  lemma DistanceOfPos(length: nat, start: nat, i: nat)
    requires start < length && i < length
    ensures BytesInBuffer(length, Pos(length, start, i), start) == i
  {
  }

  lemma SpanOfWritten(memory: seq<Byte>, start: nat, data: seq<Byte>)
    requires start < |memory| && |data| <= |memory|
    ensures Span(Written(memory, start, data), start, |data|) == data
  {
    forall i | 0 <= i < |data|
      ensures Span(Written(memory, start, data), start, |data|)[i] == data[i]
    {
      DistanceOfPos(|memory|, start, i);
    }
  }

  /** Writing behind the head, into free bytes, changes no byte that is in the buffer. */
  lemma ContentsStay(memory: seq<Byte>, head: nat, tail: nat, data: seq<Byte>)
    requires head < |memory| && tail < |memory| && |data| <= SpacesAvailable(|memory|, head, tail)
    ensures var used := BytesInBuffer(|memory|, head, tail);
            Span(Written(memory, head, data), tail, used) == Span(memory, tail, used)
  {
    var length, used := |memory|, BytesInBuffer(|memory|, head, tail);
    UsedPlusSpace(length, head, tail);
    forall i | 0 <= i < used
      ensures Span(Written(memory, head, data), tail, used)[i] == Span(memory, tail, used)[i]
    {
      assert BytesInBuffer(length, Pos(length, tail, i), head) == length - used + i;
    }
  }

  /** Two writes, the second from where the first stopped, are one. */
  lemma WrittenTwice(memory: seq<Byte>, start: nat, a: seq<Byte>, b: seq<Byte>)
    requires start < |memory| && |a| + |b| < |memory|
    ensures Written(Written(memory, start, a), Pos(|memory|, start, |a|), b) == Written(memory, start, a + b)
  {
    var length := |memory|;
    var first := Written(memory, start, a);
    forall p | 0 <= p < length
      ensures Written(first, Pos(length, start, |a|), b)[p] == Written(memory, start, a + b)[p]
    {
      var i := BytesInBuffer(length, p, start);
      assert BytesInBuffer(length, p, Pos(length, start, |a|)) == if i >= |a| then i - |a| else length - |a| + i;
    }
  }

  lemma SpanSplits(memory: seq<Byte>, start: nat, m: nat, n: nat)
    requires start < |memory| && m + n <= |memory| && m < |memory|
    ensures Span(memory, start, m + n) == Span(memory, start, m) + Span(memory, Pos(|memory|, start, m), n)
  {
    forall i | 0 <= i < n
      ensures Pos(|memory|, start, m + i) == Pos(|memory|, Pos(|memory|, start, m), i)
    {
      PosAdds(|memory|, start, m, i);
    }
  }

  /** Publishing a write of `data` appends it to the contents. */
  lemma Published(memory: seq<Byte>, head: nat, tail: nat, data: seq<Byte>)
    requires head < |memory| && tail < |memory| && |data| <= SpacesAvailable(|memory|, head, tail)
    ensures var length := |memory|;
            var head' := Pos(length, head, |data|);
            var used := BytesInBuffer(length, head, tail);
            && BytesInBuffer(length, head', tail) == used + |data|
            && Span(Written(memory, head, data), tail, used + |data|) == Span(memory, tail, used) + data
  {
    var length, used := |memory|, BytesInBuffer(|memory|, head, tail);
    UsedPlusSpace(length, head, tail);
    ContentsStay(memory, head, tail, data);
    SpanOfWritten(memory, head, data);
    SpanSplits(Written(memory, head, data), tail, used, |data|);
  }

  class Buffer {
    const xLength: nat
    const pucBuffer: array<Byte>
    const isMessageBuffer: bool
    var xHead: nat
    var xTail: nat

    ghost predicate Valid()
      reads `xHead, `xTail
    {
      0 < xLength && pucBuffer.Length == xLength && xHead < xLength && xTail < xLength
    }

    ghost function Contents(): seq<Byte>
      requires Valid()
      reads this, pucBuffer
    {
      Span(pucBuffer[..], xTail, BytesInBuffer(xLength, xHead, xTail))
    }

    constructor (length: nat, message: bool)
      requires length > 0
      ensures Valid() && Contents() == [] && xLength == length && isMessageBuffer == message && fresh(pucBuffer)
    {
      xLength, isMessageBuffer := length, message;
      pucBuffer := new Byte[length];
      xHead, xTail := 0, 0;
    }

    /** prvWriteBytesToBuffer: one or two copies; the new head is returned, not published. */
    method WriteBytes(data: seq<Byte>, head: nat) returns (next: nat)
      requires pucBuffer.Length == xLength && head < xLength && 0 < |data| <= xLength
      modifies pucBuffer
      ensures next == Pos(xLength, head, |data|)
      ensures pucBuffer[..] == Written(old(pucBuffer[..]), head, data)
    {
      var xFirstLength := Min(xLength - head, |data|);
      CopyInto(pucBuffer, head, data[..xFirstLength]);
      if |data| > xFirstLength {
        CopyInto(pucBuffer, 0, data[xFirstLength..]);
      }
      next := head + |data|;
      if next >= xLength {
        next := next - xLength;
      }
    }

    /** prvReadBytesFromBuffer. */
    method ReadBytes(count: nat, tail: nat) returns (data: seq<Byte>, next: nat)
      requires pucBuffer.Length == xLength && tail < xLength && 0 < count <= xLength
      ensures next == Pos(xLength, tail, count) && data == Span(pucBuffer[..], tail, count)
    {
      var xFirstLength := Min(xLength - tail, count);
      data := pucBuffer[tail..tail + xFirstLength];
      if count > xFirstLength {
        data := data + pucBuffer[..count - xFirstLength];
      }
      next := tail + count;
      if next >= xLength {
        next := next - xLength;
      }
    }

    /** prvWriteMessageToBuffer, with the space that was free when it was sampled. */
    method WriteMessage(txData: seq<Byte>, xSpace: nat) returns (n: nat)
      requires Valid() && |txData| < TICK_MODULUS && xSpace <= SpacesAvailable(xLength, xHead, xTail)
      modifies `xHead, pucBuffer
      ensures Valid() && n == Accepted(isMessageBuffer, xSpace, txData)
      ensures Contents() == old(Contents()) + Stored(isMessageBuffer, xSpace, txData)
    {
      var data := txData;
      var xNextHead := xHead;
      ghost var memory := pucBuffer[..];
      ghost var frame: seq<Byte> := [];
      if isMessageBuffer {
        if xSpace >= |data| + LENGTH_BYTES {
          frame := StoredLength(|data|);
          xNextHead := WriteBytes(StoredLength(|data|), xNextHead);
          ContentsStay(memory, xHead, xTail, frame);
        } else {
          data := [];
        }
      } else {
        data := data[..Min(|data|, xSpace)];
      }
      if |data| != 0 {
        if frame != [] {
          WrittenTwice(memory, xHead, frame, data);
        }
        Published(memory, xHead, xTail, frame + data);
        var next := WriteBytes(data, xNextHead);
        PosAdds(xLength, xHead, |frame|, |data|);
        xHead := next;
      }
      n := |data|;
    }

    /** prvReadMessageFromBuffer, with the bytes that were available when they were counted. */
    method ReadMessage(xBufferLengthBytes: nat, xBytesAvailable: nat) returns (data: seq<Byte>)
      requires Valid() && xBytesAvailable <= BytesInBuffer(xLength, xHead, xTail)
      requires isMessageBuffer ==> xBytesAvailable > LENGTH_BYTES
      modifies `xTail
      ensures Valid()
      ensures var c := old(Contents());
              var n := Delivered(isMessageBuffer, c[..xBytesAvailable], xBufferLengthBytes);
              var skip := if isMessageBuffer && n > 0 then LENGTH_BYTES else 0;
              && data == c[skip..skip + n] && Contents() == c[skip + n..]
    {
      var xNextTail := xTail;
      var available := xBytesAvailable;
      var xNextMessageLength := xBufferLengthBytes;
      ghost var c, used := Contents(), BytesInBuffer(xLength, xHead, xTail);
      if isMessageBuffer {
        var length;
        length, xNextTail := ReadBytes(LENGTH_BYTES, xNextTail);
        SpanSplits(pucBuffer[..], xTail, LENGTH_BYTES, used - LENGTH_BYTES);
        assert length == c[..LENGTH_BYTES];
        xNextMessageLength := LoadedLength(length);
        available := available - LENGTH_BYTES;
        if xNextMessageLength > xBufferLengthBytes {
          xNextMessageLength := 0;
        }
      }
      var xCount := Min(xNextMessageLength, available);
      data := [];
      if xCount != 0 {
        ghost var skip := if isMessageBuffer then LENGTH_BYTES else 0;
        var next;
        data, next := ReadBytes(xCount, xNextTail);
        Taken(pucBuffer[..], xHead, xTail, skip, xCount);
        xTail := next;
      }
    }

    /** Moving the tail over skip + n bytes leaves the rest. */
    static lemma Taken(memory: seq<Byte>, head: nat, tail: nat, skip: nat, n: nat)
      requires head < |memory| && tail < |memory| && skip + n <= BytesInBuffer(|memory|, head, tail)
      ensures var c := Span(memory, tail, BytesInBuffer(|memory|, head, tail));
              var mid := Pos(|memory|, tail, skip);
              var tail' := Pos(|memory|, mid, n);
              && Span(memory, mid, n) == c[skip..skip + n]
              && Span(memory, tail', BytesInBuffer(|memory|, head, tail')) == c[skip + n..]
    {
      var length, used := |memory|, BytesInBuffer(|memory|, head, tail);
      PosAdds(length, tail, skip, n);
      SpanSplits(memory, tail, skip, used - skip);
      SpanSplits(memory, Pos(length, tail, skip), n, used - skip - n);
      RemainingBytes(length, head, tail, skip + n);
    }

    static lemma RemainingBytes(length: nat, head: nat, tail: nat, n: nat)
      requires head < length && tail < length && n <= BytesInBuffer(length, head, tail)
      ensures BytesInBuffer(length, head, Pos(length, tail, n)) == BytesInBuffer(length, head, tail) - n
    {
    }
  }
}
