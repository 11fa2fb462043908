/** One writer and one reader of a message buffer, interleaved between any two bytes they copy. */
module MessageFlow {
  import opened Ticks
  import opened Bytes
  import opened StreamBuffer
  import opened Options

  type Message = seq<Byte>

  /** What the writer is doing: nothing, or copying a message it found room for, `done` bytes of
  its length and data so far.  The head has not moved yet. */
  datatype Writer = WriterIdle | Copying(message: Message, done: nat)

  /** What the reader is doing: nothing; reading the length of the next message, having counted
  `available` bytes; or reading `count` bytes of data.  The tail has not moved yet. */
  datatype Reader =
    | ReaderIdle
    | ReadingLength(available: nat, room: nat, got: seq<Byte>)
    | ReadingData(count: nat, got: seq<Byte>)

  datatype System = System(memory: seq<Byte>, head: nat, tail: nat, sent: seq<Message>, received: seq<Message>,
                           writer: Writer, reader: Reader)

  /** A message as it is stored: its length, then its bytes. */
  function Frame(m: Message): seq<Byte>
    requires |m| < TICK_MODULUS
  {
    StoredLength(|m|) + m
  }

  predicate Storable(m: Message) {
    0 < |m| < TICK_MODULUS
  }

  predicate AllStorable(ms: seq<Message>) {
    forall i | 0 <= i < |ms| :: Storable(ms[i])
  }

  function Frames(ms: seq<Message>): seq<Byte>
    requires AllStorable(ms)
  {
    if ms == [] then [] else Frame(ms[0]) + Frames(ms[1..])
  }

  /** Reading a sequence of bytes as whole non-empty messages. */
  function Parse(b: seq<Byte>): Option<seq<Message>>
    decreases |b|
  {
    if b == [] then Some([])
    else if |b| <= LENGTH_BYTES then None
    else
      var n := LoadedLength(b[..LENGTH_BYTES]);
      if n == 0 || LENGTH_BYTES + n > |b| then None
      else
        var rest := Parse(b[LENGTH_BYTES + n..]);
        if rest.None? then None else Some([b[LENGTH_BYTES..LENGTH_BYTES + n]] + rest.value)
  }

  lemma FrameFacts(m: Message, rest: seq<Byte>)
    requires |m| < TICK_MODULUS
    ensures var b := Frame(m) + rest;
            && |b| == LENGTH_BYTES + |m| + |rest|
            && b[..LENGTH_BYTES] == StoredLength(|m|) && LoadedLength(b[..LENGTH_BYTES]) == |m|
            && b[LENGTH_BYTES..LENGTH_BYTES + |m|] == m && b[LENGTH_BYTES + |m|..] == rest
  {
    LengthRoundTrip(|m|);
    var b := Frame(m) + rest;
    assert b[..LENGTH_BYTES] == StoredLength(|m|);
  }

  lemma {:induction false} ParseFrames(ms: seq<Message>)
    requires AllStorable(ms)
    ensures Parse(Frames(ms)) == Some(ms)
  {
    if ms != [] {
      ParseFrames(ms[1..]);
      FrameFacts(ms[0], Frames(ms[1..]));
      assert ms == [ms[0]] + ms[1..];
    }
  }

  lemma {:induction false} FramesAppend(ms: seq<Message>, m: Message)
    requires AllStorable(ms) && Storable(m)
    ensures AllStorable(ms + [m]) && Frames(ms + [m]) == Frames(ms) + Frame(m)
  {
    if ms == [] {
      assert [] + [m] == [m] && [m][1..] == [];
    } else {
      var all := ms + [m];
      assert all[0] == ms[0] && all[1..] == ms[1..] + [m];
      FramesAppend(ms[1..], m);
      assert Frames(all) == Frame(ms[0]) + (Frames(ms[1..]) + Frame(m));
    }
  }

  // ----- steps -----

  datatype Step =
    | BeginSend(m: Message)
    | CopyByte
    | Publish
    | BeginReceive(room: nat)
    | ReadLengthByte
    | Decide
    | ReadDataByte
    | Consume

  predicate Enabled(s: System, step: Step) {
    && s.head < |s.memory| && s.tail < |s.memory|
    && match step
       case BeginSend(m) => s.writer == WriterIdle && |m| < TICK_MODULUS
       case CopyByte => s.writer.Copying? && |s.writer.message| < TICK_MODULUS && s.writer.done < LENGTH_BYTES + |s.writer.message|
                        && s.writer.done <= |s.memory|
       case Publish => s.writer.Copying? && s.writer.done == LENGTH_BYTES + |s.writer.message| && s.writer.done <= |s.memory|
       case BeginReceive(_) => s.reader == ReaderIdle
       case ReadLengthByte => s.reader.ReadingLength? && |s.reader.got| < LENGTH_BYTES && |s.reader.got| <= |s.memory|
       case Decide => s.reader.ReadingLength? && |s.reader.got| == LENGTH_BYTES && s.reader.available >= LENGTH_BYTES
       case ReadDataByte => s.reader.ReadingData? && |s.reader.got| < s.reader.count && LENGTH_BYTES + |s.reader.got| <= |s.memory|
       case Consume => s.reader.ReadingData? && |s.reader.got| == s.reader.count && LENGTH_BYTES + s.reader.count <= |s.memory|
  }

  /** The writer's steps are xStreamBufferSend and prvWriteMessageToBuffer, the reader's
  xStreamBufferReceive and prvReadMessageFromBuffer. */
  function Next(s: System, step: Step): System
    requires Enabled(s, step)
  {
    var length := |s.memory|;
    match step
    case BeginSend(m) =>
      if SpacesAvailable(length, s.head, s.tail) >= |m| + LENGTH_BYTES then s.(writer := Copying(m, 0)) else s
    case CopyByte =>
      var i := s.writer.done;
      s.(memory := s.memory[Pos(length, s.head, i) := Frame(s.writer.message)[i]],
         writer := s.writer.(done := i + 1))
    case Publish =>
      if s.writer.message == [] then s.(writer := WriterIdle)
      else
        s.(head := Pos(length, s.head, s.writer.done), sent := s.sent + [s.writer.message], writer := WriterIdle)
    case BeginReceive(room) =>
      var available := BytesInBuffer(length, s.head, s.tail);
      if available > LENGTH_BYTES then s.(reader := ReadingLength(available, room, [])) else s
    case ReadLengthByte =>
      s.(reader := ReadingLength(s.reader.available, s.reader.room,
                                 s.reader.got + [s.memory[Pos(length, s.tail, |s.reader.got|)]]))
    case Decide =>
      var n := LoadedLength(s.reader.got);
      var count := if n > s.reader.room then 0 else Min(n, s.reader.available - LENGTH_BYTES);
      s.(reader := if count == 0 then ReaderIdle else ReadingData(count, []))
    case ReadDataByte =>
      s.(reader := ReadingData(s.reader.count,
                               s.reader.got + [s.memory[Pos(length, s.tail, LENGTH_BYTES + |s.reader.got|)]]))
    case Consume =>
      s.(tail := Pos(length, s.tail, LENGTH_BYTES + s.reader.count), received := s.received + [s.reader.got],
         reader := ReaderIdle)
  }

  // ----- the invariant -----

  function Used(s: System): nat
    requires s.head < |s.memory| && s.tail < |s.memory|
  {
    BytesInBuffer(|s.memory|, s.head, s.tail)
  }

  function Contents(s: System): seq<Byte>
    requires s.head < |s.memory| && s.tail < |s.memory|
  {
    Span(s.memory, s.tail, Used(s))
  }

  /** The bytes between tail and head are exactly the messages sent and not yet received. */
  ghost predicate InOrder(s: System) {
    && s.head < |s.memory| && s.tail < |s.memory|
    && AllStorable(s.sent)
    && |s.received| <= |s.sent| && s.received == s.sent[..|s.received|]
    && Contents(s) == Frames(s.sent[|s.received|..])
  }

  ghost predicate WriterOk(s: System)
    requires s.head < |s.memory| && s.tail < |s.memory|
  {
    s.writer.Copying? ==>
      && |s.writer.message| < TICK_MODULUS
      && s.writer.done <= LENGTH_BYTES + |s.writer.message| <= SpacesAvailable(|s.memory|, s.head, s.tail)
      && Span(s.memory, s.head, s.writer.done) == Frame(s.writer.message)[..s.writer.done]
  }

  ghost predicate ReaderOk(s: System)
    requires s.head < |s.memory| && s.tail < |s.memory| && AllStorable(s.sent)
  {
    s.reader != ReaderIdle ==>
      && |s.received| < |s.sent|
      && var next := s.sent[|s.received|];
         match s.reader
         case ReadingLength(available, room, got) =>
           && |got| <= LENGTH_BYTES && got == StoredLength(|next|)[..|got|]
           && LENGTH_BYTES + |next| <= available <= Used(s)
         case ReadingData(count, got) => count == |next| && |got| <= count && got == next[..|got|]
         case ReaderIdle => true
  }

  ghost predicate Inv(s: System) {
    InOrder(s) && WriterOk(s) && ReaderOk(s)
  }

  /** The first message in the buffer. */
  lemma NextMessage(s: System)
    requires InOrder(s) && |s.received| < |s.sent|
    ensures var next := s.sent[|s.received|];
            var c := Contents(s);
            && Storable(next) && Used(s) >= LENGTH_BYTES + |next|
            && c[..LENGTH_BYTES] == StoredLength(|next|) && LoadedLength(c[..LENGTH_BYTES]) == |next|
            && c[LENGTH_BYTES..LENGTH_BYTES + |next|] == next
            && AllStorable(s.sent[|s.received| + 1..])
            && c[LENGTH_BYTES + |next|..] == Frames(s.sent[|s.received| + 1..])
  {
    var rest := s.sent[|s.received|..];
    assert rest[0] == s.sent[|s.received|] && rest[1..] == s.sent[|s.received| + 1..];
    FrameFacts(rest[0], Frames(rest[1..]));
  }

  lemma AllReceivedIsEmpty(s: System)
    requires InOrder(s) && |s.received| == |s.sent|
    ensures Used(s) == 0
  {
    assert s.sent[|s.received|..] == [];
  }

  // ----- each step keeps it -----

  /** Where a byte of the buffer is, and where a byte behind the head goes. */
  lemma ContentsAt(s: System, i: nat)
    requires s.head < |s.memory| && s.tail < |s.memory| && i < Used(s)
    ensures s.memory[Pos(|s.memory|, s.tail, i)] == Contents(s)[i]
  {
  }

  /** Writing one byte behind the head touches neither the contents nor what was copied before. */
  lemma OneByte(memory: seq<Byte>, head: nat, tail: nat, i: nat, b: Byte)
    requires head < |memory| && tail < |memory| && i < SpacesAvailable(|memory|, head, tail)
    ensures var m := memory[Pos(|memory|, head, i) := b];
            var used := BytesInBuffer(|memory|, head, tail);
            && Span(m, tail, used) == Span(memory, tail, used)
            && Span(m, head, i + 1) == Span(memory, head, i) + [b]
  {
    var length, used := |memory|, BytesInBuffer(|memory|, head, tail);
    var m := memory[Pos(length, head, i) := b];
    UsedPlusSpace(length, head, tail);
    forall k | 0 <= k < used
      ensures Span(m, tail, used)[k] == Span(memory, tail, used)[k]
    {
      PosAdds(length, tail, used, i);
      PosDiffers(length, tail, k, used + i);
    }
    forall k | 0 <= k < i
      ensures Span(m, head, i + 1)[k] == Span(memory, head, i)[k]
    {
      PosDiffers(length, head, k, i);
    }
  }

  lemma CopyByteKeeps(s: System)
    requires Inv(s) && Enabled(s, CopyByte)
    ensures Inv(Next(s, CopyByte))
  {
    var i := s.writer.done;
    var f := Frame(s.writer.message);
    OneByte(s.memory, s.head, s.tail, i, f[i]);
    assert f[..i + 1] == f[..i] + [f[i]];
    var r := Next(s, CopyByte);
    assert Contents(r) == Contents(s);
  }

  lemma BeginSendKeeps(s: System, m: Message)
    requires Inv(s) && Enabled(s, BeginSend(m))
    ensures Inv(Next(s, BeginSend(m)))
  {
    var r := Next(s, BeginSend(m));
    assert r.writer.Copying? ==> Span(r.memory, r.head, 0) == Frame(m)[..0];
  }

  /** Moving the head over the copied frame appends the message to the contents. */
  lemma PublishKeeps(s: System)
    requires Inv(s) && Enabled(s, Publish)
    ensures Inv(Next(s, Publish))
  {
    var m := s.writer.message;
    var r := Next(s, Publish);
    if m != [] {
      var f := Frame(m);
      assert Span(s.memory, s.head, |f|) == f;
      PublishedContents(s.memory, s.head, s.tail, |f|);
      FramesAppend(s.sent[|s.received|..], m);
      assert r.sent[|r.received|..] == s.sent[|s.received|..] + [m];
    }
  }

  lemma PublishedContents(memory: seq<Byte>, head: nat, tail: nat, n: nat)
    requires head < |memory| && tail < |memory| && n <= SpacesAvailable(|memory|, head, tail)
    ensures var length, used := |memory|, BytesInBuffer(|memory|, head, tail);
            && BytesInBuffer(length, Pos(length, head, n), tail) == used + n
            && Span(memory, tail, used + n) == Span(memory, tail, used) + Span(memory, head, n)
  {
    var length, used := |memory|, BytesInBuffer(|memory|, head, tail);
    UsedPlusSpace(length, head, tail);
    SpanSplits(memory, tail, used, n);
    PosAdds(length, tail, used, n);
    UsedPlusSpace(length, Pos(length, head, n), tail);
  }

  lemma BeginReceiveKeeps(s: System, room: nat)
    requires Inv(s) && Enabled(s, BeginReceive(room))
    ensures Inv(Next(s, BeginReceive(room)))
  {
    if Used(s) > LENGTH_BYTES {
      if |s.received| < |s.sent| {
        NextMessage(s);
      } else {
        AllReceivedIsEmpty(s);
      }
    }
  }

  lemma ReadLengthKeeps(s: System)
    requires Inv(s) && Enabled(s, ReadLengthByte)
    ensures Inv(Next(s, ReadLengthByte))
  {
    NextMessage(s);
    var i := |s.reader.got|;
    ContentsAt(s, i);
    assert Contents(s)[i] == Contents(s)[..LENGTH_BYTES][i];
  }

  /** A receiver whose room is too small leaves the message where it is; any other gets the whole
  of it. */
  lemma DecideKeeps(s: System)
    requires Inv(s) && Enabled(s, Decide)
    ensures Inv(Next(s, Decide))
    ensures Next(s, Decide) == s.(reader := Next(s, Decide).reader)
    ensures Next(s, Decide).reader == ReaderIdle <==> |s.sent[|s.received|]| > s.reader.room
  {
    NextMessage(s);
    LengthRoundTrip(|s.sent[|s.received|]|);
  }

  lemma ReadDataKeeps(s: System)
    requires Inv(s) && Enabled(s, ReadDataByte)
    ensures Inv(Next(s, ReadDataByte))
  {
    NextMessage(s);
    var i := |s.reader.got|;
    var next := s.sent[|s.received|];
    ContentsAt(s, LENGTH_BYTES + i);
    assert Contents(s)[LENGTH_BYTES + i] == Contents(s)[LENGTH_BYTES..LENGTH_BYTES + |next|][i];
  }

  /** Moving the tail over the frame just read removes the message from the contents, and gives the
  writer room. */
  lemma ConsumeKeeps(s: System)
    requires Inv(s) && Enabled(s, Consume)
    ensures Inv(Next(s, Consume))
  {
    NextMessage(s);
    var n := LENGTH_BYTES + s.reader.count;
    ConsumedContents(s.memory, s.head, s.tail, n);
    var r := Next(s, Consume);
    var k := |s.received|;
    assert s.reader.got == s.sent[k];
    assert s.sent[..k + 1] == s.sent[..k] + [s.sent[k]];
  }

  lemma ConsumedContents(memory: seq<Byte>, head: nat, tail: nat, n: nat)
    requires head < |memory| && tail < |memory| && n <= BytesInBuffer(|memory|, head, tail)
    ensures var length, used := |memory|, BytesInBuffer(|memory|, head, tail);
            var t := Pos(length, tail, n);
            && BytesInBuffer(length, head, t) == used - n
            && SpacesAvailable(length, head, t) == SpacesAvailable(length, head, tail) + n
            && Span(memory, t, used - n) == Span(memory, tail, used)[n..]
  {
    var length, used := |memory|, BytesInBuffer(|memory|, head, tail);
    SpanSplits(memory, tail, n, used - n);
    UsedPlusSpace(length, head, tail);
    UsedPlusSpace(length, head, Pos(length, tail, n));
  }

  lemma StepKeepsInv(s: System, step: Step)
    requires Inv(s) && Enabled(s, step)
    ensures Inv(Next(s, step))
  {
    hide InOrder, WriterOk, ReaderOk;
    match step
    case BeginSend(m) => BeginSendKeeps(s, m);
    case CopyByte => CopyByteKeeps(s);
    case Publish => PublishKeeps(s);
    case BeginReceive(room) => BeginReceiveKeeps(s, room);
    case ReadLengthByte => ReadLengthKeeps(s);
    case Decide => DecideKeeps(s);
    case ReadDataByte => ReadDataKeeps(s);
    case Consume => ConsumeKeeps(s);
  }

  // ----- neither side refuses without a reason -----

  /** The writer begins a message exactly if it fits with its length beside the bytes in the buffer. */
  lemma SendBeginsIff(s: System, m: Message)
    requires Inv(s) && Enabled(s, BeginSend(m))
    ensures var r := Next(s, BeginSend(m));
            if Used(s) + LENGTH_BYTES + |m| < |s.memory| then r == s.(writer := Copying(m, 0)) else r == s
  {
    UsedPlusSpace(|s.memory|, s.head, s.tail);
  }

  /** The reader begins exactly if there is a message it has not received. */
  lemma ReceiveBeginsIff(s: System, room: nat)
    requires Inv(s) && Enabled(s, BeginReceive(room))
    ensures var r := Next(s, BeginReceive(room));
            if |s.received| < |s.sent| then r == s.(reader := ReadingLength(Used(s), room, [])) else r == s
  {
    if |s.received| < |s.sent| {
      NextMessage(s);
    } else {
      AllReceivedIsEmpty(s);
    }
  }

  /** What was begun is finished: a copy publishes the message (unless it is empty), and a read that
  found room delivers it. */
  lemma EndsMean(s: System)
    requires Inv(s)
    ensures Enabled(s, Publish) ==>
              Next(s, Publish).sent == if s.writer.message == [] then s.sent else s.sent + [s.writer.message]
    ensures Enabled(s, Consume) ==>
              |s.received| < |s.sent| && Next(s, Consume).received == s.sent[..|s.received| + 1]
  {
    if Enabled(s, Consume) {
      var k := |s.received|;
      assert s.reader.got == s.sent[k] && s.sent[..k + 1] == s.sent[..k] + [s.sent[k]];
    }
  }

  // ----- runs -----

  predicate Initial(s: System) {
    && 0 < |s.memory| && s.head == s.tail < |s.memory|
    && s.sent == [] && s.received == [] && s.writer == WriterIdle && s.reader == ReaderIdle
  }

  ghost predicate StepsTo(s: System, step: Step, r: System) {
    Enabled(s, step) && r == Next(s, step)
  }

  ghost predicate IsRun(ss: seq<System>, steps: seq<Step>) {
    && |ss| == |steps| + 1 && Initial(ss[0])
    && forall i | 0 <= i < |steps| :: StepsTo(ss[i], steps[i], ss[i + 1])
  }

  lemma {:induction false} RunKeepsInv(ss: seq<System>, steps: seq<Step>, n: nat)
    requires IsRun(ss, steps) && n < |ss|
    ensures Inv(ss[n])
  {
    hide InOrder, WriterOk, ReaderOk, Next, Enabled;
    if n > 0 {
      RunKeepsInv(ss, steps, n - 1);
      assert StepsTo(ss[n - 1], steps[n - 1], ss[n]);
      StepKeepsInv(ss[n - 1], steps[n - 1]);
    } else {
      InitialIsSound(ss[0]);
    }
  }

  lemma InitialIsSound(s: System)
    requires Initial(s)
    ensures Inv(s)
  {
    assert s.sent[0..] == [] && Contents(s) == [];
  }

  /** At every point of every interleaving the messages received are the first of those sent, in
  order and unchanged; and the bytes between tail and head, read as length-prefixed non-empty
  messages, are exactly the others. */
  lemma MessagesKeepTheirBoundaries(ss: seq<System>, steps: seq<Step>, n: nat)
    requires IsRun(ss, steps) && n < |ss|
    ensures var s := ss[n];
            && s.head < |s.memory| && s.tail < |s.memory|
            && s.received <= s.sent
            && Parse(Contents(s)) == Some(s.sent[|s.received|..])
            && AllStorable(s.sent[|s.received|..])
            && BytesInBuffer(|s.memory|, s.head, s.tail) + SpacesAvailable(|s.memory|, s.head, s.tail) == |s.memory| - 1
  {
    RunKeepsInv(ss, steps, n);
    var s := ss[n];
    ParseFrames(s.sent[|s.received|..]);
    UsedPlusSpace(|s.memory|, s.head, s.tail);
  }
}
