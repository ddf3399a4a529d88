/**
 One writer and one reader using a stream or message buffer at the same time, without a
 lock.  Every access to xHead, xTail or to a single byte of the storage is a step of its
 own, and the steps of the two sides interleave in any order.
 */
module StreamRace {
  import opened Messages
  import opened StreamBuffers

  datatype Config = Config(length: nat, isMessageBuffer: bool, width: nat)

  // Where a call of xStreamBufferSendFromISR stands.  The fields ending in At record how
  // many bytes had been received when the tail was read; the code does not have them.
  datatype Writer =
    | WIdle
    | WOriginal(data: seq<Byte>)
    | WTail(data: seq<Byte>, original: nat, originalAt: nat)
    | WCompare(data: seq<Byte>, original: nat, originalAt: nat, seen: nat, seenAt: nat)
    | WCopy(data: seq<Byte>, bytes: seq<Byte>, done: nat)

  // Where a call of xStreamBufferReceiveFromISR stands.
  datatype Reader =
    | RIdle
    | RHead(room: nat)
    | RPrefix(limit: nat, available: nat, read: seq<Byte>)
    | RCopy(prefix: seq<Byte>, count: nat, got: seq<Byte>)

  datatype State = State(
    cells: seq<Byte>, tail: nat, head: nat,
    writer: Writer, reader: Reader,
    sent: seq<Byte>,            // all bytes published so far
    received: seq<Byte>,        // all bytes read and given up so far
    accepted: seq<Message>,     // what each publishing send was given
    delivered: seq<Message>)    // what each consuming receive returned

  datatype Step =
    | WBegin(data: seq<Byte>)
    | WReadOriginal
    | WReadTail
    | WDecide
    | WCopyByte
    | WPublish
    | RBegin(room: nat)
    | RReadHead
    | RPrefixByte
    | RDecide
    | RCopyByte
    | RPublish

  ghost predicate Initial(c: Config, s: State) {
    && c.length >= 2
    && |s.cells| == c.length && s.tail == 0 && s.head == 0
    && s.writer == WIdle && s.reader == RIdle
    && s.sent == [] && s.received == [] && s.accepted == [] && s.delivered == []
  }

  predicate WriterEnabled(c: Config, s: State, e: Step) {
    match e
    case WBegin(data) => s.writer.WIdle? && (c.isMessageBuffer ==> |data| < Limit(c.width))
    case WReadOriginal => s.writer.WOriginal?
    case WReadTail => s.writer.WTail?
    case WDecide => s.writer.WCompare?
    case WCopyByte => s.writer.WCopy? && s.writer.done < |s.writer.bytes|
    case WPublish => s.writer.WCopy? && s.writer.done == |s.writer.bytes|
    case _ => false
  }

  predicate ReaderEnabled(c: Config, s: State, e: Step) {
    match e
    case RBegin(room) => s.reader.RIdle?
    case RReadHead => s.reader.RHead?
    case RPrefixByte => s.reader.RPrefix? && |s.reader.read| < c.width
    case RDecide => s.reader.RPrefix? && |s.reader.read| >= c.width
    case RCopyByte => s.reader.RCopy? && |s.reader.got| < s.reader.count
    case RPublish => s.reader.RCopy? && |s.reader.got| >= s.reader.count
    case _ => false
  }

  // Every index that the next step of either side may use lies within the storage, and no
  // unsigned subtraction of theirs goes below zero.
  predicate InBounds(c: Config, s: State) {
    && |s.cells| == c.length && s.tail < c.length && s.head < c.length
    && (match s.writer
        case WCompare(_, _, _, seen, _) => seen < c.length
        case WCopy(_, bytes, done) => done <= |bytes| < c.length
        case _ => true)
    && (match s.reader
        case RPrefix(_, available, read) => |read| <= c.width < available < c.length
        case RCopy(prefix, count, got) => |prefix| + count < c.length && |got| <= count
        case _ => true)
  }

  // What prvWriteMessageToBuffer lays down, given the space that was seen.
  function BytesToLay(c: Config, data: seq<Byte>, space: nat): (bs: seq<Byte>)
    ensures |bs| <= space
  {
    if c.isMessageBuffer then
      if space >= |data| + c.width then Frame(data, c.width) else []
    else data[..Min(|data|, space)]
  }

  function WriterStep(c: Config, s: State, e: Step): State
    requires InBounds(c, s) && WriterEnabled(c, s, e)
  {
    match e
    case WBegin(data) => s.(writer := WOriginal(data))
    case WReadOriginal => s.(writer := WTail(s.writer.data, s.tail, |s.received|))
    case WReadTail =>
      s.(writer := WCompare(s.writer.data, s.writer.original, s.writer.originalAt, s.tail, |s.received|))
    case WDecide =>
      if s.tail != s.writer.original then s.(writer := WOriginal(s.writer.data))
      else
        var bytes := BytesToLay(c, s.writer.data, Spaces(s.writer.seen, s.head, c.length));
        if bytes == [] then s.(writer := WIdle)
        else s.(writer := WCopy(if c.isMessageBuffer then s.writer.data else bytes, bytes, 0))
    case WCopyByte =>
      var k := s.writer.done;
      s.(cells := s.cells[Slot(s.head, k, c.length) := s.writer.bytes[k]],
         writer := s.writer.(done := k + 1))
    case WPublish =>
      if s.writer.data == [] then s.(writer := WIdle)
      else s.(head := Slot(s.head, |s.writer.bytes|, c.length), writer := WIdle,
              sent := s.sent + s.writer.bytes, accepted := s.accepted + [s.writer.data])
  }

  function ReaderStep(c: Config, s: State, e: Step): State
    requires InBounds(c, s) && ReaderEnabled(c, s, e)
  {
    match e
    case RBegin(room) => s.(reader := RHead(room))
    case RReadHead =>
      var available := BytesInBuffer(s.tail, s.head, c.length);
      var overhead := if c.isMessageBuffer then c.width else 0;
      if available <= overhead then s.(reader := RIdle)
      else if c.isMessageBuffer then s.(reader := RPrefix(s.reader.room, available, []))
      else s.(reader := Take([], Min(s.reader.room, available)))
    case RPrefixByte =>
      var read := s.reader.read;
      s.(reader := s.reader.(read := read + [s.cells[Slot(s.tail, |read|, c.length)]]))
    case RDecide =>
      var length := LengthOf(s.reader.read);
      var wanted := if length > s.reader.limit then 0 else length;
      s.(reader := Take(s.reader.read, Min(wanted, s.reader.available - c.width)))
    case RCopyByte =>
      var prefix, got := s.reader.prefix, s.reader.got;
      s.(reader := RCopy(prefix, s.reader.count, got + [s.cells[Slot(s.tail, |prefix| + |got|, c.length)]]))
    case RPublish =>
      var n := |s.reader.prefix| + s.reader.count;
      s.(tail := Slot(s.tail, n, c.length), reader := RIdle,
         received := s.received + s.reader.prefix + s.reader.got,
         delivered := s.delivered + [s.reader.got])
  }

  function Take(prefix: seq<Byte>, count: nat): Reader {
    if count == 0 then RIdle else RCopy(prefix, count, [])
  }

  // ----- What every step keeps ---------------------------------------------------

  // The bytes sent but not yet received are in the storage, in order, from the tail on.
  ghost predicate StorageOk(c: Config, s: State) {
    && c.length >= 2 && |s.cells| == c.length
    && s.tail < c.length && s.head < c.length
    && s.received <= s.sent
    && Unread(s.cells, s.tail, s.head) == s.sent[|s.received|..]
  }

  // What the writer remembers of the tail, and what it has laid down beyond the head.
  ghost predicate WriterOk(c: Config, s: State)
    requires StorageOk(c, s)
  {
    match s.writer
    case WIdle => true
    case WOriginal(data) => c.isMessageBuffer ==> |data| < Limit(c.width)
    case WTail(data, original, originalAt) =>
      && (c.isMessageBuffer ==> |data| < Limit(c.width))
      && TailWas(c, s, original, originalAt)
    case WCompare(data, original, originalAt, seen, seenAt) =>
      && (c.isMessageBuffer ==> |data| < Limit(c.width))
      && TailWas(c, s, original, originalAt)
      && TailWas(c, s, seen, seenAt) && originalAt <= seenAt
    case WCopy(data, bytes, done) =>
      && done <= |bytes|
      && |bytes| <= c.length - 1 - (|s.sent| - |s.received|)
      && Region(s.cells, s.head, done) == bytes[..done]
      && if c.isMessageBuffer then |data| < Limit(c.width) && bytes == Frame(data, c.width)
         else bytes == data
  }

  // The tail was at cell p when `at` bytes had been received.
  ghost predicate TailWas(c: Config, s: State, p: nat, at: nat)
    requires s.received <= s.sent
  {
    && p < c.length && at <= |s.received|
    && |s.sent| - at < c.length
    && Slot(p, |s.received| - at, c.length) == s.tail
  }

  // What the reader has copied so far are the oldest unread bytes.
  ghost predicate ReaderOk(c: Config, s: State)
    requires StorageOk(c, s)
  {
    var unread := s.sent[|s.received|..];
    match s.reader
    case RIdle => true
    case RHead(_) => true
    case RPrefix(_, available, read) =>
      && c.isMessageBuffer && |read| <= c.width < available <= |unread| && read <= unread
    case RCopy(prefix, count, got) =>
      && |prefix| + count <= |unread| && |got| <= count && prefix + got <= unread
  }

  ghost predicate Sound(c: Config, s: State) {
    StorageOk(c, s) && WriterOk(c, s) && ReaderOk(c, s)
  }

  // When the two readings of the tail around the reading of the head agree, nothing was
  // received in between and the space computed is the space there is.
  lemma SpaceSeenIsExact(c: Config, s: State)
    requires Sound(c, s) && s.writer.WCompare? && s.tail == s.writer.original
    ensures s.writer.seen == s.tail && s.writer.seenAt == |s.received|
    ensures Spaces(s.writer.seen, s.head, c.length) == c.length - 1 - (|s.sent| - |s.received|)
  {
  }

  lemma SoundInBounds(c: Config, s: State)
    requires Sound(c, s)
    ensures InBounds(c, s)
  {
  }

  lemma WriterKeepsSound(c: Config, s: State, e: Step)
    requires Sound(c, s) && WriterEnabled(c, s, e)
    ensures Sound(c, WriterStep(c, s, e))
  {
    match e
    case WCopyByte => CopyKeepsSound(c, s);
    case WPublish => PublishKeepsSound(c, s);
    case WDecide =>
      if s.tail == s.writer.original {
        SpaceSeenIsExact(c, s);
      }
    case _ =>
  }

  // A byte laid down beyond the head is outside the unread region.
  lemma CopyKeepsSound(c: Config, s: State)
    requires Sound(c, s) && WriterEnabled(c, s, WCopyByte)
    ensures Sound(c, WriterStep(c, s, WCopyByte))
  {
    var s', k := WriterStep(c, s, WCopyByte), s.writer.done;
    InFlightIsApart(c, s);
    assert Unread(s'.cells, s.tail, s.head) == Unread(s.cells, s.tail, s.head);
    assert Region(s'.cells, s.head, k + 1) == Region(s.cells, s.head, k) + [s.writer.bytes[k]];
  }

  lemma PublishKeepsSound(c: Config, s: State)
    requires Sound(c, s) && WriterEnabled(c, s, WPublish)
    ensures Sound(c, WriterStep(c, s, WPublish))
  {
    var bytes := s.writer.bytes;
    var s' := WriterStep(c, s, WPublish);
    if s.writer.data != [] {
      assert bytes[..|bytes|] == bytes;
      WriteAppends(s.cells, s.tail, s.head, bytes, s.cells);
      assert s'.sent[|s.received|..] == s.sent[|s.received|..] + bytes;
    }
  }

  lemma ReaderKeepsSound(c: Config, s: State, e: Step)
    requires Sound(c, s) && ReaderEnabled(c, s, e)
    ensures Sound(c, ReaderStep(c, s, e))
  {
    hide Sound, ReaderStep;
    match e
    case RPublish => ConsumeKeepsSound(c, s);
    case RPrefixByte => ByteKeepsSound(c, s, e);
    case RCopyByte => ByteKeepsSound(c, s, e);
    case _ => DecisionKeepsSound(c, s, e);
  }

  lemma DecisionKeepsSound(c: Config, s: State, e: Step)
    requires Sound(c, s) && ReaderEnabled(c, s, e) && (e.RBegin? || e.RReadHead? || e.RDecide?)
    ensures Sound(c, ReaderStep(c, s, e))
  {
    hide WriterOk, InBounds, Slot;
    SoundInBounds(c, s);
    WriterSame(c, s, ReaderStep(c, s, e));
  }

  // The next byte read is the oldest unread one that was not read yet.
  lemma ByteKeepsSound(c: Config, s: State, e: Step)
    requires Sound(c, s) && ReaderEnabled(c, s, e) && (e.RPrefixByte? || e.RCopyByte?)
    ensures Sound(c, ReaderStep(c, s, e))
  {
    hide WriterOk, InBounds, Slot;
    SoundInBounds(c, s);
    WriterSame(c, s, ReaderStep(c, s, e));
  }

  lemma WriterSame(c: Config, s: State, s': State)
    requires StorageOk(c, s) && StorageOk(c, s') && WriterOk(c, s) && s' == s.(reader := s'.reader)
    ensures WriterOk(c, s')
  {
  }

  lemma ConsumeKeepsSound(c: Config, s: State)
    requires Sound(c, s) && ReaderEnabled(c, s, RPublish)
    ensures Sound(c, ReaderStep(c, s, RPublish))
  {
    var s', n := ReaderStep(c, s, RPublish), |s.reader.prefix| + s.reader.count;
    ReadTakes(s.cells, s.tail, s.head, n);
    assert s.reader.prefix + s.reader.got == s.sent[|s.received|..][..n];
    assert s'.received == s.sent[..|s.received| + n];
    assert s'.sent[|s'.received|..] == s.sent[|s.received|..][n..];
    if s.writer.WTail? || s.writer.WCompare? {
      TailMoves(c, s, s', s.writer.original, s.writer.originalAt, n);
    }
    if s.writer.WCompare? {
      TailMoves(c, s, s', s.writer.seen, s.writer.seenAt, n);
    }
  }

  lemma TailMoves(c: Config, s: State, s': State, p: nat, at: nat, n: nat)
    requires s.received <= s.sent && s'.received <= s'.sent && TailWas(c, s, p, at)
    requires s'.sent == s.sent && |s'.received| == |s.received| + n
    requires s.tail < c.length && n <= c.length && s'.tail == Slot(s.tail, n, c.length)
    ensures TailWas(c, s', p, at)
  {
    SlotSum(p, |s.received| - at, n, c.length);
  }

  // An unpublished write never overlaps bytes that are still unread.
  lemma InFlightIsApart(c: Config, s: State)
    requires Sound(c, s) && s.writer.WCopy?
    ensures forall i, j :: 0 <= i < |s.sent| - |s.received| && 0 <= j < |s.writer.bytes| ==>
              Slot(s.tail, i, c.length) != Slot(s.head, j, c.length)
  {
    forall i, j | 0 <= i < |s.sent| - |s.received| && 0 <= j < |s.writer.bytes|
      ensures Slot(s.tail, i, c.length) != Slot(s.head, j, c.length)
    {
      SlotSum(s.tail, |s.sent| - |s.received|, j, c.length);
    }
  }

  // ----- Messages -------------------------------------------------------------------

  // Both byte histories are whole frames, and what a receive is busy with is the frame of
  // the oldest message that was not delivered yet.
  ghost predicate Framed(c: Config, s: State) {
    && AllSendable(s.accepted, c.width)
    && s.sent == Frames(s.accepted, c.width)
    && s.delivered <= s.accepted
    && s.received == Frames(s.delivered, c.width)
    && var pending := s.accepted[|s.delivered|..];
       match s.reader
       case RPrefix(_, available, _) =>
         exists k :: 0 < k <= |pending| && available == |Frames(pending[..k], c.width)|
       case RCopy(prefix, count, _) =>
         pending != [] && prefix == LengthBytes(|pending[0]|, c.width) && count == |pending[0]|
       case _ => true
  }

  // The unread bytes are the frames of the messages not delivered yet.
  lemma PendingFrames(c: Config, s: State)
    requires Sound(c, s) && Framed(c, s)
    ensures s.sent[|s.received|..] == Frames(s.accepted[|s.delivered|..], c.width)
  {
    var pending := s.accepted[|s.delivered|..];
    assert s.accepted == s.delivered + pending;
    FramesAppend(s.delivered, pending, c.width);
  }

  lemma WriterKeepsFramed(c: Config, s: State, e: Step)
    requires c.isMessageBuffer && Sound(c, s) && Framed(c, s) && WriterEnabled(c, s, e)
    ensures Framed(c, WriterStep(c, s, e))
  {
    if e.WPublish? && s.writer.data != [] {
      var s' := WriterStep(c, s, e);
      var d, pending, data := |s.delivered|, s.accepted[|s.delivered|..], s.writer.data;
      FramesOfOne(data, c.width);
      FramesAppend(s.accepted, [data], c.width);
      assert s'.accepted[d..] == pending + [data];
      if s.reader.RPrefix? {
        var k :| 0 < k <= |pending| && s.reader.available == |Frames(pending[..k], c.width)|;
        assert s'.accepted[d..][..k] == pending[..k];
      }
    }
  }

  lemma ReaderKeepsFramed(c: Config, s: State, e: Step)
    requires c.isMessageBuffer && Sound(c, s) && Framed(c, s) && ReaderEnabled(c, s, e)
    ensures Framed(c, ReaderStep(c, s, e))
  {
    var pending := s.accepted[|s.delivered|..];
    PendingFrames(c, s);
    match e
    case RReadHead =>
      assert pending[..|pending|] == pending;
      FramesSize(pending, c.width);
    case RDecide => DecideKeepsFramed(c, s);
    case RPublish => DeliverKeepsFramed(c, s);
    case _ =>
  }

  // The length read is that of the oldest message, and all of it was available.
  lemma DecideKeepsFramed(c: Config, s: State)
    requires c.isMessageBuffer && Sound(c, s) && Framed(c, s) && ReaderEnabled(c, s, RDecide)
    ensures Framed(c, ReaderStep(c, s, RDecide))
  {
    var pending := s.accepted[|s.delivered|..];
    PendingFrames(c, s);
    var k :| 0 < k <= |pending| && s.reader.available == |Frames(pending[..k], c.width)|;
    assert pending[..k][0] == pending[0];
    assert pending[0] in s.accepted;
    FirstFrame(pending[0], Frames(pending[1..], c.width), c.width);
    assert s.reader.read == Frames(pending, c.width)[..c.width];
    assert s.reader.read == LengthBytes(|pending[0]|, c.width);
  }

  // What is given back is the oldest message.
  lemma DeliverKeepsFramed(c: Config, s: State)
    requires c.isMessageBuffer && Sound(c, s) && Framed(c, s) && ReaderEnabled(c, s, RPublish)
    ensures Framed(c, ReaderStep(c, s, RPublish))
    ensures s.reader.got == s.accepted[|s.delivered|]
  {
    hide StorageOk, WriterOk;
    var pending := s.accepted[|s.delivered|..];
    PendingFrames(c, s);
    var m, rest := pending[0], Frames(pending[1..], c.width);
    assert m in s.accepted;
    FirstFrame(m, rest, c.width);
    assert s.reader.prefix + s.reader.got == (Frame(m, c.width) + rest)[..c.width + |m|];
    assert s.reader.prefix + s.reader.got == Frame(m, c.width);
    assert s.reader.got == (s.reader.prefix + s.reader.got)[c.width..] == m;
    FramesOfOne(m, c.width);
    FramesAppend(s.delivered, [m], c.width);
    assert s.delivered + [m] == s.accepted[..|s.delivered| + 1];
  }

  // ----- What the calls decide ---------------------------------------------------------

  function Room(c: Config, s: State): int {
    c.length - 1 - (|s.sent| - |s.received|)
  }

  // When nothing was received between the two readings of the tail, a stream takes what fits, a
  // message is laid down whole or not at all; otherwise the writer looks again.
  lemma WriterTakesWhatFits(c: Config, s: State)
    requires Sound(c, s) && WriterEnabled(c, s, WDecide)
    ensures var data, w := s.writer.data, WriterStep(c, s, WDecide).writer;
            if s.tail != s.writer.original then w == WOriginal(data)
            else if c.isMessageBuffer then
              w == if 0 < |data| + c.width <= Room(c, s) then WCopy(data, Frame(data, c.width), 0) else WIdle
            else if Room(c, s) > 0 && data != [] then
              w.WCopy? && w.done == 0 && w.data == w.bytes <= data
              && |w.bytes| == (if |data| <= Room(c, s) then |data| else Room(c, s))
            else w == WIdle
  {
    if s.tail == s.writer.original {
      SpaceSeenIsExact(c, s);
    }
  }

  // A reader of a stream takes all that is there and fits; one of messages goes on only if there is
  // more than a length.
  lemma ReaderTakesWhatIsThere(c: Config, s: State)
    requires Sound(c, s) && ReaderEnabled(c, s, RReadHead)
    ensures var unread, room, r := |s.sent| - |s.received|, s.reader.room, ReaderStep(c, s, RReadHead).reader;
            if c.isMessageBuffer then r == if unread > c.width then RPrefix(room, unread, []) else RIdle
            else if unread == 0 || room == 0 then r == RIdle
            else r == RCopy([], if room < unread then room else unread, [])
  {
  }

  // A message that fits what the caller has room for is taken, whole, and no other is: the reader
  // then has its length and copies as many bytes.
  lemma ReaderTakesNextMessage(c: Config, s: State)
    requires c.isMessageBuffer && Sound(c, s) && Framed(c, s) && ReaderEnabled(c, s, RDecide)
    ensures |s.delivered| < |s.accepted|
    ensures var m := s.accepted[|s.delivered|];
            ReaderStep(c, s, RDecide).reader ==
              if 0 < |m| <= s.reader.limit then RCopy(LengthBytes(|m|, c.width), |m|, []) else RIdle
  {
    var pending := s.accepted[|s.delivered|..];
    PendingFrames(c, s);
    var k :| 0 < k <= |pending| && s.reader.available == |Frames(pending[..k], c.width)|;
    assert pending[..k][0] == pending[0];
    assert pending[0] in s.accepted;
    FirstFrame(pending[0], Frames(pending[1..], c.width), c.width);
    assert s.reader.read == Frames(pending, c.width)[..c.width];
  }

  ghost function Stored(s: State): seq<Byte>
    requires s.tail < |s.cells| && s.head < |s.cells|
  {
    Unread(s.cells, s.tail, s.head)
  }

  // Moving the head makes exactly the bytes laid down readable, behind those that are there.
  lemma PublishedBehind(c: Config, s: State)
    requires Sound(c, s) && WriterEnabled(c, s, WPublish) && s.writer.data != []
    ensures var s' := WriterStep(c, s, WPublish);
            && StorageOk(c, s') && Stored(s') == Stored(s) + s.writer.bytes
            && s'.accepted == s.accepted + [s.writer.data] && s'.writer == WIdle && s'.reader == s.reader
  {
    PublishKeepsSound(c, s);
    var s' := WriterStep(c, s, WPublish);
    assert s'.sent[|s.received|..] == s.sent[|s.received|..] + s.writer.bytes;
  }

  // Moving the tail gives up exactly the bytes that were copied, which are the oldest.
  lemma ConsumedInFront(c: Config, s: State)
    requires Sound(c, s) && ReaderEnabled(c, s, RPublish)
    ensures var s' := ReaderStep(c, s, RPublish);
            && StorageOk(c, s') && Stored(s) == s.reader.prefix + s.reader.got + Stored(s')
            && s'.delivered == s.delivered + [s.reader.got] && s'.reader == RIdle && s'.writer == s.writer
  {
    hide WriterOk, InBounds, Slot, Unread;
    SoundInBounds(c, s);
    ConsumeKeepsSound(c, s);
    var x := s.reader.prefix + s.reader.got;
    assert s.received + s.reader.prefix + s.reader.got == s.received + x;
    CutInFront(s.sent, s.received, x);
  }

  lemma CutInFront(sent: seq<Byte>, received: seq<Byte>, x: seq<Byte>)
    requires received + x <= sent
    ensures sent[|received|..] == x + sent[|received + x|..]
  {
    assert sent == received + x + sent[|received + x|..];
  }

  // ----- Whole runs -----------------------------------------------------------------

  datatype Run = Reached(state: State) | OutOfBounds | NotPossible

  function Perform(c: Config, s: State, es: seq<Step>): Run
    decreases |es|
  {
    if es == [] then Reached(s)
    else if !InBounds(c, s) then OutOfBounds
    else if WriterEnabled(c, s, es[0]) then Perform(c, WriterStep(c, s, es[0]), es[1..])
    else if ReaderEnabled(c, s, es[0]) then Perform(c, ReaderStep(c, s, es[0]), es[1..])
    else NotPossible
  }

  lemma {:induction false} RunKeeps(c: Config, s: State, es: seq<Step>)
    requires Sound(c, s) && (c.isMessageBuffer ==> Framed(c, s))
    ensures var r := Perform(c, s, es);
            && r != OutOfBounds
            && (r.Reached? ==> Sound(c, r.state) && (c.isMessageBuffer ==> Framed(c, r.state)))
    decreases |es|
  {
    if es != [] {
      var e := es[0];
      if WriterEnabled(c, s, e) {
        WriterKeepsSound(c, s, e);
        if c.isMessageBuffer {
          WriterKeepsFramed(c, s, e);
        }
        RunKeeps(c, WriterStep(c, s, e), es[1..]);
      } else if ReaderEnabled(c, s, e) {
        ReaderKeepsSound(c, s, e);
        if c.isMessageBuffer {
          ReaderKeepsFramed(c, s, e);
        }
        RunKeeps(c, ReaderStep(c, s, e), es[1..]);
      }
    }
  }

  // Under any interleaving no access leaves the storage, the bytes received are a prefix of
  // the bytes sent, and the cells of an unpublished write are none of the unread ones.
  lemma LockFreeIsSafe(c: Config, s: State, es: seq<Step>)
    requires Initial(c, s)
    ensures var r := Perform(c, s, es);
            && r != OutOfBounds
            && (r.Reached? ==>
                  var t := r.state;
                  && InBounds(c, t)
                  && t.received <= t.sent
                  && |t.sent| - |t.received| < c.length
                  && (t.writer.WCopy? ==>
                        forall i, j :: 0 <= i < |t.sent| - |t.received| && 0 <= j < |t.writer.bytes| ==>
                          Slot(t.tail, i, c.length) != Slot(t.head, j, c.length)))
  {
    RunKeeps(c, s, es);
    var r := Perform(c, s, es);
    if r.Reached? && r.state.writer.WCopy? {
      InFlightIsApart(c, r.state);
    }
  }

  // Under any interleaving the messages received are the first of those sent, whole and in
  // order, and once the buffer is empty they are all of them.
  lemma MessagesArriveInOrder(c: Config, s: State, es: seq<Step>)
    requires Initial(c, s) && c.isMessageBuffer
    ensures var r := Perform(c, s, es);
            r.Reached? ==>
              && r.state.delivered <= r.state.accepted
              && (r.state.head == r.state.tail ==> r.state.delivered == r.state.accepted)
  {
    RunKeeps(c, s, es);
    var r := Perform(c, s, es);
    if r.Reached? && r.state.head == r.state.tail {
      var t := r.state;
      assert t.received == t.sent;
      FramesInjective(t.delivered, t.accepted, c.width);
    }
  }
}
