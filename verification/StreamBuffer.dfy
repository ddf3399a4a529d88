/**
 Stream and message buffers: a ring of bytes that is empty when head and tail coincide.
 */
module StreamBuffers {
  import opened Messages

  // ----- The ring as a value -------------------------------------------------------

  // The cell k places behind cell p.
  function Slot(p: nat, k: nat, length: nat): (c: nat)
    requires p < length && k <= length
    ensures c < length
  {
    if p + k < length then p + k else p + k - length
  }

  // prvBytesInBuffer
  function BytesInBuffer(tail: nat, head: nat, length: nat): (n: nat)
    requires tail < length && head < length
    ensures n < length && Slot(tail, n, length) == head
  {
    var count := length + head - tail;
    if count >= length then count - length else count
  }

  // The value of xStreamBufferSpacesAvailable once tail has been read consistently.
  function Spaces(tail: nat, head: nat, length: nat): (n: nat)
    requires tail < length && head < length
    ensures n == length - 1 - BytesInBuffer(tail, head, length)
  {
    var space := length + tail - head - 1;
    if space >= length then space - length else space
  }

  // The bytes between tail and head.
  ghost function Unread(cells: seq<Byte>, tail: nat, head: nat): (bs: seq<Byte>)
    requires tail < |cells| && head < |cells|
    ensures |bs| == BytesInBuffer(tail, head, |cells|)
  {
    Region(cells, tail, BytesInBuffer(tail, head, |cells|))
  }

  // n bytes from cell p on, going round at the end.
  ghost function Region(cells: seq<Byte>, p: nat, n: nat): (bs: seq<Byte>)
    requires p < |cells| && n <= |cells|
    ensures |bs| == n && forall i :: 0 <= i < n ==> bs[i] == cells[Slot(p, i, |cells|)]
  {
    seq(n, i requires 0 <= i < n => cells[Slot(p, i, |cells|)])
  }

  // The cells after data was laid down from cell p on.
  ghost predicate Written(cells: seq<Byte>, p: nat, data: seq<Byte>, cells': seq<Byte>)
    requires p < |cells| && |data| <= |cells|
  {
    && |cells'| == |cells|
    && (forall i :: 0 <= i < |data| ==> cells'[Slot(p, i, |cells|)] == data[i])
    && (forall i :: |data| <= i < |cells| ==> cells'[Slot(p, i, |cells|)] == cells[Slot(p, i, |cells|)])
  }

  // Moving on twice is moving on by the sum.
  lemma SlotSum(p: nat, i: nat, j: nat, length: nat)
    requires p < length && i + j <= length
    ensures Slot(Slot(p, i, length), j, length) == Slot(p, i + j, length)
  {
  }

  // Data written at the head leaves the unread bytes alone and, once the head is moved on,
  // is behind them.
  lemma WriteAppends(cells: seq<Byte>, tail: nat, head: nat, data: seq<Byte>, cells': seq<Byte>)
    requires tail < |cells| && head < |cells| && |data| <= Spaces(tail, head, |cells|)
    requires Written(cells, head, data, cells')
    ensures Unread(cells', tail, head) == Unread(cells, tail, head)
    ensures Unread(cells', tail, Slot(head, |data|, |cells|)) == Unread(cells, tail, head) + data
  {
    var L, n := |cells|, BytesInBuffer(tail, head, |cells|);
    SlotSum(tail, n, |data|, L);
    forall i | 0 <= i < n
      ensures cells'[Slot(tail, i, L)] == cells[Slot(tail, i, L)]
    {
      SlotSum(head, L - n, i, L);
      assert Slot(head, L - n + i, L) == Slot(tail, i, L);
    }
    forall i | 0 <= i < |data|
      ensures cells'[Slot(tail, n + i, L)] == data[i]
    {
      SlotSum(tail, n, i, L);
    }
    assert BytesInBuffer(tail, Slot(head, |data|, L), L) == n + |data|;
  }

  // Bytes taken at the tail are the oldest ones; moving the tail on drops them.
  lemma ReadTakes(cells: seq<Byte>, tail: nat, head: nat, n: nat)
    requires tail < |cells| && head < |cells| && n <= BytesInBuffer(tail, head, |cells|)
    ensures Region(cells, tail, n) == Unread(cells, tail, head)[..n]
    ensures Unread(cells, Slot(tail, n, |cells|), head) == Unread(cells, tail, head)[n..]
  {
    var L, u := |cells|, Unread(cells, tail, head);
    assert BytesInBuffer(Slot(tail, n, L), head, L) == |u| - n;
    forall i | 0 <= i < |u| - n
      ensures cells[Slot(Slot(tail, n, L), i, L)] == u[n + i]
    {
      SlotSum(tail, n, i, L);
    }
  }

  // ----- The buffer --------------------------------------------------------------

  class StreamBuffer {
    const xLength: nat
    const isMessageBuffer: bool
    const width: nat              // sbBYTES_TO_STORE_MESSAGE_LENGTH
    const pucBuffer: array<Byte>
    var xTail: nat
    var xHead: nat

    ghost predicate Valid()
      reads this, pucBuffer
    {
      && pucBuffer.Length == xLength
      && xTail < xLength
      && xHead < xLength
    }

    ghost function Contents(): (bs: seq<Byte>)
      requires Valid()
      reads this, pucBuffer
      ensures |bs| < xLength
    {
      Unread(pucBuffer[..], xTail, xHead)
    }

    // One cell more than the size asked for, since a full ring keeps one cell free.
    constructor (size: nat, isMessageBuffer: bool, width: nat)
      requires size > 0
      ensures Valid() && Contents() == [] && xLength == size + 1
      ensures this.isMessageBuffer == isMessageBuffer && this.width == width && fresh(pucBuffer)
    {
      this.xLength := size + 1;
      this.isMessageBuffer := isMessageBuffer;
      this.width := width;
      this.pucBuffer := new Byte[size + 1];
      xTail, xHead := 0, 0;
    }

    // xStreamBufferSpacesAvailable, with nobody reading meanwhile
    function SpacesAvailable(): (n: nat)
      requires Valid()
      reads this, pucBuffer
      ensures n == xLength - 1 - |Contents()|
    {
      Spaces(xTail, xHead, xLength)
    }

    // prvWriteBytesToBuffer: up to the end of the storage, then the rest from its start
    method WriteBytes(data: seq<Byte>, head: nat) returns (next: nat)
      requires pucBuffer.Length == xLength && head < xLength && 0 < |data| <= xLength
      modifies pucBuffer
      ensures Written(old(pucBuffer[..]), head, data, pucBuffer[..])
      ensures next == Slot(head, |data|, xLength)
    {
      var count := |data|;
      var first := if xLength - head < count then xLength - head else count;
      forall i | 0 <= i < first {
        pucBuffer[head + i] := data[i];
      }
      if count > first {
        forall i | 0 <= i < count - first {
          pucBuffer[i] := data[first + i];
        }
      }
      next := head + count;
      if next >= xLength {
        next := next - xLength;
      }
    }

    // prvReadBytesFromBuffer
    method ReadBytes(count: nat, tail: nat) returns (data: seq<Byte>, next: nat)
      requires pucBuffer.Length == xLength && tail < xLength && 0 < count <= xLength
      ensures data == Region(pucBuffer[..], tail, count)
      ensures next == Slot(tail, count, xLength)
    {
      var first := if xLength - tail < count then xLength - tail else count;
      data := pucBuffer[tail..tail + first];
      if count > first {
        data := data + pucBuffer[..count - first];
      }
      next := tail + count;
      if next >= xLength {
        next := next - xLength;
      }
    }

    // prvWriteMessageToBuffer, as xStreamBufferSendFromISR calls it: a message goes in as a
    // whole frame or not at all, a stream takes as much as there is space for.
    method Send(txData: seq<Byte>) returns (sent: nat)
      requires Valid()
      modifies this`xHead, pucBuffer
      ensures Valid()
      ensures isMessageBuffer ==>
                if txData != [] && |txData| + width <= xLength - 1 - |old(Contents())|
                then sent == |txData| && Contents() == old(Contents()) + Frame(txData, width)
                else sent == 0 && Contents() == old(Contents())
      ensures !isMessageBuffer ==>
                && sent == Min(|txData|, xLength - 1 - |old(Contents())|)
                && Contents() == old(Contents()) + txData[..sent]
    {
      var space := SpacesAvailable();
      var required := if isMessageBuffer then |txData| + width else |txData|;
      var nextHead := xHead;
      sent := |txData|;
      ghost var cells, laid := pucBuffer[..], [];
      if isMessageBuffer {
        if space >= required {
          if width > 0 {
            nextHead := WriteBytes(LengthBytes(|txData|, width), nextHead);
          }
          laid := LengthBytes(|txData|, width);
        } else {
          sent := 0;
        }
      } else {
        sent := Min(sent, space);
      }
      ghost var cells1 := pucBuffer[..];
      if sent != 0 {
        nextHead := WriteBytes(txData[..sent], nextHead);
        WrittenTwice(cells, xHead, laid, cells1, txData[..sent], pucBuffer[..]);
        WriteAppends(cells, xTail, xHead, laid + txData[..sent], pucBuffer[..]);
        xHead := nextHead;
        assert isMessageBuffer ==> laid + txData[..sent] == Frame(txData, width);
      } else {
        WriteAppends(cells, xTail, xHead, laid, pucBuffer[..]);
      }
    }

    // xStreamBufferReceiveFromISR: the oldest message if the caller's buffer holds it, else
    // nothing; from a stream as much as the caller's buffer holds.
    method Receive(bufferLength: nat, ghost messages: seq<Message>) returns (rxData: seq<Byte>)
      requires Valid()
      requires isMessageBuffer ==> AllSendable(messages, width) && Contents() == Frames(messages, width)
      modifies this`xTail
      ensures Valid()
      ensures isMessageBuffer ==>
                if messages != [] && |messages[0]| <= bufferLength
                then rxData == messages[0] && Contents() == Frames(messages[1..], width)
                else rxData == [] && Contents() == old(Contents())
      ensures !isMessageBuffer ==>
                && rxData == old(Contents())[..Min(bufferLength, |old(Contents())|)]
                && Contents() == old(Contents())[|rxData|..]
    {
      ghost var cells := pucBuffer[..];
      var available := BytesInBuffer(xTail, xHead, xLength);
      var overhead := if isMessageBuffer then width else 0;
      rxData := [];
      if isMessageBuffer {
        FramesSize(messages, width);
      }
      if available > overhead {
        var nextTail, nextLength := xTail, bufferLength;
        if isMessageBuffer {
          assert Frames(messages, width) == Frame(messages[0], width) + Frames(messages[1..], width);
          FirstFrame(messages[0], Frames(messages[1..], width), width);
          ReadTakes(cells, xTail, xHead, width);
          var prefix := [];
          if width > 0 {
            prefix, nextTail := ReadBytes(width, nextTail);
          }
          nextLength := LengthOf(prefix);
          available := available - width;
          if nextLength > bufferLength {
            nextLength := 0;
          }
        }
        var count := Min(nextLength, available);
        if count != 0 {
          ReadTakes(cells, nextTail, xHead, count);
          rxData, xTail := ReadBytes(count, nextTail);
        }
      }
    }
  }

  function Min(a: nat, b: nat): nat {
    if a < b then a else b
  }

  // Two writes one behind the other are one write.
  lemma WrittenTwice(cells: seq<Byte>, p: nat, a: seq<Byte>, cells1: seq<Byte>, b: seq<Byte>, cells2: seq<Byte>)
    requires p < |cells| && |a| + |b| <= |cells|
    requires Written(cells, p, a, cells1) && Written(cells1, Slot(p, |a|, |cells|), b, cells2)
    ensures Written(cells, p, a + b, cells2)
  {
    var L := |cells|;
    forall i | 0 <= i < L
      ensures cells2[Slot(p, i, L)] == if i < |a| + |b| then (a + b)[i] else cells[Slot(p, i, L)]
    {
      if i >= |a| {
        SlotSum(p, |a|, i - |a|, L);
      } else {
        assert Slot(Slot(p, |a|, L), L - |a| + i, L) == Slot(p, i, L);
      }
    }
  }
}
