/**
 How discrete messages are laid out as bytes: every message is preceded by its length, held
 in `width` bytes as the processor stores it (least significant byte first).
 */
module Messages {

  newtype Byte = x: int | 0 <= x < 256

  type Message = seq<Byte>

  function LengthBytes(n: nat, width: nat): (bs: seq<Byte>)
    ensures |bs| == width
  {
    if width == 0 then [] else [(n % 256) as Byte] + LengthBytes(n / 256, width - 1)
  }

  function LengthOf(bs: seq<Byte>): nat {
    if bs == [] then 0 else bs[0] as nat + 256 * LengthOf(bs[1..])
  }

  // One more than the largest length that `width` bytes can hold.
  function Limit(width: nat): (m: nat)
    ensures m >= 1
  {
    if width == 0 then 1 else 256 * Limit(width - 1)
  }

  // A length survives the prefix if and only if it fits.
  lemma {:induction false} LengthRoundTrip(n: nat, width: nat)
    ensures LengthOf(LengthBytes(n, width)) < Limit(width)
    ensures LengthOf(LengthBytes(n, width)) == n <==> n < Limit(width)
  {
    if width > 0 {
      LengthRoundTrip(n / 256, width - 1);
    }
  }

  predicate Sendable(m: Message, width: nat) {
    0 < |m| < Limit(width)
  }

  ghost predicate AllSendable(ms: seq<Message>, width: nat) {
    forall m :: m in ms ==> Sendable(m, width)
  }

  function Frame(m: Message, width: nat): (bs: seq<Byte>)
    ensures |bs| == width + |m|
  {
    LengthBytes(|m|, width) + m
  }

  function Frames(ms: seq<Message>, width: nat): seq<Byte> {
    if ms == [] then [] else Frame(ms[0], width) + Frames(ms[1..], width)
  }

  lemma {:induction false} FramesAppend(a: seq<Message>, b: seq<Message>, width: nat)
    ensures Frames(a + b, width) == Frames(a, width) + Frames(b, width)
  {
    if a == [] {
      assert a + b == b;
    } else {
      assert (a + b)[1..] == a[1..] + b;
      FramesAppend(a[1..], b, width);
    }
  }

  lemma FramesOfOne(m: Message, width: nat)
    ensures Frames([m], width) == Frame(m, width)
  {
    assert Frames([m][1..], width) == [];
  }

  // Where there is a message there are more bytes than its prefix takes.
  lemma FramesSize(ms: seq<Message>, width: nat)
    requires AllSendable(ms, width)
    ensures if ms == [] then Frames(ms, width) == [] else |Frames(ms, width)| > width
  {
    assert ms != [] ==> ms[0] in ms;
  }

  // Bytes that start with the frame of a message give back its length, then the message.
  lemma FirstFrame(m: Message, rest: seq<Byte>, width: nat)
    requires Sendable(m, width)
    ensures var bs := Frame(m, width) + rest;
            && LengthOf(bs[..width]) == |m|
            && bs[width..] == m + rest
            && (m + rest)[..|m|] == m
            && (m + rest)[|m|..] == rest
  {
    var bs := Frame(m, width) + rest;
    assert bs[..width] == LengthBytes(|m|, width);
    LengthRoundTrip(|m|, width);
  }

  // The bytes determine the messages.
  lemma {:induction false} FramesInjective(a: seq<Message>, b: seq<Message>, width: nat)
    requires AllSendable(a, width) && AllSendable(b, width)
    requires Frames(a, width) == Frames(b, width)
    ensures a == b
  {
    FramesSize(a, width);
    FramesSize(b, width);
    if a != [] && b != [] {
      var ra, rb := Frames(a[1..], width), Frames(b[1..], width);
      FirstFrame(a[0], ra, width);
      FirstFrame(b[0], rb, width);
      var m, n := a[0], b[0];
      assert m + ra == n + rb && |m| == |n|;
      assert m == n && ra == rb;
      FramesInjective(a[1..], b[1..], width);
      assert a == [m] + a[1..] && b == [n] + b[1..];
    }
  }
}
