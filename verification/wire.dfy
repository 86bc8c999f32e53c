/** Messages on a stream. */
module Wire {
  import opened Basics

  // mrcore/wire.go: length-prefixed messages on a byte stream. A body is the JSON text of one message
  // and stays opaque here.

  const MAX_MESSAGE_SIZE := 64 * 1024

  /** One message as it travels. */
  function Frame(body: bytes): bytes {
    BigEndian(|body|, 4) + body
  }

  /** A whole conversation, one message after another. */
  function Frames(bodies: seq<bytes>): bytes {
    if bodies == [] then [] else Frame(bodies[0]) + Frames(bodies[1..])
  }

  predicate Sendable(bodies: seq<bytes>) {
    forall i :: 0 <= i < |bodies| ==> |bodies[i]| <= MAX_MESSAGE_SIZE
  }

  datatype ReadError = ShortLength | TooLarge | ShortBody

  datatype Reading = Got(body: bytes, rest: bytes) | Broken(error: ReadError)

  /** What reading one message off a stream that then ends gives. */
  function Unframe(stream: bytes): Reading {
    if |stream| < 4 then Broken(ShortLength)
    else
      var length := Value(stream[..4]);
      if length > MAX_MESSAGE_SIZE then Broken(TooLarge)
      else if |stream| - 4 < length then Broken(ShortBody)
      else Got(stream[4..4 + length], stream[4 + length..])
  }

  /** The messages read before the first error, and that error. */
  function ReadAll(stream: bytes): (seq<bytes>, ReadError)
    decreases |stream|
  {
    match Unframe(stream)
    case Broken(error) => ([], error)
    case Got(body, rest) =>
      var (later, error) := ReadAll(rest);
      ([body] + later, error)
  }

  /** A connection: what has been written to it and not yet read. */
  class Pipe {
    var buffer: bytes

    constructor ()
      ensures buffer == []
    {
      buffer := [];
    }

    /** WriteMessage: refuses an oversized body before a byte of it is sent. */
    method WriteMessage(body: bytes) returns (ok: bool)
      modifies this
      ensures ok <==> |body| <= MAX_MESSAGE_SIZE
      ensures buffer == old(buffer) + if ok then Frame(body) else []
    {
      if |body| > MAX_MESSAGE_SIZE {
        return false;
      }
      buffer := buffer + BigEndian(|body|, 4);
      buffer := buffer + body;
      return true;
    }

    /** io.ReadFull on a stream that ends with what is buffered: all of n
        bytes, or an error with everything consumed. */
    method ReadFull(n: nat) returns (got: Option<bytes>)
      modifies this
      ensures n <= |old(buffer)| ==> got == Some(old(buffer)[..n]) && buffer == old(buffer)[n..]
      ensures n > |old(buffer)| ==> got == None && buffer == []
    {
      if n > |buffer| {
        buffer := [];
        return None;
      }
      got := Some(buffer[..n]);
      buffer := buffer[n..];
    }

    /** ReadMessage, which reads exactly one frame and no byte beyond it. */
    method ReadMessage() returns (r: Reading)
      modifies this
      ensures r == Unframe(old(buffer))
      ensures r.Got? ==> buffer == r.rest
    {
      var lenBuf := ReadFull(4);
      if lenBuf.None? {
        return Broken(ShortLength);
      }
      var length := Value(lenBuf.value);
      if length > MAX_MESSAGE_SIZE {
        return Broken(TooLarge);
      }
      var body := ReadFull(length);
      if body.None? {
        return Broken(ShortBody);
      }
      assert old(buffer)[4..][..length] == old(buffer)[4..4 + length];
      assert old(buffer)[4..][length..] == old(buffer)[4 + length..];
      return Got(body.value, buffer);
    }
  }

  lemma UnframeFrame(body: bytes, rest: bytes)
    requires |body| <= MAX_MESSAGE_SIZE
    ensures Unframe(Frame(body) + rest) == Got(body, rest)
  {
    var stream := Frame(body) + rest;
    assert Pow256(4) == 0x1_0000_0000;
    BigEndianRoundTrip(|body|, 4);
    assert stream[..4] == BigEndian(|body|, 4);
    assert stream[4..4 + |body|] == body;
    assert stream[4 + |body|..] == rest;
  }

  /** Reading back what was written yields the same messages, and stops exactly
      where the writing did. */
  lemma {:induction false} ReadAllFrames(bodies: seq<bytes>)
    requires Sendable(bodies)
    ensures ReadAll(Frames(bodies)) == (bodies, ShortLength)
  {
    if bodies != [] {
      UnframeFrame(bodies[0], Frames(bodies[1..]));
      ReadAllFrames(bodies[1..]);
      assert Unframe(Frames(bodies)) == Got(bodies[0], Frames(bodies[1..]));
      assert bodies == [bodies[0]] + bodies[1..];
    }
  }

  /** A stream cut off inside a frame is an error of that frame. */
  lemma UnframeCut(body: bytes, cut: nat)
    requires |body| <= MAX_MESSAGE_SIZE && cut < 4 + |body|
    ensures Unframe(Frame(body)[..cut]).Broken?
  {
    if cut >= 4 {
      assert Pow256(4) == 0x1_0000_0000;
      BigEndianRoundTrip(|body|, 4);
      assert Frame(body)[..cut][..4] == BigEndian(|body|, 4);
    }
  }

  /** Any strict prefix of the stream yields a prefix of the messages, never a
      message that was not sent, and then an error. */
  lemma {:induction false} ReadAllCut(bodies: seq<bytes>, cut: nat)
    requires Sendable(bodies) && cut < |Frames(bodies)|
    ensures ReadAll(Frames(bodies)[..cut]).0 < bodies
  {
    var first, later := Frame(bodies[0]), Frames(bodies[1..]);
    var stream := Frames(bodies)[..cut];
    if cut < |first| {
      assert stream == first[..cut];
      UnframeCut(bodies[0], cut);
    } else {
      assert stream == first + later[..cut - |first|];
      UnframeFrame(bodies[0], later[..cut - |first|]);
      ReadAllCut(bodies[1..], cut - |first|);
      var tail := ReadAll(later[..cut - |first|]).0;
      assert ReadAll(stream).0 == [bodies[0]] + tail;
      assert [bodies[0]] + tail < [bodies[0]] + bodies[1..];
      assert bodies == [bodies[0]] + bodies[1..];
    }
  }

  /** Two conversations that look the same on the wire are the same. */
  lemma FramesInjective(a: seq<bytes>, b: seq<bytes>)
    requires Sendable(a) && Sendable(b) && Frames(a) == Frames(b)
    ensures a == b
  {
    ReadAllFrames(a);
    ReadAllFrames(b);
  }

  /** The four bytes in front of a message, most significant first. */
  lemma FrameHeader(body: bytes)
    requires |body| <= MAX_MESSAGE_SIZE
    ensures Frame(body) == [0, |body| / 0x1_0000, |body| / 0x100 % 0x100, |body| % 0x100] + body
  {
    var n := |body|;
    assert BigEndian(n, 4) == BigEndian(n / 256, 3) + [n % 256];
    assert BigEndian(n / 256, 3) == BigEndian(n / 256 / 256, 2) + [n / 256 % 256];
    assert BigEndian(n / 256 / 256, 2) == BigEndian(n / 256 / 256 / 256, 1) + [n / 256 / 256 % 256];
    assert BigEndian(n / 256 / 256 / 256, 1) == [] + [n / 256 / 256 / 256 % 256];
  }

  /** A message is read exactly off a stream that begins with a whole frame of no more
      than 64 KiB; the length is looked at before the body is. */
  lemma ReadIff(stream: bytes)
    ensures Unframe(stream).Got? <==> |stream| >= 4 && Value(stream[..4]) <= 0x1_0000 && |stream| - 4 >= Value(stream[..4])
    ensures Unframe(stream).Got? ==>
      Unframe(stream).body + Unframe(stream).rest == stream[4..] && |Unframe(stream).body| == Value(stream[..4])
    ensures Unframe(stream) == Broken(TooLarge) <==> |stream| >= 4 && Value(stream[..4]) > 0x1_0000
    ensures Unframe(stream) == Broken(ShortLength) <==> |stream| < 4
  {
    if Unframe(stream).Got? {
      var n := Value(stream[..4]);
      assert stream[4..4 + n] + stream[4 + n..] == stream[4..];
    }
  }
}
