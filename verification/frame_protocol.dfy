/**
 Length-prefixed frames on a byte stream: a 32-bit big-endian length and that many payload bytes.
 Payloads are kept as bytes; printing and parsing them as JSON is a matter of its own.
 */
module FrameProtocol {

  newtype Byte = x: int | 0 <= x < 256

  const MAX_FRAME_BYTES := 9 * 1024 * 1024
  const WORD := 0x1_0000_0000

  datatype Status = NeedMore | Invalid | Ok(payload: seq<Byte>, rest: seq<Byte>)

  function LengthBytes(n: int): (r: seq<Byte>)
    requires 0 <= n < WORD
    ensures |r| == 4
  {
    [(n / 0x100_0000 % 256) as Byte, (n / 0x1_0000 % 256) as Byte, (n / 0x100 % 256) as Byte, (n % 256) as Byte]
  }

  function LengthOf(header: seq<Byte>): (n: int)
    requires |header| >= 4
    ensures 0 <= n < WORD
  {
    header[0] as int * 0x100_0000 + header[1] as int * 0x1_0000 + header[2] as int * 0x100 + header[3] as int
  }

  /** The length is cut to 32 bits. */
  function EncodeFrame(payload: seq<Byte>): seq<Byte> {
    LengthBytes(|payload| % WORD) + payload
  }

  function Decode(buffer: seq<Byte>): Status {
    if |buffer| < 4 then NeedMore
    else
      var length := LengthOf(buffer);
      if length > MAX_FRAME_BYTES then Invalid
      else if |buffer| < 4 + length then NeedMore
      else Ok(buffer[4..4 + length], buffer[4 + length..])
  }

  /** Decode as long as there are whole frames. */
  datatype Drained = Drained(messages: seq<seq<Byte>>, rest: seq<Byte>, invalid: bool)

  function Drain(buffer: seq<Byte>): Drained
    decreases |buffer|
  {
    match Decode(buffer)
    case NeedMore => Drained([], buffer, false)
    case Invalid => Drained([], buffer, true)
    case Ok(payload, rest) =>
      var later := Drain(rest);
      Drained([payload] + later.messages, later.rest, later.invalid)
  }

  function Concat(parts: seq<seq<Byte>>): seq<Byte> {
    if parts == [] then [] else parts[0] + Concat(parts[1..])
  }

  // --- Encoding and decoding -------------------------------------------------------------

  lemma BytesOfLength(n: int)
    requires 0 <= n < WORD
    ensures LengthOf(LengthBytes(n)) == n
  {
    var a := n / 0x100;
    var b := a / 0x100;
    var c := b / 0x100;
    assert n == a * 0x100 + n % 0x100 && a == b * 0x100 + a % 0x100 && b == c * 0x100 + b % 0x100;
    assert n / 0x1_0000 == b && n / 0x100_0000 == c && c < 0x100;
    LastByte(c);
  }

  lemma LastByte(c: int)
    requires 0 <= c < 0x100
    ensures c % 256 == c
  {
  }

  /** Decoding a frame gives its payload back if and only if the payload is within the limit. */
  lemma RoundTrip(payload: seq<Byte>, more: seq<Byte>)
    ensures Decode(EncodeFrame(payload) + more) == Ok(payload, more) <==> |payload| <= MAX_FRAME_BYTES
  {
    var n := |payload| % WORD;
    var all := EncodeFrame(payload) + more;
    BytesOfLength(n);
    assert all[..4] == LengthBytes(n);
    assert LengthOf(all) == LengthOf(LengthBytes(n));
    if |payload| <= MAX_FRAME_BYTES {
      assert all[4..4 + n] == payload && all[4 + n..] == more;
    }
  }

  /** The number four bytes stand for, the most significant one first. */
  function BigEndian(header: seq<Byte>): int
    requires |header| == 4
  {
    ((header[0] as int * 256 + header[1] as int) * 256 + header[2] as int) * 256 + header[3] as int
  }

  /** A frame is the length of the payload, in that form and cut to 32 bits, and the payload. */
  lemma FrameMeans(payload: seq<Byte>)
    ensures var frame := EncodeFrame(payload);
            |frame| == 4 + |payload| && BigEndian(frame[..4]) == |payload| % 4_294_967_296 && frame[4..] == payload
  {
    BytesOfLength(|payload| % WORD);
    assert EncodeFrame(payload)[..4] == LengthBytes(|payload| % WORD);
  }

  /** How the beginning of a stream is read: a length of more than 9 MiB is refused as soon as it is there, a frame is
      taken off as soon as it is whole, and anything less is left for later. */
  lemma DecodeMeans(buffer: seq<Byte>)
    ensures |buffer| < 4 ==> Decode(buffer) == NeedMore
    ensures |buffer| >= 4 ==>
              var n := BigEndian(buffer[..4]);
              && (Decode(buffer) == Invalid <==> n > 9_437_184)
              && (Decode(buffer) == NeedMore <==> n <= 9_437_184 && |buffer| < 4 + n)
              && (Decode(buffer).Ok? ==>
                    |Decode(buffer).payload| == n && buffer == buffer[..4] + Decode(buffer).payload + Decode(buffer).rest)
  {
    if |buffer| >= 4 {
      assert LengthOf(buffer) == BigEndian(buffer[..4]);
    }
  }

  lemma {:induction false} EncodedMessagesDrain(messages: seq<seq<Byte>>)
    requires forall i :: 0 <= i < |messages| ==> |messages[i]| <= MAX_FRAME_BYTES
    ensures Drain(Concat(Encoded(messages))) == Drained(messages, [], false)
    decreases |messages|
  {
    if messages != [] {
      var later := Concat(Encoded(messages[1..]));
      assert Concat(Encoded(messages)) == EncodeFrame(messages[0]) + later;
      hide Decode, EncodeFrame;
      RoundTrip(messages[0], later);
      EncodedMessagesDrain(messages[1..]);
      FirstMessage(messages[0], EncodeFrame(messages[0]) + later, later);
      hide Encoded, Concat, Drain;
      assert [messages[0]] + messages[1..] == messages;
    }
  }

  lemma FirstMessage(payload: seq<Byte>, buffer: seq<Byte>, rest: seq<Byte>)
    requires Decode(buffer) == Ok(payload, rest)
    ensures Drain(buffer) == Drained([payload] + Drain(rest).messages, Drain(rest).rest, Drain(rest).invalid)
  {
  }

  function Encoded(messages: seq<seq<Byte>>): seq<seq<Byte>> {
    if messages == [] then [] else [EncodeFrame(messages[0])] + Encoded(messages[1..])
  }

  // --- Chunks -----------------------------------------------------------------------

  lemma DecodeMore(a: seq<Byte>, b: seq<Byte>)
    ensures Decode(a).Ok? ==> Decode(a + b) == Ok(Decode(a).payload, Decode(a).rest + b)
    ensures Decode(a).Invalid? ==> Decode(a + b).Invalid?
  {
    if |a| >= 4 {
      assert LengthOf(a + b) == LengthOf(a);
      var n := 4 + LengthOf(a);
      if n <= |a| {
        assert (a + b)[4..n] == a[4..n] && (a + b)[n..] == a[n..] + b;
      }
    }
  }

  /** Messages decoded earlier and what a later decoding gives. */
  function Joined(messages: seq<seq<Byte>>, later: Drained): Drained {
    Drained(messages + later.messages, later.rest, later.invalid)
  }

  lemma JoinedStep(messages: seq<seq<Byte>>, buffer: seq<Byte>)
    ensures Decode(buffer).Ok? ==>
              Joined(messages, Drain(buffer)) == Joined(messages + [Decode(buffer).payload], Drain(Decode(buffer).rest))
    ensures !Decode(buffer).Ok? ==> Joined(messages, Drain(buffer)) == Drained(messages, buffer, Decode(buffer).Invalid?)
  {
    if Decode(buffer).Ok? {
      var later := Drain(Decode(buffer).rest);
      assert messages + ([Decode(buffer).payload] + later.messages) == (messages + [Decode(buffer).payload]) + later.messages;
    } else {
      assert messages + [] == messages;
    }
  }

  lemma {:induction false} DrainOnto(messages: seq<seq<Byte>>, a: seq<Byte>, b: seq<Byte>)
    ensures var first := Joined(messages, Drain(a));
            Joined(messages, Drain(a + b)) == Joined(first.messages, Drain(first.rest + b))
    decreases |a|
  {
    DecodeMore(a, b);
    JoinedStep(messages, a);
    JoinedStep(messages, a + b);
    hide Joined, Drain;
    if Decode(a).Ok? {
      assert |Decode(a).rest| < |a|;
      hide Decode;
      DrainOnto(messages + [Decode(a).payload], Decode(a).rest, b);
    }
  }

  /** Decoding the beginning first and the rest later is decoding it all. */
  lemma DrainSplits(a: seq<Byte>, b: seq<Byte>)
    ensures Drain(a + b) == Joined(Drain(a).messages, Drain(Drain(a).rest + b))
  {
    DrainOnto([], a, b);
    hide Drain;
    assert [] + Drain(a + b).messages == Drain(a + b).messages && [] + Drain(a).messages == Drain(a).messages;
  }

  // --- A session ----------------------------------------------------------------------

  class Session {
    var buffer: seq<Byte>
    var messages: seq<seq<Byte>>
    var invalid: bool
    ghost var received: seq<Byte>

    /** Everything decoded so far is what the bytes received so far amount to, however they were cut. */
    ghost predicate Valid()
      reads this
    {
      Drain(received) == Drained(messages, buffer, invalid)
    }

    constructor ()
      ensures Valid() && received == []
    {
      buffer, messages, invalid, received := [], [], false, [];
    }

    /** Takes a whole frame off the front of the buffer, if there is one. */
    method TryDecodeFrame() returns (status: Status)
      modifies this`buffer
      ensures status == Decode(old(buffer))
      ensures buffer == if status.Ok? then status.rest else old(buffer)
    {
      if |buffer| < 4 {
        return NeedMore;
      }
      var length := LengthOf(buffer);
      if length > MAX_FRAME_BYTES {
        return Invalid;
      }
      if |buffer| < 4 + length {
        return NeedMore;
      }
      var payload := buffer[4..4 + length];
      buffer := buffer[4 + length..];
      status := Ok(payload, buffer);
    }

    /** A chunk arrives.  An invalid length ends the connection; should more bytes come, it is found again. */
    method OnReadyRead(chunk: seq<Byte>)
      requires Valid()
      modifies this
      ensures Valid() && received == old(received) + chunk
    {
      DrainSplits(received, chunk);
      received := received + chunk;
      buffer := buffer + chunk;
      hide Drain, Joined;
      while true
        invariant received == old(received) + chunk && Joined(messages, Drain(buffer)) == Drain(received)
        decreases |buffer|
      {
        JoinedStep(messages, buffer);
        var status := TryDecodeFrame();
        if status.NeedMore? {
          invalid := false;
          break;
        }
        if status.Invalid? {
          invalid := true;
          break;
        }
        messages := messages + [status.payload];
      }
    }
  }

  /** For any chunks the messages, the unread bytes and the verdict depend on their concatenation only. */
  method ReadAll(chunks: seq<seq<Byte>>) returns (session: Session)
    ensures fresh(session) && Drain(Concat(chunks)) == Drained(session.messages, session.buffer, session.invalid)
  {
    session := new Session();
    assert chunks[0..] == chunks && session.received + Concat(chunks) == Concat(chunks);
    hide Drain;
    for i := 0 to |chunks|
      invariant fresh(session) && session.Valid() && session.received + Concat(chunks[i..]) == Concat(chunks)
    {
      assert chunks[i..][1..] == chunks[i + 1..];
      assert Concat(chunks[i..]) == chunks[i] + Concat(chunks[i + 1..]);
      Regroup(session.received, chunks[i], Concat(chunks[i + 1..]));
      session.OnReadyRead(chunks[i]);
    }
    assert session.received + [] == session.received;
  }

  lemma Regroup(a: seq<Byte>, b: seq<Byte>, c: seq<Byte>)
    ensures a + (b + c) == (a + b) + c
  {
  }
}
