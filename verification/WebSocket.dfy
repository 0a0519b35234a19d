// The profiler's WebSocket: frames over a socket that delivers bytes in
// arbitrary pieces (tools/hmi_profiler.py, class WebSocket; sections 5.2 to
// 5.5 of RFC 6455).

module WebSocket {
  import opened Octets
  import opened Prelude

  type Bytes = seq<bv8>

  const CONTINUATION: bv8 := 0x0
  const TEXT: bv8 := 0x1
  const BINARY: bv8 := 0x2
  const CLOSE: bv8 := 0x8
  const PING: bv8 := 0x9
  const PONG: bv8 := 0xA

  // --- Numbers and masks ----------------------------------------------------------------

  function Power256(width: nat): (p: nat)
    ensures p > 0
  {
    if width == 0 then 1 else 256 * Power256(width - 1)
  }

  /** `n` in `width` bytes, the most significant first. */
  function BigEndian(n: nat, width: nat): (bytes: Bytes)
    ensures |bytes| == width
  {
    if width == 0 then [] else BigEndian(n / 256, width - 1) + [(n % 256) as bv8]
  }

  function Number(bytes: Bytes): nat {
    if bytes == [] then 0 else 256 * Number(bytes[..|bytes| - 1]) + bytes[|bytes| - 1] as int
  }

  lemma Digits(n: nat, p: nat)
    requires n < 256 * p
    ensures n / 256 < p && 256 * (n / 256) + n % 256 == n
  {
  }

  lemma {:induction false} NumberIsRead(n: nat, width: nat)
    requires n < Power256(width)
    ensures Number(BigEndian(n, width)) == n
  {
    if width > 0 {
      var bytes := BigEndian(n, width);
      Digits(n, Power256(width - 1));
      NumberIsRead(n / 256, width - 1);
      assert bytes[..|bytes| - 1] == BigEndian(n / 256, width - 1);
      ByteIsKept(n % 256);
    }
  }

  function Masked(payload: Bytes, mask: Bytes): (masked: Bytes)
    requires |mask| == 4
    ensures |masked| == |payload|
    ensures forall i :: 0 <= i < |payload| ==> masked[i] == payload[i] ^ mask[i % 4]
  {
    seq(|payload|, i requires 0 <= i < |payload| => payload[i] ^ mask[i % 4])
  }

  lemma MaskedTwice(payload: Bytes, mask: Bytes)
    requires |mask| == 4
    ensures Masked(Masked(payload, mask), mask) == payload
  {
    forall i | 0 <= i < |payload|
      ensures Masked(Masked(payload, mask), mask)[i] == payload[i]
    {
      XorTwice(payload[i], mask[i % 4]);
    }
  }

  // --- Frames ---------------------------------------------------------------------------

  datatype Frame = Frame(fin: bool, opcode: bv8, payload: Bytes)

  /** The frame a stream begins with and what follows it, once all of it is there. */
  datatype Parsed = Incomplete | Complete(frame: Frame, rest: Bytes)

  function LengthWidth(length7: bv8): nat {
    if length7 == 126 then 2 else if length7 == 127 then 8 else 0
  }

  function ParsePayload(first: bv8, mask: Option<Bytes>, length: nat, s: Bytes): Parsed
    requires mask.Some? ==> |mask.value| == 4
  {
    if |s| < length then Incomplete
    else
      var payload := if mask.Some? then Masked(s[..length], mask.value) else s[..length];
      Complete(Frame(first & 0x80 != 0, first & 0x0F, payload), s[length..])
  }

  function ParseMask(first: bv8, masked: bool, length: nat, s: Bytes): Parsed {
    if !masked then ParsePayload(first, None, length, s)
    else if |s| < 4 then Incomplete
    else ParsePayload(first, Some(s[..4]), length, s[4..])
  }

  function ParseLength(first: bv8, second: bv8, s: Bytes): Parsed {
    var length7 := second & 0x7F;
    var width := LengthWidth(length7);
    if |s| < width then Incomplete
    else ParseMask(first, second & 0x80 != 0, if width == 0 then length7 as int else Number(s[..width]), s[width..])
  }

  function Parse(s: Bytes): Parsed {
    if |s| < 2 then Incomplete else ParseLength(s[0], s[1], s[2..])
  }

  /** The length in the second byte's low bits and after it, in the shortest form there is. */
  function LengthBits(length: nat): (bits: bv8)
    ensures bits <= 127
  {
    if length < 126 then
      ByteIsKept(length);
      length as bv8
    else if length < 0x1_0000 then 126
    else 127
  }

  function ExtendedLength(length: nat): Bytes {
    BigEndian(length, if length < 126 then 0 else if length < 0x1_0000 then 2 else 8)
  }

  function MaskAndPayload(mask: Option<Bytes>, payload: Bytes): Bytes
    requires mask.Some? ==> |mask.value| == 4
  {
    if mask.Some? then mask.value + Masked(payload, mask.value) else payload
  }

  function FirstByte(fin: bool, opcode: bv8): bv8 {
    (if fin then 0x80 else 0) | opcode
  }

  function SecondByte(masked: bool, bits: bv8): bv8 {
    (if masked then 0x80 else 0) | bits
  }

  /** A frame on the wire; a client's is masked and a server's is not. */
  function Encoded(frame: Frame, mask: Option<Bytes>): Bytes
    requires mask.Some? ==> |mask.value| == 4
  {
    [FirstByte(frame.fin, frame.opcode), SecondByte(mask.Some?, LengthBits(|frame.payload|))]
    + ExtendedLength(|frame.payload|) + MaskAndPayload(mask, frame.payload)
  }

  lemma FirstByteIsRead(fin: bool, opcode: bv8)
    ensures (FirstByte(fin, opcode) & 0x80 != 0) == (fin || opcode & 0x80 != 0)
    ensures FirstByte(fin, opcode) & 0x0F == opcode & 0x0F
  {
    FlagAndByte(fin, opcode);
  }

  lemma SecondByteIsRead(masked: bool, bits: bv8)
    requires bits <= 127
    ensures (SecondByte(masked, bits) & 0x80 != 0) == masked && SecondByte(masked, bits) & 0x7F == bits
  {
    FlagAndSeven(masked, bits);
  }

  lemma ShortLength(length: nat)
    requires length < 126
    ensures LengthBits(length) < 126 && LengthBits(length) as int == length
  {
    ByteIsKept(length);
  }

  lemma LengthIsRead(length: nat)
    requires length < 0x1_0000_0000_0000_0000
    ensures var width := LengthWidth(LengthBits(length));
      && |ExtendedLength(length)| == width
      && length == if width == 0 then LengthBits(length) as int else Number(ExtendedLength(length))
  {
    if length < 126 {
      ShortLength(length);
    } else if length < 0x1_0000 {
      assert Power256(2) == 0x1_0000;
      NumberIsRead(length, 2);
    } else {
      EightBytes();
      NumberIsRead(length, 8);
    }
  }

  lemma EightBytes()
    ensures Power256(8) == 0x1_0000_0000_0000_0000
  {
    assert Power256(4) == 0x1_0000_0000;
  }

  lemma PayloadIsRead(first: bv8, mask: Option<Bytes>, payload: Bytes, rest: Bytes)
    requires mask.Some? ==> |mask.value| == 4
    ensures ParseMask(first, mask.Some?, |payload|, MaskAndPayload(mask, payload) + rest)
         == Complete(Frame(first & 0x80 != 0, first & 0x0F, payload), rest)
  {
    var s := MaskAndPayload(mask, payload) + rest;
    if mask.Some? {
      var masked := Masked(payload, mask.value);
      MaskedTwice(payload, mask.value);
      assert s[..4] == mask.value && s[4..] == masked + rest;
      assert (masked + rest)[..|payload|] == masked && (masked + rest)[|payload|..] == rest;
    } else {
      assert s[..|payload|] == payload && s[|payload|..] == rest;
    }
  }

  lemma Apart(a: Bytes, b: Bytes)
    ensures (a + b)[..|a|] == a && (a + b)[|a|..] == b
  {
  }

  lemma LengthComesApart(first: bv8, masked: bool, length: nat, body: Bytes)
    requires length < 0x1_0000_0000_0000_0000
    ensures ParseLength(first, SecondByte(masked, LengthBits(length)), ExtendedLength(length) + body)
         == ParseMask(first, masked, length, body)
  {
    hide ParseMask, ExtendedLength, LengthBits, Number, SecondByte;
    SecondByteIsRead(masked, LengthBits(length));
    LengthIsRead(length);
    Apart(ExtendedLength(length), body);
  }

  lemma TwoBytesOff(first: bv8, second: bv8, extended: Bytes, payload: Bytes, rest: Bytes)
    ensures Parse(([first, second] + extended + payload) + rest)
         == ParseLength(first, second, extended + (payload + rest))
  {
    hide ParseLength;
    var s := ([first, second] + extended + payload) + rest;
    assert s[2..] == extended + (payload + rest);
  }

  /** A frame as its reader sees it: only four bits of the opcode, and its topmost as `fin`. */
  function AsRead(frame: Frame): Frame {
    Frame(frame.fin || frame.opcode & 0x80 != 0, frame.opcode & 0x0F, frame.payload)
  }

  /** Whatever is written is read so, and the reading ends exactly on the next frame's boundary. */
  lemma WrittenIsRead(frame: Frame, mask: Option<Bytes>, rest: Bytes)
    requires |frame.payload| < 0x1_0000_0000_0000_0000
    requires mask.Some? ==> |mask.value| == 4
    ensures Parse(Encoded(frame, mask) + rest) == Complete(AsRead(frame), rest)
  {
    hide Parse, ParseLength, ParseMask, ExtendedLength, LengthBits, MaskAndPayload, FirstByte, SecondByte;
    var length := |frame.payload|;
    var first, second := FirstByte(frame.fin, frame.opcode), SecondByte(mask.Some?, LengthBits(length));
    FirstByteIsRead(frame.fin, frame.opcode);
    TwoBytesOff(first, second, ExtendedLength(length), MaskAndPayload(mask, frame.payload), rest);
    LengthComesApart(first, mask.Some?, length, MaskAndPayload(mask, frame.payload) + rest);
    PayloadIsRead(first, mask, frame.payload, rest);
  }

  /** Reading undoes writing for every opcode there is. */
  lemma FramesRoundTrip(frame: Frame, mask: Option<Bytes>, rest: Bytes)
    requires frame.opcode < 16 && |frame.payload| < 0x1_0000_0000_0000_0000
    requires mask.Some? ==> |mask.value| == 4
    ensures Parse(Encoded(frame, mask) + rest) == Complete(frame, rest)
  {
    hide Parse, Encoded;
    WrittenIsRead(frame, mask, rest);
    NibbleIsKept(frame.opcode);
  }

  // --- The stream ------------------------------------------------------------------------

  lemma FrameTakesBytes(s: Bytes)
    ensures Parse(s).Complete? ==> |Parse(s).rest| <= |s| - 2
  {
  }

  lemma Longer(s: Bytes, more: Bytes, n: nat)
    requires n <= |s|
    ensures (s + more)[..n] == s[..n] && (s + more)[n..] == s[n..] + more
  {
  }

  /** Where a frame ends does not depend on what has arrived behind it. */
  lemma LaterBytesDoNotMatter(s: Bytes, more: Bytes)
    requires Parse(s).Complete?
    ensures Parse(s + more) == Complete(Parse(s).frame, Parse(s).rest + more)
  {
    hide Number, ParseMask;
    var width := LengthWidth(s[1] & 0x7F);
    Longer(s, more, 2);
    var t := s[2..];
    Longer(t, more, width);
    LaterBytesAfterLength(s[0], s[1] & 0x80 != 0,
                          if width == 0 then (s[1] & 0x7F) as int else Number(t[..width]), t[width..], more);
  }

  lemma LaterBytesAfterLength(first: bv8, masked: bool, length: nat, s: Bytes, more: Bytes)
    requires ParseMask(first, masked, length, s).Complete?
    ensures var parsed := ParseMask(first, masked, length, s);
      ParseMask(first, masked, length, s + more) == Complete(parsed.frame, parsed.rest + more)
  {
    hide ParsePayload;
    if masked {
      Longer(s, more, 4);
      LaterBytesAfterMask(first, Some(s[..4]), length, s[4..], more);
    } else {
      LaterBytesAfterMask(first, None, length, s, more);
    }
  }

  lemma LaterBytesAfterMask(first: bv8, mask: Option<Bytes>, length: nat, s: Bytes, more: Bytes)
    requires mask.Some? ==> |mask.value| == 4
    requires ParsePayload(first, mask, length, s).Complete?
    ensures var parsed := ParsePayload(first, mask, length, s);
      ParsePayload(first, mask, length, s + more) == Complete(parsed.frame, parsed.rest + more)
  {
    Longer(s, more, length);
  }

  datatype Failure = ConnectionClosed | UnexpectedOpcode(opcode: bv8)

  datatype Result<+T> = Ok(value: T) | Err(error: Failure)

  /** What `recv_text` returns on a stream, the pings it answers, and the stream behind it. */
  datatype Received = Received(result: Result<Bytes>, pings: seq<Bytes>, rest: Bytes)

  function Text(s: Bytes, chunks: Bytes): Received
    decreases |s|
  {
    FrameTakesBytes(s);
    match Parse(s)
    case Incomplete => Received(Err(ConnectionClosed), [], [])
    case Complete(frame, rest) =>
      if frame.opcode == CLOSE then Received(Err(ConnectionClosed), [], rest)
      else if frame.opcode == PING then
        var later := Text(rest, chunks);
        Received(later.result, [frame.payload] + later.pings, later.rest)
      else if frame.opcode == PONG then Text(rest, chunks)
      else if IsData(frame.opcode) then
        if frame.fin then Received(Ok(chunks + frame.payload), [], rest)
        else Text(rest, chunks + frame.payload)
      else Received(Err(UnexpectedOpcode(frame.opcode)), [], rest)
  }

  predicate IsData(opcode: bv8) {
    opcode == CONTINUATION || opcode == TEXT || opcode == BINARY
  }

  class WebSocket {
    var buf: Bytes
    /** What the server has yet to deliver before it closes the connection. */
    var incoming: Bytes
    /** What was sent, one element a call of the socket's sendall. */
    var sent: seq<Bytes>

    constructor (buf: Bytes, incoming: Bytes)
      ensures Stream() == buf + incoming && sent == []
    {
      this.buf, this.incoming, this.sent := buf, incoming, [];
    }

    ghost function Stream(): Bytes
      reads this
    {
      buf + incoming
    }

    /** The socket: any part of what is still to come, nothing only once it is closed. */
    method Recv(limit: nat) returns (chunk: Bytes)
      requires limit > 0
      modifies this`incoming
      ensures chunk + incoming == old(incoming)
      ensures |chunk| <= limit && (chunk == [] <==> old(incoming) == [])
    {
      if incoming == [] {
        return [];
      }
      var size :| 0 < size <= limit && size <= |incoming|;
      chunk, incoming := incoming[..size], incoming[size..];
    }

    method RecvExactly(count: nat) returns (out: Result<Bytes>)
      modifies this`buf, this`incoming
      ensures out.Ok? <==> count <= |old(Stream())|
      ensures out.Ok? ==> out.value == old(Stream())[..count] && Stream() == old(Stream())[count..]
      ensures out.Err? ==> out.error == ConnectionClosed && Stream() == old(Stream()) && incoming == []
    {
      while |buf| < count
        invariant Stream() == old(Stream())
        decreases |incoming|
      {
        var chunk := Recv(if 4096 >= count - |buf| then 4096 else count - |buf|);
        if chunk == [] {
          return Err(ConnectionClosed);
        }
        ghost var before := buf;
        buf := buf + chunk;
        Associative(before, chunk, incoming);
      }
      ghost var stream := Stream();
      out := Ok(buf[..count]);
      buf := buf[count..];
      assert stream[..count] == out.value && stream[count..] == Stream();
    }

    method ReadFrame() returns (frame: Result<Frame>)
      modifies this`buf, this`incoming
      ensures frame.Ok? <==> Parse(old(Stream())).Complete?
      ensures frame.Ok? ==> frame.value == Parse(old(Stream())).frame && Stream() == Parse(old(Stream())).rest
      ensures frame.Err? ==> frame.error == ConnectionClosed && incoming == []
    {
      ghost var stream := Stream();
      var one := RecvExactly(1);
      if one.Err? {
        return Err(one.error);
      }
      var first := one.value[0];
      one := RecvExactly(1);
      if one.Err? {
        return Err(one.error);
      }
      var second := one.value[0];
      assert first == stream[0] && second == stream[1] && Stream() == stream[2..];
      frame := ReadBody(first, second);
    }

    /** What follows a frame's first two bytes. */
    method ReadBody(first: bv8, second: bv8) returns (frame: Result<Frame>)
      modifies this`buf, this`incoming
      ensures var parsed := ParseLength(first, second, old(Stream()));
        && (frame.Ok? <==> parsed.Complete?)
        && (frame.Ok? ==> frame.value == parsed.frame && Stream() == parsed.rest)
      ensures frame.Err? ==> frame.error == ConnectionClosed && incoming == []
    {
      hide Number, Masked;
      var masked := second & 0x80 != 0;
      var length := (second & 0x7F) as int;
      if second & 0x7F == 126 {
        var extended := RecvExactly(2);
        if extended.Err? {
          return Err(extended.error);
        }
        length := Number(extended.value);
      } else if second & 0x7F == 127 {
        var extended := RecvExactly(8);
        if extended.Err? {
          return Err(extended.error);
        }
        length := Number(extended.value);
      } else {
        assert Stream()[0..] == Stream();
      }
      frame := ReadPayload(first, masked, length);
    }

    method ReadPayload(first: bv8, masked: bool, length: nat) returns (frame: Result<Frame>)
      modifies this`buf, this`incoming
      ensures var parsed := ParseMask(first, masked, length, old(Stream()));
        && (frame.Ok? <==> parsed.Complete?)
        && (frame.Ok? ==> frame.value == parsed.frame && Stream() == parsed.rest)
      ensures frame.Err? ==> frame.error == ConnectionClosed && incoming == []
    {
      var mask: Option<Bytes> := None;
      if masked {
        var four := RecvExactly(4);
        if four.Err? {
          return Err(four.error);
        }
        mask := Some(four.value);
      }
      var payload: Bytes := [];
      if length != 0 {
        var received := RecvExactly(length);
        if received.Err? {
          return Err(received.error);
        }
        payload := received.value;
      } else {
        assert Stream()[..0] == [] && Stream()[0..] == Stream();
      }
      if mask.Some? {
        payload := Masked(payload, mask.value);
      }
      frame := Ok(Frame(first & 0x80 != 0, first & 0x0F, payload));
    }

    /** One frame in one call, masked with whatever four bytes the system gives. */
    method SendFrame(opcode: bv8, payload: Bytes)
      requires |payload| < 0x1_0000_0000_0000_0000
      modifies this`sent
      ensures |sent| == |old(sent)| + 1 && sent[..|old(sent)|] == old(sent)
      ensures IsSent(sent[|old(sent)|], opcode, payload)
    {
      hide FirstByte, SecondByte, LengthBits, ExtendedLength, Encoded, IsSent, Masked;
      var header := Header(opcode, |payload|);
      var mask: Bytes := Urandom4();
      sent := sent + [header + mask + Masked(payload, mask)];
      HeaderAndMask(Frame(true, opcode, payload), mask);
      SentIsRead(opcode, payload, mask);
    }

    /** The final frame's two bytes, the length in the shortest form that holds it. */
    method Header(opcode: bv8, length: nat) returns (header: Bytes)
      ensures header == [FirstByte(true, opcode), SecondByte(true, LengthBits(length))] + ExtendedLength(length)
    {
      hide BigEndian;
      header := [0x80 | opcode];
      if length < 126 {
        ByteIsKept(length);
        header := header + [0x80 | (length as bv8)];
      } else if length < 0x1_0000 {
        header := header + [0x80 | 126] + BigEndian(length, 2);
      } else {
        header := header + [0x80 | 127] + BigEndian(length, 8);
      }
    }

    method Urandom4() returns (bytes: Bytes)
      ensures |bytes| == 4
    {
      var a, b, c, d: bv8 := *, *, *, *;
      bytes := [a, b, c, d];
    }

    method RecvText() returns (text: Result<Bytes>)
      modifies this
      ensures text == Text(old(Stream()), []).result
      ensures Stream() == Text(old(Stream()), []).rest || (text == Err(ConnectionClosed) && incoming == [])
      ensures PongsSent(old(sent), sent, Text(old(Stream()), []).pings)
    {
      hide Parse, IsSent;
      var chunks: seq<Bytes> := [];
      ghost var whole, answered := Text(Stream(), []), [];
      while true
        invariant whole.result == Text(Stream(), Flat(chunks)).result
        invariant whole.pings == answered + Text(Stream(), Flat(chunks)).pings
        invariant whole.rest == Text(Stream(), Flat(chunks)).rest
        invariant PongsSent(old(sent), sent, answered)
        decreases |Stream()|
      {
        ghost var stream := Stream();
        FrameTakesBytes(stream);
        var read := ReadFrame();
        if read.Err? {
          return Err(read.error);
        }
        var frame := read.value;
        if frame.opcode == CLOSE {
          return Err(ConnectionClosed);
        }
        if frame.opcode == PING {
          FrameIsSmall(stream);
          ghost var before := sent;
          SendFrame(PONG, frame.payload);
          OneMorePong(old(sent), before, sent, answered, frame.payload);
          Associative(answered, [frame.payload], Text(Stream(), Flat(chunks)).pings);
          answered := answered + [frame.payload];
          continue;
        }
        if frame.opcode == PONG {
          continue;
        }
        if frame.opcode == CONTINUATION || frame.opcode == TEXT || frame.opcode == BINARY {
          FlatOneMore(chunks, frame.payload);
          chunks := chunks + [frame.payload];
          if frame.fin {
            return Ok(Flat(chunks));
          }
          continue;
        }
        return Err(UnexpectedOpcode(frame.opcode));
      }
    }
  }

  /**
   * The bytes of one sendall are one final frame and nothing else: masked as a
   * client's must be, its length in the shortest form there is.
   */
  ghost predicate IsSent(bytes: Bytes, opcode: bv8, payload: Bytes) {
    && Parse(bytes) == Complete(Frame(true, opcode & 0x0F, payload), [])
    && bytes[0] == 0x80 | opcode && bytes[1] & 0x80 != 0
    && |bytes| == |payload| + 6 + if |payload| <= 125 then 0 else if |payload| <= 65535 then 2 else 8
  }

  lemma HeaderAndMask(frame: Frame, mask: Bytes)
    requires |mask| == 4
    ensures [FirstByte(frame.fin, frame.opcode), SecondByte(true, LengthBits(|frame.payload|))]
            + ExtendedLength(|frame.payload|) + mask + Masked(frame.payload, mask)
         == Encoded(frame, Some(mask))
  {
    Associative([FirstByte(frame.fin, frame.opcode), SecondByte(true, LengthBits(|frame.payload|))]
                + ExtendedLength(|frame.payload|), mask, Masked(frame.payload, mask));
  }

  lemma SentIsRead(opcode: bv8, payload: Bytes, mask: Bytes)
    requires |payload| < 0x1_0000_0000_0000_0000 && |mask| == 4
    ensures IsSent(Encoded(Frame(true, opcode, payload), Some(mask)), opcode, payload)
  {
    hide Parse, SecondByte, LengthBits;
    var frame := Frame(true, opcode, payload);
    WrittenIsRead(frame, Some(mask), []);
    EmptyIsNeutral(Encoded(frame, Some(mask)));
    SecondByteIsRead(true, LengthBits(|payload|));
  }

  ghost predicate PongsSent(before: seq<Bytes>, after: seq<Bytes>, pings: seq<Bytes>) {
    && |after| == |before| + |pings|
    && after[..|before|] == before
    && forall i :: 0 <= i < |pings| ==> IsSent(after[|before| + i], 0xA, pings[i])
  }

  lemma OneMorePong(before: seq<Bytes>, middle: seq<Bytes>, after: seq<Bytes>, pings: seq<Bytes>, ping: Bytes)
    requires PongsSent(before, middle, pings)
    requires |after| == |middle| + 1 && after[..|middle|] == middle
    requires IsSent(after[|middle|], 0xA, ping)
    ensures PongsSent(before, after, pings + [ping])
  {
    hide IsSent;
    assert after[..|before|] == after[..|middle|][..|before|];
    forall i {:trigger pings[i]} | 0 <= i < |pings|
      ensures after[|before| + i] == middle[|before| + i]
    {
      assert after[|before| + i] == after[..|middle|][|before| + i];
    }
  }

  function Flat(chunks: seq<Bytes>): Bytes {
    if chunks == [] then [] else Flat(chunks[..|chunks| - 1]) + chunks[|chunks| - 1]
  }

  lemma FlatOneMore(chunks: seq<Bytes>, chunk: Bytes)
    ensures Flat(chunks + [chunk]) == Flat(chunks) + chunk
  {
    assert (chunks + [chunk])[..|chunks|] == chunks;
  }

  lemma {:induction false} NumberFits(bytes: Bytes)
    ensures Number(bytes) < Power256(|bytes|)
  {
    if bytes != [] {
      NumberFits(bytes[..|bytes| - 1]);
    }
  }

  /** A frame read can be sent back. */
  lemma FrameIsSmall(s: Bytes)
    requires Parse(s).Complete?
    ensures Parse(s).frame.opcode < 16 && |Parse(s).frame.payload| < 0x1_0000_0000_0000_0000
  {
    var width := LengthWidth(s[1] & 0x7F);
    EightBytes();
    assert Power256(2) == 0x1_0000;
    NumberFits(s[2..][..width]);
  }

  // --- Messages ---------------------------------------------------------------------------

  datatype Packet = Packet(frame: Frame, mask: Option<Bytes>)

  predicate IsSendable(packet: Packet) {
    && packet.frame.opcode < 16 && |packet.frame.payload| < 0x1_0000_0000_0000_0000
    && (packet.mask.Some? ==> |packet.mask.value| == 4)
  }

  /** The bytes of packets sent one after the other, each with a mask or without. */
  function Wire(packets: seq<Packet>): Bytes
    requires forall p :: p in packets ==> IsSendable(p)
  {
    if packets == [] then []
    else
      assert IsSendable(packets[0]);
      Encoded(packets[0].frame, packets[0].mask) + Wire(packets[1..])
  }

  /** A frame that does not end a message: a ping, a pong, or a fragment with more to come. */
  predicate GoesOn(frame: Frame) {
    frame.opcode == PING || frame.opcode == PONG || (IsData(frame.opcode) && !frame.fin)
  }

  function Fragments(packets: seq<Packet>): Bytes {
    if packets == [] then []
    else (if IsData(packets[0].frame.opcode) then packets[0].frame.payload else []) + Fragments(packets[1..])
  }

  function Pings(packets: seq<Packet>): seq<Bytes> {
    if packets == [] then []
    else (if packets[0].frame.opcode == PING then [packets[0].frame.payload] else []) + Pings(packets[1..])
  }

  lemma {:induction false} FramesGoOn(packets: seq<Packet>, chunks: Bytes, s: Bytes)
    requires forall p :: p in packets ==> IsSendable(p) && GoesOn(p.frame)
    ensures var later := Text(s, chunks + Fragments(packets));
      Text(Wire(packets) + s, chunks) == Received(later.result, Pings(packets) + later.pings, later.rest)
    decreases |packets|
  {
    if packets == [] {
      EmptyIsNeutral(s);
      EmptyIsNeutral(chunks);
      EmptyIsNeutral(Text(s, chunks).pings);
    } else {
      OneFrameGoesOn(packets, chunks, s);
      var chunk := if IsData(packets[0].frame.opcode) then packets[0].frame.payload else [];
      FramesGoOn(packets[1..], chunks + chunk, s);
      Associative(chunks, chunk, Fragments(packets[1..]));
      var ping := if packets[0].frame.opcode == PING then [packets[0].frame.payload] else [];
      Associative(ping, Pings(packets[1..]), Text(s, chunks + Fragments(packets)).pings);
    }
  }

  lemma OneFrameGoesOn(packets: seq<Packet>, chunks: Bytes, s: Bytes)
    requires packets != [] && forall p :: p in packets ==> IsSendable(p) && GoesOn(p.frame)
    ensures var chunk := if IsData(packets[0].frame.opcode) then packets[0].frame.payload else [];
      var ping := if packets[0].frame.opcode == PING then [packets[0].frame.payload] else [];
      var later := Text(Wire(packets[1..]) + s, chunks + chunk);
      Text(Wire(packets) + s, chunks) == Received(later.result, ping + later.pings, later.rest)
  {
    hide Parse, Encoded;
    var frame, mask := packets[0].frame, packets[0].mask;
    FramesRoundTrip(frame, mask, Wire(packets[1..]) + s);
    Associative(Encoded(frame, mask), Wire(packets[1..]), s);
    EmptyIsNeutral(chunks);
  }

  /** What the frame that ends the wait makes of the fragments before it. */
  function Outcome(last: Frame, fragments: Bytes): Result<Bytes> {
    if last.opcode == CLOSE then Err(ConnectionClosed)
    else if IsData(last.opcode) then Ok(fragments + last.payload)
    else Err(UnexpectedOpcode(last.opcode))
  }

  /**
   * However a message is cut into fragments and whatever pings and pongs lie
   * between them, `recv_text` returns the fragments in order, answers the
   * pings in order, and leaves the stream behind the last frame. A close and
   * a reserved opcode end the wait with their error instead.
   */
  lemma MessageIsReassembled(packets: seq<Packet>, last: Packet, rest: Bytes)
    requires forall p :: p in packets ==> IsSendable(p) && GoesOn(p.frame)
    requires IsSendable(last) && !GoesOn(last.frame)
    ensures Text(Wire(packets) + (Encoded(last.frame, last.mask) + rest), [])
         == Received(Outcome(last.frame, Fragments(packets)), Pings(packets), rest)
  {
    FramesGoOn(packets, [], Encoded(last.frame, last.mask) + rest);
    EmptyIsNeutral(Fragments(packets));
    EmptyIsNeutral(Pings(packets));
    FramesRoundTrip(last.frame, last.mask, rest);
  }

  // --- The bytes themselves (section 5.2 of RFC 6455) ------------------------------------

  function FourBytes(a: Bytes): nat
    requires |a| == 4
  {
    0x100_0000 * a[0] as int + 0x1_0000 * a[1] as int + 0x100 * a[2] as int + a[3] as int
  }

  /** The three ways to say how long `n` bytes are, in the second byte and behind it. */
  predicate SaysLength(seven: bv8, extended: Bytes, n: nat) {
    match |extended|
    case 0 => seven as int == n && n < 126
    case 2 => seven == 126 && n == 0x100 * extended[0] as int + extended[1] as int
    case 8 => seven == 127 && n == 0x1_0000_0000 * FourBytes(extended[..4]) + FourBytes(extended[4..])
    case _ => false
  }

  lemma TwoMoreBytes(a: Bytes)
    requires |a| >= 2
    ensures Number(a) == 0x1_0000 * Number(a[..|a| - 2]) + 0x100 * a[|a| - 2] as int + a[|a| - 1] as int
  {
    var b := a[..|a| - 1];
    assert b[..|b| - 1] == a[..|a| - 2];
    assert Number(b) == 0x100 * Number(b[..|b| - 1]) + b[|b| - 1] as int;
  }

  lemma FourMoreBytes(a: Bytes)
    requires |a| >= 4
    ensures Number(a) == 0x1_0000_0000 * Number(a[..|a| - 4]) + FourBytes(a[|a| - 4..])
  {
    hide Number;
    var b := a[..|a| - 2];
    TwoMoreBytes(a);
    TwoMoreBytes(b);
    assert b[..|b| - 2] == a[..|a| - 4];
  }

  lemma EightBytesNumber(a: Bytes)
    requires |a| == 8
    ensures Number(a) == 0x1_0000_0000 * FourBytes(a[..4]) + FourBytes(a[4..])
  {
    assert Number(a[..4][..0]) == 0;
    hide Number, FourBytes;
    FourMoreBytes(a);
    FourMoreBytes(a[..4]);
    assert a[..4][0..] == a[..4];
  }

  /** A length is read as it is said, in any of the three forms. */
  lemma LengthAsSaid(seven: bv8, extended: Bytes, n: nat)
    requires seven < 0x80 && SaysLength(seven, extended, n)
    ensures LengthWidth(seven) == |extended|
    ensures n == if |extended| == 0 then seven as int else Number(extended)
  {
    if |extended| == 2 {
      TwoMoreBytes(extended);
      assert Number(extended[..0]) == 0;
    }
    if |extended| == 8 { EightBytesNumber(extended); }
  }

  /** An unmasked frame as a server puts it on the wire. */
  lemma FrameOnTheWire(first: bv8, seven: bv8, extended: Bytes, payload: Bytes, rest: Bytes)
    requires seven < 0x80 && SaysLength(seven, extended, |payload|)
    ensures Parse(([first, seven] + extended + payload) + rest)
         == Complete(Frame(first >= 0x80, first & 0x0F, payload), rest)
  {
    hide Parse, Number, SaysLength;
    LengthAsSaid(seven, extended, |payload|);
    LowSevenOfSmall(seven);
    TopBitIsHalf(first);
    TwoBytesOff(first, seven, extended, payload, rest);
    Apart(extended, payload + rest);
    Apart(payload, rest);
  }

  /** And a masked one: the payload is what the four bytes turn the following ones into. */
  lemma MaskedFrameOnTheWire(first: bv8, seven: bv8, extended: Bytes, mask: Bytes, masked: Bytes, rest: Bytes)
    requires seven < 0x80 && SaysLength(seven, extended, |masked|) && |mask| == 4
    ensures var payload := seq(|masked|, i requires 0 <= i < |masked| => masked[i] ^ mask[i % 4]);
      Parse(([first, 0x80 | seven] + extended + (mask + masked)) + rest)
         == Complete(Frame(first >= 0x80, first & 0x0F, payload), rest)
  {
    hide Parse, Number, SaysLength;
    LengthAsSaid(seven, extended, |masked|);
    LowSevenOfSmall(seven);
    TopBitIsHalf(first);
    TwoBytesOff(first, 0x80 | seven, extended, mask + masked, rest);
    Associative(mask, masked, rest);
    Apart(extended, mask + (masked + rest));
    Apart(mask, masked + rest);
    Apart(masked, rest);
    assert Masked(masked, mask) == seq(|masked|, i requires 0 <= i < |masked| => masked[i] ^ mask[i % 4]);
  }

  /**
   * What `recv_text` makes of one frame, by the four bits it goes by: data
   * ends the message or goes on with it, a close ends the connection, a ping
   * is answered and a pong passed over, and any other frame is refused.
   */
  lemma FrameIsActedOn(s: Bytes, first: bv8, payload: Bytes, rest: Bytes, chunks: Bytes)
    requires Parse(s) == Complete(Frame(first >= 0x80, first & 0x0F, payload), rest)
    ensures var kind, text := first & 0x0F, Text(s, chunks);
      && (kind in {0x0, 0x1, 0x2} && first >= 0x80 ==> text == Received(Ok(chunks + payload), [], rest))
      && (kind in {0x0, 0x1, 0x2} && first < 0x80 ==> text == Text(rest, chunks + payload))
      && (kind == 0x8 ==> text == Received(Err(ConnectionClosed), [], rest))
      && (kind == 0x9 ==> var later := Text(rest, chunks);
            text == Received(later.result, [payload] + later.pings, later.rest))
      && (kind == 0xA ==> text == Text(rest, chunks))
      && (kind !in {0x0, 0x1, 0x2, 0x8, 0x9, 0xA} ==> text == Received(Err(UnexpectedOpcode(kind)), [], rest))
  {
    hide Parse;
  }

  /**
   * The frames a server sends, byte by byte: with a payload under 126 bytes
   * and whatever comes behind it, a text, the last and a middle fragment, a
   * close, a ping and a pong.
   */
  lemma ServerFrames(p: Bytes, rest: Bytes, chunks: Bytes)
    requires |p| < 126
    ensures Text(([0x81, |p| as bv8] + p) + rest, []) == Received(Ok(p), [], rest)
    ensures Text(([0x82, |p| as bv8] + p) + rest, []) == Received(Ok(p), [], rest)
    ensures Text(([0x80, |p| as bv8] + p) + rest, chunks) == Received(Ok(chunks + p), [], rest)
    ensures Text(([0x01, |p| as bv8] + p) + rest, []) == Text(rest, p)
    ensures Text(([0x00, |p| as bv8] + p) + rest, chunks) == Text(rest, chunks + p)
    ensures Text(([0x88, |p| as bv8] + p) + rest, chunks) == Received(Err(ConnectionClosed), [], rest)
    ensures Text(([0x8A, |p| as bv8] + p) + rest, chunks) == Text(rest, chunks)
    ensures var later := Text(rest, chunks);
      Text(([0x89, |p| as bv8] + p) + rest, chunks) == Received(later.result, [p] + later.pings, later.rest)
  {
    hide Text, Parse;
    ShortFrame(0x81, p, rest, []);
    ShortFrame(0x82, p, rest, []);
    ShortFrame(0x80, p, rest, chunks);
    ShortFrame(0x01, p, rest, []);
    ShortFrame(0x00, p, rest, chunks);
    ShortFrame(0x88, p, rest, chunks);
    ShortFrame(0x8A, p, rest, chunks);
    ShortFrame(0x89, p, rest, chunks);
    EmptyIsNeutral(p);
  }

  lemma ShortFrame(first: bv8, p: Bytes, rest: Bytes, chunks: Bytes)
    requires |p| < 126
    ensures var s := ([first, |p| as bv8] + p) + rest; var kind, text := first & 0x0F, Text(s, chunks);
      && Parse(s) == Complete(Frame(first >= 0x80, kind, p), rest)
      && (kind in {0x0, 0x1, 0x2} && first >= 0x80 ==> text == Received(Ok(chunks + p), [], rest))
      && (kind in {0x0, 0x1, 0x2} && first < 0x80 ==> text == Text(rest, chunks + p))
      && (kind == 0x8 ==> text == Received(Err(ConnectionClosed), [], rest))
      && (kind == 0x9 ==> var later := Text(rest, chunks);
            text == Received(later.result, [p] + later.pings, later.rest))
      && (kind == 0xA ==> text == Text(rest, chunks))
  {
    hide Text, Parse;
    ByteIsKept(|p|);
    FrameOnTheWire(first, |p| as bv8, [], p, rest);
    EmptyIsNeutral([first, |p| as bv8]);
    FrameIsActedOn(([first, |p| as bv8] + p) + rest, first, p, rest, chunks);
  }

  /** Longer texts: 300 bytes are said as 7E 01 2C, 65536 as 7F and eight bytes. */
  lemma LongTexts(p: Bytes, rest: Bytes)
    ensures |p| == 300 ==> Text(([0x81, 0x7E] + [0x01, 0x2C] + p) + rest, []) == Received(Ok(p), [], rest)
    ensures |p| == 65536 ==>
              Text(([0x81, 0x7F] + [0, 0, 0, 0, 0, 1, 0, 0] + p) + rest, []) == Received(Ok(p), [], rest)
  {
    hide Text, Parse;
    EmptyIsNeutral(p);
    if |p| == 300 {
      FrameOnTheWire(0x81, 0x7E, [0x01, 0x2C], p, rest);
      FrameIsActedOn(([0x81, 0x7E] + [0x01, 0x2C] + p) + rest, 0x81, p, rest, []);
    }
    if |p| == 65536 {
      FrameOnTheWire(0x81, 0x7F, [0, 0, 0, 0, 0, 1, 0, 0], p, rest);
      FrameIsActedOn(([0x81, 0x7F] + [0, 0, 0, 0, 0, 1, 0, 0] + p) + rest, 0x81, p, rest, []);
    }
  }

  /** "Hello", masked, as in section 5.7 of RFC 6455. */
  lemma MaskedHello(rest: Bytes)
    ensures Text(([0x81, 0x85] + [] + ([0x37, 0xFA, 0x21, 0x3D] + [0x7F, 0x9F, 0x4D, 0x51, 0x58])) + rest, [])
         == Received(Ok([0x48, 0x65, 0x6C, 0x6C, 0x6F]), [], rest)
  {
    hide Text, Parse;
    var mask, masked: Bytes := [0x37, 0xFA, 0x21, 0x3D], [0x7F, 0x9F, 0x4D, 0x51, 0x58];
    var hello: Bytes := [0x48, 0x65, 0x6C, 0x6C, 0x6F];
    var s := ([0x81, 0x85] + [] + (mask + masked)) + rest;
    MaskedFrameOnTheWire(0x81, 5, [], mask, masked, rest);
    assert seq(|masked|, i requires 0 <= i < |masked| => masked[i] ^ mask[i % 4]) == hello;
    FrameIsActedOn(s, 0x81, hello, rest, []);
    EmptyIsNeutral(hello);
  }
}
