/** Byte-level formats of the tunnel connections: IPCP frames, the AABB reply and the
    camouflage records (protocol.go, l3_channel.go, camouflage.go), as parsers of a byte stream
    and the printers they invert. */
module Wire {

  type Byte = b: nat | b < 256
  type Bytes = seq<Byte>

  // --------------------------------------------------------------- integers

  function PutLittleEndian32(v: nat): (s: Bytes)
    requires v < 0x1_0000_0000
    ensures |s| == 4
  {
    [v % 0x100, v / 0x100 % 0x100, v / 0x1_0000 % 0x100, v / 0x100_0000]
  }

  function LittleEndian32(s: Bytes): (v: nat)
    requires |s| == 4
    ensures v < 0x1_0000_0000
  {
    var b0: nat, b1: nat, b2: nat, b3: nat := s[0], s[1], s[2], s[3];
    b0 + 0x100 * b1 + 0x1_0000 * b2 + 0x100_0000 * b3
  }

  function PutBigEndian16(v: nat): (s: Bytes)
    requires v < 0x1_0000
    ensures |s| == 2
  {
    [v / 0x100, v % 0x100]
  }

  function BigEndian16(s: Bytes): (v: nat)
    requires |s| == 2
    ensures v < 0x1_0000
  {
    var high: nat, low: nat := s[0], s[1];
    0x100 * high + low
  }

  lemma LittleEndianRoundTrip(v: nat)
    requires v < 0x1_0000_0000
    ensures LittleEndian32(PutLittleEndian32(v)) == v
  {
    assert v == v / 0x100 * 0x100 + v % 0x100;
    assert v / 0x100 == v / 0x1_0000 * 0x100 + v / 0x100 % 0x100;
    assert v / 0x1_0000 == v / 0x100_0000 * 0x100 + v / 0x1_0000 % 0x100;
  }

  // ------------------------------------------------------------- obfuscation

  /** Exclusive or of the low `bits` bits. */
  function Xor(a: nat, b: nat, bits: nat): (r: nat) {
    if bits == 0 then 0 else (if a % 2 == b % 2 then 0 else 1) + 2 * Xor(a / 2, b / 2, bits - 1)
  }

  lemma {:induction false} XorFits(a: nat, b: nat)
    ensures Xor(a, b, 8) < 256
  {
    XorBound(a, b, 8, 256);
  }

  lemma {:induction false} XorBound(a: nat, b: nat, bits: nat, bound: nat)
    requires bits == 0 ==> bound == 1
    requires 0 < bits <= 8 ==> bound == [1, 2, 4, 8, 16, 32, 64, 128, 256][bits]
    requires bits <= 8
    ensures Xor(a, b, bits) < bound
    decreases bits
  {
    if bits != 0 {
      XorBound(a / 2, b / 2, bits - 1, bound / 2);
    }
  }

  lemma {:induction false} XorTwice(a: nat, b: nat, bits: nat, bound: nat)
    requires bits <= 8 && bound == [1, 2, 4, 8, 16, 32, 64, 128, 256][bits] && a < bound
    ensures Xor(Xor(a, b, bits), b, bits) == a
    decreases bits
  {
    if bits != 0 {
      XorTwice(a / 2, b / 2, bits - 1, bound / 2);
    }
  }

  function XorByte(a: Byte, key: Byte): Byte {
    XorFits(a, key);
    Xor(a, key, 8)
  }

  /** Bit i of a byte. */
  predicate Bit(v: Byte, i: nat)
    requires i < 8
  {
    v / [1, 2, 4, 8, 16, 32, 64, 128][i] % 2 == 1
  }

  lemma {:induction false} XorBit(a: nat, b: nat, bits: nat, i: nat, weight: nat)
    requires i < bits <= 8 && weight == [1, 2, 4, 8, 16, 32, 64, 128][i]
    ensures Xor(a, b, bits) / weight % 2 == 1 <==> (a / weight % 2 == 1) != (b / weight % 2 == 1)
    decreases bits
  {
    if i != 0 {
      var half := weight / 2;
      assert Xor(a, b, bits) / 2 == Xor(a / 2, b / 2, bits - 1);
      XorBit(a / 2, b / 2, bits - 1, i - 1, half);
      HalfFirst(a, half);
      HalfFirst(b, half);
      HalfFirst(Xor(a, b, bits), half);
    }
  }

  lemma HalfFirst(v: nat, half: nat)
    requires half in {1, 2, 4, 8, 16, 32, 64}
    ensures v / (2 * half) == v / 2 / half
  {}

  /** What combining two bytes means: a bit is set exactly where they differ. */
  lemma XorByteBits(a: Byte, key: Byte, i: nat)
    requires i < 8
    ensures Bit(XorByte(a, key), i) <==> Bit(a, i) != Bit(key, i)
  {
    XorFits(a, key);
    XorBit(a, key, 8, i, [1, 2, 4, 8, 16, 32, 64, 128][i]);
  }

  /** What the gateway does to a byte: it flips the bit of weight 64. */
  function Flip64(a: Byte): Byte {
    if a / 64 % 2 == 0 then a + 64 else a - 64
  }

  lemma {:induction false} XorZero(a: nat, bits: nat, bound: nat)
    requires bits <= 8 && bound == [1, 2, 4, 8, 16, 32, 64, 128, 256][bits] && a < bound
    ensures Xor(a, 0, bits) == a
    decreases bits
  {
    if bits != 0 {
      XorZero(a / 2, bits - 1, bound / 2);
    }
  }

  lemma {:induction false} XorPower(a: nat, bits: nat, bound: nat, i: nat, weight: nat)
    requires i < bits <= 8 && weight == [1, 2, 4, 8, 16, 32, 64, 128][i]
    requires bound == [1, 2, 4, 8, 16, 32, 64, 128, 256][bits] && a < bound
    ensures Xor(a, weight, bits) == if a / weight % 2 == 0 then a + weight else a - weight
    decreases bits
  {
    if i == 0 {
      XorZero(a / 2, bits - 1, bound / 2);
    } else {
      XorPower(a / 2, bits - 1, bound / 2, i - 1, weight / 2);
      HalfFirst(a, weight / 2);
    }
  }

  /** The obfuscation key flips the bit of weight 64 and nothing else. */
  lemma ObfuscationFlips(a: Byte)
    ensures XorByte(a, OBFUSCATION_KEY) == Flip64(a)
  {
    XorPower(a, 8, 256, 6, 64);
  }

  function XorAll(s: Bytes, key: Byte): Bytes {
    seq(|s|, i requires 0 <= i < |s| => XorByte(s[i], key))
  }

  const OBFUSCATION_KEY: Byte := 0x40

  datatype Encoding = Encoding(obfuscated: bool) {
    /** What `apply` leaves in the payload (payload_encoding.go:42-47). */
    function Applied(payload: Bytes): Bytes {
      if obfuscated then XorAll(payload, OBFUSCATION_KEY) else payload
    }
  }

  /** Applying the encoding twice gives the payload back, whatever the key would be. */
  lemma XorAllTwice(s: Bytes, key: Byte)
    ensures XorAll(XorAll(s, key), key) == s
  {
    forall i | 0 <= i < |s| ensures XorAll(XorAll(s, key), key)[i] == s[i] {
      XorTwice(s[i], key, 8, 256);
    }
  }

  lemma AppliedTwice(e: Encoding, payload: Bytes)
    ensures e.Applied(e.Applied(payload)) == payload && |e.Applied(payload)| == |payload|
  {
    if e.obfuscated {
      XorAllTwice(payload, OBFUSCATION_KEY);
    }
  }

  datatype Parsed<T> = Accepted(value: T) | Unsupported

  /** `parsePayloadEncoding` (payload_encoding.go:28-40): only uncompressed payloads, in the
      clear or under the single-byte key. */
  function ParsePayloadEncoding(encryption: nat, compression: nat): (r: Parsed<Encoding>)
    ensures r.Accepted? <==> compression == 3 && encryption <= 1
    ensures r.Accepted? ==> (r.value.obfuscated <==> encryption == 1)
  {
    if compression != 3 then Unsupported
    else if encryption == 0 then Accepted(Encoding(false))
    else if encryption == 1 then Accepted(Encoding(true))
    else Unsupported
  }

  // ----------------------------------------------------------------- parsers

  /** A value read from the front of a stream, and the bytes behind it. */
  datatype Read<T> = Got(value: T, rest: Bytes) | Failed

  /** `io.ReadFull`. */
  function Full(s: Bytes, n: nat): Read<Bytes> {
    if n <= |s| then Got(s[..n], s[n..]) else Failed
  }

  lemma FullOfConcat(a: Bytes, b: Bytes)
    ensures Full(a + b, |a|) == Got(a, b)
  {}

  const IPCP: Bytes := [73, 80, 67, 80]
  const AABB: Bytes := [65, 65, 66, 66]
  const IPCP_HEADER_LENGTH := 12
  const MAXIMUM_PAYLOAD := 65535

  /** `encodeIPCPHeader` (protocol.go:198-202); the length field is a uint32. */
  function Header(payloadLength: nat): (h: Bytes)
    ensures |h| == 12
  {
    IPCP + PutLittleEndian32((12 + payloadLength) % 0x1_0000_0000) + [0, 0, 0, 0]
  }

  /** `readIPCPHeader` (protocol.go:204-222). */
  function ReadHeader(s: Bytes): Read<nat> {
    match Full(s, 12)
    case Failed => Failed
    case Got(header, rest) =>
      if header[..4] != IPCP then Failed else
      var frameLength := LittleEndian32(header[4..8]);
      if frameLength < 12 || MAXIMUM_PAYLOAD < frameLength - 12 then Failed
      else Got(frameLength - 12, rest)
  }

  /** `readDataPacket` (l3_channel.go:73-86). */
  function ReadDataPacket(s: Bytes, e: Encoding): Read<Bytes> {
    match ReadHeader(s)
    case Failed => Failed
    case Got(length, rest) =>
      match Full(rest, length)
      case Failed => Failed
      case Got(payload, rest') => Got(e.Applied(payload), rest')
  }

  /** The bytes `frameDataPacket` leaves in its buffer (l3_channel.go:88-94). */
  function Frame(payload: Bytes, e: Encoding): Bytes {
    Header(|payload|) + e.Applied(payload)
  }

  lemma HeaderFields(payloadLength: nat, tail: Bytes)
    ensures var s := Header(payloadLength) + tail;
            && Full(s, 12) == Got(Header(payloadLength), tail)
            && Header(payloadLength)[..4] == IPCP
            && LittleEndian32(Header(payloadLength)[4..8]) == (12 + payloadLength) % 0x1_0000_0000
  {
    FullOfConcat(Header(payloadLength), tail);
    var v := (12 + payloadLength) % 0x1_0000_0000;
    assert Header(payloadLength)[4..8] == PutLittleEndian32(v);
    LittleEndianRoundTrip(v);
  }

  /** What a header says decides what is read behind it. */
  lemma ReadBehind(h: Bytes, tail: Bytes, e: Encoding, n: nat)
    requires |h| == 12 && h[..4] == IPCP && LittleEndian32(h[4..8]) == n
    ensures ReadDataPacket(h + tail, e) ==
            if n < 12 || MAXIMUM_PAYLOAD < n - 12 || |tail| < n - 12 then Failed
            else Got(e.Applied(tail[..n - 12]), tail[n - 12..])
  {
    FullOfConcat(h, tail);
  }

  lemma ReadsBack(h: Bytes, payload: Bytes, e: Encoding, tail: Bytes, n: nat)
    requires |h| == 12 && h[..4] == IPCP && LittleEndian32(h[4..8]) == n
    requires n == (12 + |payload|) % 0x1_0000_0000
    ensures ReadDataPacket(h + (e.Applied(payload) + tail), e) == Got(payload, tail) <==> |payload| <= MAXIMUM_PAYLOAD
  {
    var body := e.Applied(payload);
    AppliedTwice(e, payload);
    ReadBehind(h, body + tail, e, n);
    if |payload| <= MAXIMUM_PAYLOAD {
      FullOfConcat(body, tail);
    } else if 12 <= n <= 12 + MAXIMUM_PAYLOAD {
      AppliedTwice(e, (body + tail)[..n - 12]);
    }
  }

  /** The bytes of a frame, one by one: `IPCP`, the total length with its low byte first, four
      zero bytes, and the payload, obfuscated or not. */
  lemma FrameLayout(payload: Bytes, e: Encoding)
    requires |payload| <= 65535
    ensures var n := 12 + |payload|;
            Frame(payload, e) ==
            [73, 80, 67, 80, n % 256, n / 256 % 256, n / 65536, 0, 0, 0, 0, 0] +
            GatewayBody(if e.obfuscated then 1 else 0, payload)
  {
    if e.obfuscated && payload != [] {
      EncodingIsGateways(payload);
    }
  }

  /** Which streams yield a packet: those that start with `IPCP` and a length that fits and is all
      there. Everything else is an error, and a packet takes exactly its length. */
  lemma ReadDataPacketIff(s: Bytes, e: Encoding)
    ensures ReadDataPacket(s, e).Got? <==>
            && 12 <= |s| && s[0] == 73 && s[1] == 80 && s[2] == 67 && s[3] == 80
            && 12 <= LittleEndian32(s[4..8]) <= 65547 && LittleEndian32(s[4..8]) <= |s|
    ensures ReadDataPacket(s, e).Got? ==>
            var n := LittleEndian32(s[4..8]);
            && ReadDataPacket(s, e).rest == s[n..]
            && ReadDataPacket(s, e).value == GatewayBody(if e.obfuscated then 1 else 0, s[12..n])
  {
    if 12 <= |s| {
      var h := s[..12];
      assert h[..4] == s[..4] && h[4..8] == s[4..8] && s == h + s[12..];
      assert s[..4] == IPCP <==> s[0] == 73 && s[1] == 80 && s[2] == 67 && s[3] == 80;
      if h[..4] == IPCP {
        var n := LittleEndian32(h[4..8]);
        ReadBehind(h, s[12..], e, n);
        if 12 <= n <= 65547 && n <= |s| {
          assert s[12..][..n - 12] == s[12..n] && s[12..][n - 12..] == s[n..];
          if s[12..n] != [] {
            EncodingIsGateways(s[12..n]);
          }
        }
      }
    }
  }

  /** A frame is read back, with exactly its own bytes consumed, if and only if its payload fits
      an IPv4 datagram; longer ones are refused, or misread once the length field wraps. */
  lemma FrameRoundTrip(payload: Bytes, e: Encoding, tail: Bytes)
    ensures ReadDataPacket(Frame(payload, e) + tail, e) == Got(payload, tail) <==> |payload| <= MAXIMUM_PAYLOAD
  {
    var h := Header(|payload|);
    HeaderFields(|payload|, tail);
    ReadsBack(h, payload, e, tail, (12 + |payload|) % 0x1_0000_0000);
    assert Frame(payload, e) + tail == h + (e.Applied(payload) + tail);
  }

  /** What a gateway that announced this encryption puts behind a frame header. */
  function GatewayBody(encryption: nat, payload: Bytes): Bytes {
    if encryption == 1 then seq(|payload|, i requires 0 <= i < |payload| => Flip64(payload[i])) else payload
  }

  /** The gateway's side and the client's agree byte for byte, and obfuscation changes every
      payload. */
  lemma EncodingIsGateways(payload: Bytes)
    requires payload != []
    ensures Encoding(true).Applied(payload) == GatewayBody(1, payload) != payload
  {
    forall i | 0 <= i < |payload| ensures Encoding(true).Applied(payload)[i] == Flip64(payload[i]) {
      ObfuscationFlips(payload[i]);
    }
    assert GatewayBody(1, payload)[0] != payload[0];
  }

  /** The encoding accepted for an announcement is the one and only encoding that reads the
      gateway's packets back, and an announcement that is not understood is never accepted. */
  lemma NegotiatedEncoding(encryption: nat, compression: nat, payload: Bytes, tail: Bytes, e: Encoding)
    requires 0 < |payload| <= MAXIMUM_PAYLOAD
    ensures ParsePayloadEncoding(encryption, compression) == Accepted(e) <==>
            && compression == 3 && (encryption == 0 || encryption == 1)
            && ReadDataPacket(Header(|payload|) + (GatewayBody(encryption, payload) + tail), e) == Got(payload, tail)
  {
    var h, body := Header(|payload|), GatewayBody(encryption, payload);
    HeaderFields(|payload|, tail);
    ReadBehind(h, body + tail, e, 12 + |payload|);
    FullOfConcat(body, tail);
    assert ReadDataPacket(h + (body + tail), e) == Got(e.Applied(body), tail);
    AppliedTwice(Encoding(true), payload);
    EncodingIsGateways(payload);
    EncodingIsGateways(body);
  }

  function Flatten<T>(parts: seq<seq<T>>): seq<T> {
    if parts == [] then [] else parts[0] + Flatten(parts[1..])
  }

  lemma {:induction false} FlattenConcat<T>(ps: seq<seq<T>>, qs: seq<seq<T>>)
    ensures Flatten(ps + qs) == Flatten(ps) + Flatten(qs)
    decreases |ps|
  {
    if ps == [] {
      assert ps + qs == qs;
    } else {
      FlattenConcat(ps[1..], qs);
      assert (ps + qs)[1..] == ps[1..] + qs;
    }
  }

  function Frames(payloads: seq<Bytes>, e: Encoding): seq<Bytes> {
    seq(|payloads|, i requires 0 <= i < |payloads| => Frame(payloads[i], e))
  }

  function FrameAll(payloads: seq<Bytes>, e: Encoding): Bytes {
    Flatten(Frames(payloads, e))
  }

  /** Every packet of a stream that ends between frames. */
  function ReadAll(s: Bytes, e: Encoding): Read<seq<Bytes>>
    decreases |s|
  {
    if s == [] then Got([], []) else
    match ReadDataPacket(s, e)
    case Failed => Failed
    case Got(payload, rest) =>
      match ReadAll(rest, e)
      case Failed => Failed
      case Got(payloads, rest') => Got([payload] + payloads, rest')
  }

  ghost predicate AllFit(payloads: seq<Bytes>) {
    forall i :: 0 <= i < |payloads| ==> |payloads[i]| <= MAXIMUM_PAYLOAD
  }

  lemma FrameAllConcat(ps: seq<Bytes>, qs: seq<Bytes>, e: Encoding)
    ensures FrameAll(ps + qs, e) == FrameAll(ps, e) + FrameAll(qs, e)
  {
    FlattenConcat(Frames(ps, e), Frames(qs, e));
    assert Frames(ps + qs, e) == Frames(ps, e) + Frames(qs, e);
  }

  lemma FrameAllFirst(payloads: seq<Bytes>, e: Encoding)
    requires payloads != []
    ensures FrameAll(payloads, e) == Frame(payloads[0], e) + FrameAll(payloads[1..], e)
  {
    assert Frames(payloads, e)[1..] == Frames(payloads[1..], e);
  }

  lemma ReadAllNext(s: Bytes, payload: Bytes, rest: Bytes, payloads: seq<Bytes>, e: Encoding)
    requires ReadDataPacket(s, e) == Got(payload, rest) && ReadAll(rest, e) == Got(payloads, [])
    ensures ReadAll(s, e) == Got([payload] + payloads, [])
  {}

  lemma ReadFirstFrame(payloads: seq<Bytes>, e: Encoding)
    requires payloads != [] && |payloads[0]| <= MAXIMUM_PAYLOAD
    ensures ReadDataPacket(FrameAll(payloads, e), e) == Got(payloads[0], FrameAll(payloads[1..], e))
  {
    FrameAllFirst(payloads, e);
    FrameRoundTrip(payloads[0], e, FrameAll(payloads[1..], e));
  }

  /** Reading a concatenation of frames gives the framed payloads, in order. */
  lemma {:induction false} StreamRoundTrip(payloads: seq<Bytes>, e: Encoding)
    requires AllFit(payloads)
    ensures ReadAll(FrameAll(payloads, e), e) == Got(payloads, [])
    decreases |payloads|
  {
    if payloads != [] {
      StreamRoundTrip(payloads[1..], e);
      ReadFirstFrame(payloads, e);
      ReadAllNext(FrameAll(payloads, e), payloads[0], FrameAll(payloads[1..], e), payloads[1..], e);
      assert [payloads[0]] + payloads[1..] == payloads;
    }
  }

  // ------------------------------------------------------- the AABB reply

  datatype Reply = Reply(
    kind: nat, address: Bytes, encryption: nat, localAddress: Bytes, udpPort: nat, compression: nat)
  {
    predicate Fits() {
      && kind < 0x1_0000_0000 && encryption < 0x1_0000_0000 && udpPort < 0x1_0000_0000 && compression < 0x1_0000_0000
      && |address| == 4 && |localAddress| == 4
    }
  }

  /** A gateway's reply: 28 bytes of fields and 12 that are not read. */
  function PutReply(r: Reply, unread: Bytes): (s: Bytes)
    requires r.Fits() && |unread| == 12
    ensures |s| == 40
  {
    AABB + PutLittleEndian32(r.kind) + r.address + PutLittleEndian32(r.encryption) + r.localAddress +
    PutLittleEndian32(r.udpPort) + PutLittleEndian32(r.compression) + unread
  }

  /** `readAABB` (protocol.go:176-194). */
  function ReadReply(s: Bytes): Read<Reply> {
    match Full(s, 40)
    case Failed => Failed
    case Got(m, rest) =>
      if m[..4] != AABB then Failed
      else Got(Reply(LittleEndian32(m[4..8]), m[8..12], LittleEndian32(m[12..16]), m[16..20],
                     LittleEndian32(m[20..24]), LittleEndian32(m[24..28])), rest)
  }

  lemma ReplyRoundTrip(r: Reply, unread: Bytes, tail: Bytes)
    requires r.Fits() && |unread| == 12
    ensures ReadReply(PutReply(r, unread) + tail) == Got(r, tail)
  {
    var m := PutReply(r, unread);
    FullOfConcat(m, tail);
    LittleEndianRoundTrip(r.kind);
    LittleEndianRoundTrip(r.encryption);
    LittleEndianRoundTrip(r.udpPort);
    LittleEndianRoundTrip(r.compression);
    assert m[4..8] == PutLittleEndian32(r.kind) && m[8..12] == r.address;
    assert m[12..16] == PutLittleEndian32(r.encryption) && m[16..20] == r.localAddress;
    assert m[20..24] == PutLittleEndian32(r.udpPort) && m[24..28] == PutLittleEndian32(r.compression);
  }

  /** Which streams start with a reply, those of at least 40 bytes that start with `AABB`, and where
      its fields stand. */
  lemma ReadReplyIff(s: Bytes)
    ensures ReadReply(s).Got? <==> 40 <= |s| && s[0] == 65 && s[1] == 65 && s[2] == 66 && s[3] == 66
    ensures ReadReply(s).Got? ==>
            && ReadReply(s).rest == s[40..]
            && ReadReply(s).value == Reply(LittleEndian32(s[4..8]), s[8..12], LittleEndian32(s[12..16]), s[16..20],
                                           LittleEndian32(s[20..24]), LittleEndian32(s[24..28]))
  {
    if 40 <= |s| {
      var m := s[..40];
      assert m[4..8] == s[4..8] && m[8..12] == s[8..12] && m[12..16] == s[12..16] && m[16..20] == s[16..20];
      assert m[20..24] == s[20..24] && m[24..28] == s[24..28];
      assert s[..40][..4] == s[..4];
      assert s[..4] == AABB <==> s[0] == 65 && s[1] == 65 && s[2] == 66 && s[3] == 66;
    }
  }

  // -------------------------------------------------- camouflage records

  const CHANGE_CIPHER_SPEC: Byte := 0x14
  const HANDSHAKE: Byte := 0x16
  const SERVER_HELLO: Byte := 0x02
  /** 2^14, the record length limit of section 6.2.1 of RFC 2246. */
  const MAXIMUM_RECORD := 16384

  function PutRecord(kind: Byte, version: Bytes, payload: Bytes): Bytes
    requires |version| == 2 && |payload| < 0x1_0000
  {
    [kind] + version + PutBigEndian16(|payload|) + payload
  }

  /** `readTLSRecord` (camouflage.go:155-174). */
  function ReadRecord(s: Bytes, kind: Byte): Read<Bytes> {
    match Full(s, 5)
    case Failed => Failed
    case Got(header, rest) =>
      if header[0] != kind || MAXIMUM_RECORD < BigEndian16(header[3..5]) then Failed
      else Full(rest, BigEndian16(header[3..5]))
  }

  /** A record is read back exactly when its kind is the expected one and its length is legal. */
  lemma RecordRoundTrip(kind: Byte, version: Bytes, payload: Bytes, expected: Byte, tail: Bytes)
    requires |version| == 2 && |payload| < 0x1_0000
    ensures ReadRecord(PutRecord(kind, version, payload) + tail, expected) ==
            if kind == expected && |payload| <= MAXIMUM_RECORD then Got(payload, tail) else Failed
  {
    var header := [kind] + version + PutBigEndian16(|payload|);
    assert PutRecord(kind, version, payload) + tail == header + (payload + tail);
    FullOfConcat(header, payload + tail);
    assert header[3..5] == PutBigEndian16(|payload|);
    FullOfConcat(payload, tail);
  }

  /** Which streams start with a record: a byte of the expected kind, two of version, and a length
      with its high byte first that is at most 2^14 and all there. */
  lemma ReadRecordIff(s: Bytes, kind: Byte)
    ensures ReadRecord(s, kind).Got? <==>
            && 5 <= |s| && s[0] == kind
            && var high: nat, low: nat := s[3], s[4];
               256 * high + low <= 16384 && 5 + 256 * high + low <= |s|
    ensures ReadRecord(s, kind).Got? ==>
            var high: nat, low: nat := s[3], s[4];
            var n := 5 + 256 * high + low;
            ReadRecord(s, kind) == Got(s[5..n], s[n..])
  {
    if 5 <= |s| {
      assert s[..5][3..5] == [s[3], s[4]];
      var n := BigEndian16(s[..5][3..5]);
      if n <= |s| - 5 {
        assert s[5..][..n] == s[5..5 + n] && s[5..][n..] == s[5 + n..];
      }
    }
  }

  /** `readCamouflageServerAck` (camouflage.go:135-153). */
  function ReadServerAck(s: Bytes): Read<()> {
    match ReadRecord(s, HANDSHAKE)
    case Failed => Failed
    case Got(hello, rest) =>
      if hello == [] || hello[0] != SERVER_HELLO then Failed else
      match ReadRecord(rest, CHANGE_CIPHER_SPEC)
      case Failed => Failed
      case Got(_, rest') =>
        match ReadRecord(rest', HANDSHAKE)
        case Failed => Failed
        case Got(_, rest'') => Got((), rest'')
  }

  /** Which streams start with an acknowledgement: three records of kinds 22, 20 and 22, the first
      of which starts with 2. */
  lemma ReadServerAckIff(s: Bytes)
    ensures ReadServerAck(s).Got? <==>
            var first := ReadRecord(s, 22);
            && first.Got? && first.value != [] && first.value[0] == 2
            && var second := ReadRecord(first.rest, 20);
               second.Got? && ReadRecord(second.rest, 22).Got?
  {}

  ghost predicate LegalRecord(version: Bytes, payload: Bytes) {
    |version| == 2 && |payload| <= MAXIMUM_RECORD
  }

  /** Three legal records are consumed exactly, and accepted if and only if the first is a
      server hello. */
  lemma ServerAckRoundTrip(v: Bytes, hello: Bytes, v': Bytes, spec: Bytes, v'': Bytes, ack: Bytes, tail: Bytes)
    requires LegalRecord(v, hello) && LegalRecord(v', spec) && LegalRecord(v'', ack)
    ensures ReadServerAck(PutRecord(HANDSHAKE, v, hello) + (PutRecord(CHANGE_CIPHER_SPEC, v', spec) +
                          (PutRecord(HANDSHAKE, v'', ack) + tail))) ==
            if hello != [] && hello[0] == SERVER_HELLO then Got((), tail) else Failed
  {
    var third := PutRecord(HANDSHAKE, v'', ack) + tail;
    var second := PutRecord(CHANGE_CIPHER_SPEC, v', spec) + third;
    RecordRoundTrip(HANDSHAKE, v, hello, HANDSHAKE, second);
    RecordRoundTrip(CHANGE_CIPHER_SPEC, v', spec, CHANGE_CIPHER_SPEC, third);
    RecordRoundTrip(HANDSHAKE, v'', ack, HANDSHAKE, tail);
  }
}
