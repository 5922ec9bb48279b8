// The wire format: a 16-byte header followed by the body, the writer
// (rpc_envelope::send) and the alternating header/payload reader
// (rpc_recv_context::parse_header and parse_payload).

module Wire {
  import opened Bytes

  const HEADER_SIZE := 16

  // compression_flags; the enumeration is a signed byte.
  const NONE: int8 := 0
  const DISABLED: int8 := 1
  const ZSTD: int8 := 2
  const LZ4: int8 := 3
  const COMPRESSION_MAX: int8 := 3

  // FLATBUFFERS_MAX_BUFFER_SIZE, 2GB - 1.
  const MAX_FLATBUFFERS_SIZE := 0x7FFF_FFFF

  datatype Header = Header(
    compression: int8,
    bitflags: byte,
    session: uint16,
    size: uint32,
    checksum: uint32,
    meta: uint32)

  datatype Envelope = Envelope(header: Header, body: Bytes)

  datatype RecvContext = RecvContext(header: Header, payload: Bytes)

  // XXH64 with seed 0, left abstract.
  type Hash = Bytes -> nat

  // rpc_checksum_payload: the low 32 bits of the hash.
  function Checksum(hash: Hash, payload: Bytes): uint32 { Low32(hash(payload)) }

  // checksum_rpc: the size parameter is 32 bits wide, so a longer buffer is
  // hashed and counted modulo 2^32.
  function Seal(hash: Hash, h: Header, body: Bytes): Header {
    var size := Low32(|body|);
    h.(checksum := Checksum(hash, body[..size]), size := size)
  }

  // ---------- Encoding ----------

  function EncodeHeader(h: Header): (r: Bytes)
    ensures |r| == HEADER_SIZE
  {
    [FromSigned(h.compression), h.bitflags] + LE16(h.session) + LE32(h.size)
    + LE32(h.checksum) + LE32(h.meta)
  }

  function DecodeHeader(b: Bytes): Header
    requires |b| == HEADER_SIZE
  {
    Header(ToSigned(b[0]), b[1], FromLE16(b[2..4]), FromLE32(b[4..8]),
           FromLE32(b[8..12]), FromLE32(b[12..16]))
  }

  // The six fields of an encoded header, one after the other.
  lemma HeaderFields(h: Header)
    ensures var r := EncodeHeader(h);
            && r[0] == FromSigned(h.compression) && r[1] == h.bitflags
            && r[2..4] == LE16(h.session) && r[4..8] == LE32(h.size)
            && r[8..12] == LE32(h.checksum) && r[12..16] == LE32(h.meta)
  {
    hide LE32, FromSigned;
    var a, b, c, d := LE16(h.session), LE32(h.size), LE32(h.checksum), LE32(h.meta);
    var r := EncodeHeader(h);
    assert |a| == 2 && |b| == 4 && |c| == 4 && |d| == 4;
    assert r == [FromSigned(h.compression), h.bitflags] + a + b + c + d;
  }

  lemma HeaderRoundTrip(h: Header)
    ensures DecodeHeader(EncodeHeader(h)) == h
  {
    hide LE16, LE32, FromLE16, FromLE32, EncodeHeader;
    HeaderFields(h);
    LE16RoundTrip(h.session);
    LE32RoundTrip(h.size);
    LE32RoundTrip(h.checksum);
    LE32RoundTrip(h.meta);
  }

  lemma BytesRoundTrip(b: Bytes)
    requires |b| == HEADER_SIZE
    ensures EncodeHeader(DecodeHeader(b)) == b
  {
    FromLE16RoundTrip(b[2..4]);
    FromLE32RoundTrip(b[4..8]);
    FromLE32RoundTrip(b[8..12]);
    FromLE32RoundTrip(b[12..16]);
    assert b == [b[0], b[1]] + b[2..4] + b[4..8] + b[8..12] + b[12..16];
  }

  // Which byte holds which bits of which field.
  lemma HeaderLayout(h: Header)
    ensures var b := EncodeHeader(h);
            && (b[0] - h.compression) % 0x100 == 0 && b[1] == h.bitflags
            && b[2..4] == [h.session % 0x100, h.session / 0x100]
            && b[4..8] == [h.size % 0x100, h.size / 0x100 % 0x100, h.size / 0x1_0000 % 0x100, h.size / 0x100_0000]
            && b[8..12] == [h.checksum % 0x100, h.checksum / 0x100 % 0x100,
                            h.checksum / 0x1_0000 % 0x100, h.checksum / 0x100_0000]
            && b[12..16] == [h.meta % 0x100, h.meta / 0x100 % 0x100, h.meta / 0x1_0000 % 0x100, h.meta / 0x100_0000]
  {
    hide LE32, EncodeHeader;
    HeaderFields(h);
    LE32Bytes(h.size);
    LE32Bytes(h.checksum);
    LE32Bytes(h.meta);
  }

  function Encode(e: Envelope): (r: Bytes)
    ensures |r| == HEADER_SIZE + |e.body|
  {
    EncodeHeader(e.header) + e.body
  }

  function EncodeAll(es: seq<Envelope>): Bytes {
    if es == [] then [] else Encode(es[0]) + EncodeAll(es[1..])
  }

  // ---------- Reading ----------

  // input_stream::read_exactly: short only at the end of the input.
  function ReadExactly(input: Bytes, n: nat): (Bytes, Bytes) {
    if n <= |input| then (input[..n], input[n..]) else (input, [])
  }

  // The validation part of parse_header.
  function CheckHeader(b: Bytes): Option<Header> {
    if |b| != HEADER_SIZE then None
    else
      var h := DecodeHeader(b);
      if h.size == 0 then None
      else if h.compression > COMPRESSION_MAX then None
      else if h.checksum <= 0 then None
      else if h.meta <= 0 then None
      else if h.compression == DISABLED then Some(h.(compression := NONE))
      else Some(h)
  }

  // The validation part of parse_payload.
  function CheckPayload(hash: Hash, h: Header, body: Bytes): Option<RecvContext> {
    if h.size != |body| then None
    else if h.size > MAX_FLATBUFFERS_SIZE then None
    else if h.bitflags % 2 == 1 then None
    else if Checksum(hash, body) != h.checksum then None
    else Some(RecvContext(h, body))
  }

  // One turn of the reader: a header and then its payload.
  function ParseFrame(hash: Hash, input: Bytes): (r: Option<(RecvContext, Bytes)>)
    ensures r.Some? ==> |r.value.1| + HEADER_SIZE <= |input|
  {
    var (hb, afterHeader) := ReadExactly(input, HEADER_SIZE);
    match CheckHeader(hb)
    case None => None
    case Some(h) =>
      var (body, rest) := ReadExactly(afterHeader, h.size);
      match CheckPayload(hash, h, body)
      case None => None
      case Some(ctx) => Some((ctx, rest))
  }

  // The reader run until its first failure on a stream that then ends.
  function ParseStream(hash: Hash, input: Bytes): seq<RecvContext>
    decreases |input|
  {
    match ParseFrame(hash, input)
    case None => []
    case Some((ctx, rest)) => [ctx] + ParseStream(hash, rest)
  }

  // ---------- What the reader accepts ----------

  // What every writer must supply so that the reader can find the next frame.
  predicate Framed(e: Envelope) { e.header.size == |e.body| }

  predicate Acceptable(hash: Hash, e: Envelope) {
    && Framed(e)
    && 0 < |e.body| <= MAX_FLATBUFFERS_SIZE
    && e.header.compression <= COMPRESSION_MAX
    && e.header.bitflags % 2 == 0
    && e.header.meta != 0
    && e.header.checksum != 0
    && e.header.checksum == Checksum(hash, e.body)
  }

  function Normalize(h: Header): Header {
    if h.compression == DISABLED then h.(compression := NONE) else h
  }

  function Receive(e: Envelope): RecvContext {
    RecvContext(Normalize(e.header), e.body)
  }

  function ReceiveAll(es: seq<Envelope>): seq<RecvContext> {
    if es == [] then [] else [Receive(es[0])] + ReceiveAll(es[1..])
  }

  // How many frames a reader recovers from the first n bytes of a stream of
  // framed envelopes: it stops at the first incomplete or unacceptable one.
  function Recoverable(hash: Hash, es: seq<Envelope>, n: nat): nat {
    if es == [] || n < |Encode(es[0])| || !Acceptable(hash, es[0]) then 0
    else 1 + Recoverable(hash, es[1..], n - |Encode(es[0])|)
  }

  // A header that the reader accepts out of an encoded frame.
  lemma CheckEncodedHeader(e: Envelope)
    ensures CheckHeader(EncodeHeader(e.header)) ==
            if e.header.size != 0 && e.header.compression <= COMPRESSION_MAX
               && e.header.checksum != 0 && e.header.meta != 0
            then Some(Normalize(e.header)) else None
  {
    HeaderRoundTrip(e.header);
  }

  // A complete frame at the head of the stream is recovered exactly when it is
  // acceptable, whatever follows it.
  lemma ParseEncoded(hash: Hash, e: Envelope, rest: Bytes)
    requires Framed(e)
    ensures ParseFrame(hash, Encode(e) + rest) ==
            if Acceptable(hash, e) then Some((Receive(e), rest)) else None
  {
    var input := Encode(e) + rest;
    assert input[..HEADER_SIZE] == EncodeHeader(e.header);
    assert input[HEADER_SIZE..] == e.body + rest;
    CheckEncodedHeader(e);
    assert (e.body + rest)[..|e.body|] == e.body;
    assert (e.body + rest)[|e.body|..] == rest;
  }

  // A frame cut short is never recovered.
  lemma ParseTruncated(hash: Hash, e: Envelope, n: nat)
    requires Framed(e)
    requires n < |Encode(e)|
    ensures ParseFrame(hash, Encode(e)[..n]).None?
  {
    var input := Encode(e)[..n];
    if n >= HEADER_SIZE {
      assert input[..HEADER_SIZE] == EncodeHeader(e.header);
      CheckEncodedHeader(e);
    }
  }

  // The verdict on a complete frame, check by check: a non-empty body of less
  // than 2^31 bytes, a compression flag of at most 3, an even bit field, a
  // nonzero request id or status, and a nonzero checksum that is the body's
  // hash modulo 2^32. What is delivered is the frame, with flag 1 turned into 0.
  lemma FrameVerdict(hash: Hash, e: Envelope, rest: Bytes)
    requires e.header.size == |e.body|
    ensures ParseFrame(hash, Encode(e) + rest).Some?
            <==> && 0 < |e.body| < 0x8000_0000 && e.header.compression <= 3 && e.header.bitflags % 2 == 0
                 && e.header.meta > 0 && e.header.checksum > 0
                 && (hash(e.body) - e.header.checksum) % 0x1_0000_0000 == 0
    ensures ParseFrame(hash, Encode(e) + rest).Some? ==>
              ParseFrame(hash, Encode(e) + rest).value
              == (RecvContext(e.header.(compression := if e.header.compression == 1 then 0 else e.header.compression),
                              e.body), rest)
  {
    ParseEncoded(hash, e, rest);
    hide ParseFrame, Encode, Low32;
    Low32Is(hash(e.body), e.header.checksum);
  }

  // No frame is delivered whose payload does not have the checksum that its
  // header announces.
  lemma DeliveredIntact(hash: Hash, input: Bytes)
    requires ParseFrame(hash, input).Some?
    ensures var c := ParseFrame(hash, input).value.0;
            && (hash(c.payload) - c.header.checksum) % 0x1_0000_0000 == 0
            && c.header.size == |c.payload|
  {
    hide Low32;
    var c := ParseFrame(hash, input).value.0;
    Low32Is(hash(c.payload), c.header.checksum);
  }

  // What checksum_rpc() leaves: the length and the hash of the body, modulo
  // 2^32, and every other field as it was.
  lemma SealIs(hash: Hash, h: Header, body: Bytes)
    ensures var r := Seal(hash, h, body);
            && r == h.(size := r.size, checksum := r.checksum)
            && (|body| - r.size) % 0x1_0000_0000 == 0
            && (|body| < 0x1_0000_0000 ==> (hash(body) - r.checksum) % 0x1_0000_0000 == 0)
  {
    var size := Low32(|body|);
    if |body| < 0x1_0000_0000 { assert body[..size] == body; }
  }

  lemma ParseEmpty(hash: Hash)
    ensures ParseStream(hash, []) == []
  {}

  // The reader accepts nothing but acceptable frames: every successful parse
  // consumed exactly the encoding of one.
  lemma ParseSound(hash: Hash, input: Bytes) returns (e: Envelope)
    requires ParseFrame(hash, input).Some?
    ensures Acceptable(hash, e)
    ensures ParseFrame(hash, input).value.0 == Receive(e)
    ensures input == Encode(e) + ParseFrame(hash, input).value.1
  {
    var h := DecodeHeader(input[..HEADER_SIZE]);
    var body := input[HEADER_SIZE..][..h.size];
    e := Envelope(h, body);
    BytesRoundTrip(input[..HEADER_SIZE]);
  }

  // The reader on the first n bytes of any concatenation of framed envelopes
  // yields exactly the complete acceptable frames before the first failure.
  lemma {:induction false} ParsePrefix(hash: Hash, es: seq<Envelope>, n: nat)
    requires forall e :: e in es ==> Framed(e)
    requires n <= |EncodeAll(es)|
    ensures Recoverable(hash, es, n) <= |es|
    ensures ParseStream(hash, EncodeAll(es)[..n])
            == ReceiveAll(es[..Recoverable(hash, es, n)])
  {
    ParseEmpty(hash);
    hide EncodeHeader, ParseFrame, Encode;
    if es == [] {
    } else {
      var all, first := EncodeAll(es), Encode(es[0]);
      assert Framed(es[0]);
      if n < |first| {
        assert all[..n] == first[..n];
        ParseTruncated(hash, es[0], n);
      } else {
        var rest := EncodeAll(es[1..])[..n - |first|];
        assert all[..n] == first + rest;
        ParseEncoded(hash, es[0], rest);
        if Acceptable(hash, es[0]) {
          ParsePrefix(hash, es[1..], n - |first|);
          var k := Recoverable(hash, es[1..], n - |first|);
          assert es[..k + 1][1..] == es[1..][..k];
        }
      }
    }
  }

  // Round trip: every sequence of acceptable envelopes comes back whole and in
  // order, and a strict prefix of the bytes loses at least the last one.
  lemma {:induction false} RoundTrip(hash: Hash, es: seq<Envelope>)
    requires forall e :: e in es ==> Acceptable(hash, e)
    ensures ParseStream(hash, EncodeAll(es)) == ReceiveAll(es)
    ensures forall n: nat {:trigger Recoverable(hash, es, n)} :: n < |EncodeAll(es)| ==> Recoverable(hash, es, n) < |es|
  {
    var all := EncodeAll(es);
    ParsePrefix(hash, es, |all|);
    RecoverAll(hash, es, |all|);
    assert all[..|all|] == all && es[..|es|] == es;
    forall n: nat | n < |all| ensures Recoverable(hash, es, n) < |es| {
      RecoverAll(hash, es, n);
    }
  }

  lemma {:induction false} RecoverAll(hash: Hash, es: seq<Envelope>, n: nat)
    requires forall e :: e in es ==> Acceptable(hash, e)
    requires n <= |EncodeAll(es)|
    ensures Recoverable(hash, es, n) <= |es|
    ensures Recoverable(hash, es, n) == |es| <==> n == |EncodeAll(es)|
  {
    if es != [] {
      assert Acceptable(hash, es[0]);
      if |Encode(es[0])| <= n {
        RecoverAll(hash, es[1..], n - |Encode(es[0])|);
      }
    }
  }

  // A sealed envelope with a usable flag, meta and body is acceptable except
  // for the bodies whose checksum happens to be zero, which are undeliverable.
  lemma SealedAcceptable(hash: Hash, h: Header, body: Bytes)
    requires 0 < |body| <= MAX_FLATBUFFERS_SIZE
    requires h.compression <= COMPRESSION_MAX && h.bitflags % 2 == 0 && h.meta != 0
    ensures Acceptable(hash, Envelope(Seal(hash, h, body), body))
            <==> Checksum(hash, body) != 0
  {
    assert body[..|body|] == body;
  }

  lemma {:induction false} EncodeAllAppend(xs: seq<Envelope>, ys: seq<Envelope>)
    ensures EncodeAll(xs + ys) == EncodeAll(xs) + EncodeAll(ys)
  {
    hide Encode;
    if xs == [] {
      assert xs + ys == ys;
    } else {
      EncodeAllAppend(xs[1..], ys);
      assert (xs + ys)[1..] == xs[1..] + ys;
    }
  }
}
