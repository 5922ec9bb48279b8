// The objects that put frames on a stream, take them off again and rewrite
// them in the filters, proved against modules Wire and Filters.

module WireObject {
  import opened Bytes
  import opened Wire
  import opened Filters

  class OutputStream {
    var written: Bytes

    constructor ()
      ensures written == []
    {
      written := [];
    }

    method Write(buf: Bytes)
      modifies this
      ensures written == old(written) + buf
    {
      written := written + buf;
    }
  }

  // rpc_envelope::send: header, then body.
  method SendEnvelope(out: OutputStream, e: Envelope)
    modifies out
    ensures out.written == old(out.written) + Encode(e)
  {
    hide EncodeHeader;
    out.Write(EncodeHeader(e.header));
    out.Write(e.body);
  }

  // All envelopes of a list, one after the other.
  method SendAll(out: OutputStream, es: seq<Envelope>)
    modifies out
    ensures out.written == old(out.written) + EncodeAll(es)
  {
    hide Encode;
    for i := 0 to |es|
      invariant out.written == old(out.written) + EncodeAll(es[..i])
    {
      EncodeAllAppend(es[..i], [es[i]]);
      assert es[..i + 1] == es[..i] + [es[i]];
      assert EncodeAll([es[i]]) == Encode(es[i]) + EncodeAll([]);
      SendEnvelope(out, es[i]);
    }
    assert es[..|es|] == es;
  }

  // rpc_connection with the unread part of its input stream.
  class RpcConnection {
    var input: Bytes
    var eof: bool
    var enabled: bool
    var error: Option<string>
    var activeParser: nat

    constructor (input: Bytes)
      ensures this.input == input && activeParser == 0
      ensures enabled && error.None? && !eof && IsValid()
    {
      this.input := input;
      eof, enabled, error, activeParser := false, true, None, 0;
    }

    predicate IsValid()
      reads this
    {
      enabled && error.None? && !eof
    }

    method Disable()
      modifies this`enabled
      ensures !enabled && !IsValid()
    {
      enabled := false;
    }

    // The first error is kept and later ones are appended, so that an error
    // is never cleared.
    method SetError(e: string)
      modifies this`error
      ensures error.Some? && !IsValid()
      ensures old(error).None? ==> error == Some(e)
      ensures old(error).Some? ==> old(error).value < error.value && error.value[|old(error).value|..] == " :: " + e
    {
      if error.None? {
        error := Some(e);
      } else {
        error := Some(error.value + " :: " + e);
      }
    }

    method ReadExact(n: nat) returns (buf: Bytes)
      modifies this`input, this`eof
      ensures (buf, input) == ReadExactly(old(input), n)
      ensures eof == (old(eof) || |old(input)| < n)
      ensures eof ==> !IsValid()
    {
      if n <= |input| {
        buf, input := input[..n], input[n..];
      } else {
        buf, input, eof := input, [], true;
      }
    }

    method ParseHeader() returns (r: Option<Header>)
      requires activeParser == 0
      modifies this`input, this`eof, this`activeParser
      ensures r == CheckHeader(ReadExactly(old(input), HEADER_SIZE).0)
      ensures input == ReadExactly(old(input), HEADER_SIZE).1
      ensures activeParser == 0
      ensures r.Some? ==> eof == old(eof)
    {
      activeParser := activeParser + 1;
      var buf := ReadExact(HEADER_SIZE);
      if |buf| != HEADER_SIZE {
        r := None;
      } else {
        var h := DecodeHeader(buf);
        if h.size == 0 || h.compression > COMPRESSION_MAX || h.checksum <= 0 || h.meta <= 0 {
          r := None;
        } else {
          if h.compression == DISABLED {
            h := h.(compression := NONE);
          }
          r := Some(h);
        }
      }
      activeParser := activeParser - 1;
    }

    method ParsePayload(hash: Hash, h: Header) returns (r: Option<RecvContext>)
      modifies this`input, this`eof
      ensures r == CheckPayload(hash, h, ReadExactly(old(input), h.size).0)
      ensures input == ReadExactly(old(input), h.size).1
      ensures r.Some? ==> eof == old(eof)
    {
      var body := ReadExact(h.size);
      if h.size != |body| || h.size > MAX_FLATBUFFERS_SIZE || h.bitflags % 2 == 1 {
        return None;
      }
      if Checksum(hash, body) != h.checksum {
        return None;
      }
      r := Some(RecvContext(h, body));
    }

    // One turn of the reader; a failure marks the connection.
    method ReadOne(hash: Hash) returns (r: Option<RecvContext>)
      requires IsValid() && activeParser == 0
      modifies this
      ensures activeParser == 0 && IsValid() == r.Some?
      ensures match ParseFrame(hash, old(input))
              case None => r.None? && error.Some?
              case Some((ctx, rest)) => r == Some(ctx) && input == rest
    {
      hide CheckHeader, CheckPayload;
      var hdr := ParseHeader();
      if hdr.None? {
        SetError("Could not parse header");
        return None;
      }
      r := ParsePayload(hash, hdr.value);
      if r.None? {
        SetError("Could not parse payload");
      }
    }

    // The reading side of a connection until it is no longer valid: it
    // delivers what ParseStream says.
    method ReadLoop(hash: Hash) returns (ctxs: seq<RecvContext>)
      requires IsValid() && activeParser == 0
      modifies this
      ensures ctxs == ParseStream(hash, old(input))
      ensures !IsValid() && error.Some?
    {
      hide ParseFrame;
      ctxs := [];
      while IsValid()
        invariant activeParser == 0
        invariant ctxs + (if IsValid() then ParseStream(hash, input) else []) == ParseStream(hash, old(input))
        invariant !IsValid() ==> error.Some?
        decreases IsValid(), |input|
      {
        var opt := ReadOne(hash);
        if opt.Some? {
          ctxs := ctxs + [opt.value];
        }
      }
    }
  }

  // Everything sent into a stream comes out of a connection that reads it.
  method SendThenRead(hash: Hash, es: seq<Envelope>) returns (ctxs: seq<RecvContext>)
    requires forall e :: e in es ==> Acceptable(hash, e)
    ensures ctxs == ReceiveAll(es)
  {
    var out := new OutputStream();
    SendAll(out, es);
    RoundTrip(hash, es);
    assert [] + EncodeAll(es) == EncodeAll(es);
    var conn := new RpcConnection(out.written);
    ctxs := conn.ReadLoop(hash);
  }

  // rpc_letter as the filters see it.
  class Letter {
    var header: Header
    var body: Bytes

    constructor (e: Envelope)
      ensures header == e.header && body == e.body
    {
      header, body := e.header, e.body;
    }

    method ChecksumRpc(hash: Hash)
      modifies this`header
      ensures header == Seal(hash, old(header), body)
      ensures Sealed(hash, header, body)
      ensures (|body| - header.size) % 0x1_0000_0000 == 0
      ensures |body| < 0x1_0000_0000 ==> (hash(body) - header.checksum) % 0x1_0000_0000 == 0
    {
      SealIs(hash, header, body);
      var size := Low32(|body|);
      header := header.(checksum := Checksum(hash, body[..size]));
      header := header.(size := size);
    }

    // A compression filter; false stands for the codec's exception.
    method CompressionFilter(env: Env, f: OutFilter) returns (ok: bool)
      modifies this
      ensures var r := Compress(env, f, old(Envelope(header, body)));
              ok == r.Some? && (ok ==> Envelope(header, body) == r.value)
      ensures old(header.compression) != 0 || |old(body)| <= f.minSize ==>
                ok && header == old(header) && body == old(body)
      ensures old(header.compression) == 0 && |old(body)| > f.minSize ==>
                var codec := if f.algorithm.Zstd? then env.zstd else env.lz4;
                && ok == codec.compress(old(body)).Some?
                && (ok ==> codec.compress(old(body)) == Some(body)
                           && header.compression == if f.algorithm.Zstd? then 2 else 3)
    {
      if header.compression != NONE || |body| <= f.minSize {
        return true;
      }
      var buf := env.CodecOf(f.algorithm).compress(body);
      if buf.None? {
        return false;
      }
      body := buf.value;
      header := header.(compression := Flag(f.algorithm));
      ChecksumRpc(env.hash);
      ok := true;
    }

    method DecompressionFilter(env: Env, f: InFilter) returns (ok: bool)
      modifies this
      ensures var r := Decompress(env, f, old(RecvContext(header, body)));
              ok == r.Some? && (ok ==> RecvContext(header, body) == r.value)
      ensures var mine := if f.algorithm.Zstd? then 2 else 3;
              var codec := if f.algorithm.Zstd? then env.zstd else env.lz4;
              if old(header.compression) != mine then ok && header == old(header) && body == old(body)
              else && ok == codec.uncompress(old(body)).Some?
                   && (ok ==> codec.uncompress(old(body)) == Some(body) && header.compression == 0)
    {
      if header.compression == Flag(f.algorithm) {
        var buf := env.CodecOf(f.algorithm).uncompress(body);
        if buf.None? {
          return false;
        }
        body := buf.value;
        header := header.(compression := NONE);
        ChecksumRpc(env.hash);
      }
      ok := true;
    }
  }

  // lz4_fast_codec::compress: the block is produced behind four bytes that
  // then receive the original size.
  method Lz4Compress(b: Block, data: Bytes) returns (r: Option<Bytes>)
    ensures r == Lz4Codec(b).compress(data)
  {
    var block := b.compress(data);
    if block.None? {
      return None;
    }
    var y := block.value;
    var buf := new byte[|y| + 4];
    for i := 0 to |y|
      invariant forall j :: 0 <= j < i ==> buf[4 + j] == y[j]
    {
      buf[4 + i] := y[i];
    }
    var prefix := LE32(Low32(|data|));
    for i := 0 to 4
      invariant forall j :: 0 <= j < |y| ==> buf[4 + j] == y[j]
      invariant forall j :: 0 <= j < i ==> buf[j] == prefix[j]
    {
      buf[i] := prefix[i];
    }
    assert buf[..] == prefix + y;
    r := Some(buf[..]);
  }
}
