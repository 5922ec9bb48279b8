// The filter chain and the compression filters. The codecs are parameters;
// an exception thrown by a codec or a filter is None.

module Filters {
  import opened Bytes
  import opened Wire

  datatype Codec = Codec(compress: Bytes -> Option<Bytes>, uncompress: Bytes -> Option<Bytes>)

  // The one law asked of a codec.
  ghost predicate Sound(c: Codec) {
    forall x: Bytes, y: Bytes :: x != [] && c.compress(x) == Some(y) ==> c.uncompress(y) == Some(x)
  }

  datatype Algorithm = Zstd | Lz4

  function Flag(a: Algorithm): int8 { match a case Zstd => ZSTD case Lz4 => LZ4 }

  // The hash and the two codecs that the filters share.
  datatype Env = Env(hash: Hash, zstd: Codec, lz4: Codec) {
    function CodecOf(a: Algorithm): Codec { match a case Zstd => zstd case Lz4 => lz4 }
    ghost predicate Ok() { Sound(zstd) && Sound(lz4) }
  }

  datatype OutFilter = OutFilter(algorithm: Algorithm, minSize: uint32)
  datatype InFilter = InFilter(algorithm: Algorithm)

  // rpc_filter_apply: the filters in order, stopping at an exception.
  function Apply<F, T>(run: (F, T) -> Option<T>, fs: seq<F>, x: T): Option<T> {
    if fs == [] then Some(x)
    else
      match run(fs[0], x)
      case None => None
      case Some(y) => Apply(run, fs[1..], y)
  }

  // lz4_compression_filter and zstd_compression_filter.
  function Compress(env: Env, f: OutFilter, e: Envelope): Option<Envelope> {
    if e.header.compression != NONE then Some(e)
    else if |e.body| <= f.minSize then Some(e)
    else
      match env.CodecOf(f.algorithm).compress(e.body)
      case None => None
      case Some(buf) =>
        Some(Envelope(Seal(env.hash, e.header.(compression := Flag(f.algorithm)), buf), buf))
  }

  // lz4_decompression_filter and zstd_decompression_filter.
  function Decompress(env: Env, f: InFilter, c: RecvContext): Option<RecvContext> {
    if c.header.compression != Flag(f.algorithm) then Some(c)
    else
      match env.CodecOf(f.algorithm).uncompress(c.payload)
      case None => None
      case Some(buf) =>
        Some(RecvContext(Seal(env.hash, c.header.(compression := NONE), buf), buf))
  }

  function ApplyOut(env: Env, fs: seq<OutFilter>, e: Envelope): Option<Envelope> {
    Apply((f, x) => Compress(env, f, x), fs, e)
  }

  function ApplyIn(env: Env, fs: seq<InFilter>, c: RecvContext): Option<RecvContext> {
    Apply((f, x) => Decompress(env, f, x), fs, c)
  }

  // Size and checksum describe the body.
  predicate Sealed(hash: Hash, h: Header, body: Bytes) { Seal(hash, h, body) == h }

  // ---------- Outgoing ----------

  // r is e compressed once with algorithm a.
  predicate CompressedBy(env: Env, a: Algorithm, e: Envelope, r: Envelope) {
    && e.header.compression == NONE && e.body != []
    && env.CodecOf(a).compress(e.body) == Some(r.body)
    && r.header == Seal(env.hash, e.header.(compression := Flag(a)), r.body)
  }

  lemma {:induction false} OutNoop(env: Env, fs: seq<OutFilter>, e: Envelope)
    requires e.header.compression != NONE
    ensures ApplyOut(env, fs, e) == Some(e)
  {
    if fs != [] {
      assert Compress(env, fs[0], e) == Some(e);
      OutNoop(env, fs[1..], e);
    }
  }

  // Whatever the filters and their thresholds, at most one of them compresses.
  lemma {:induction false} AtMostOneCompresses(env: Env, fs: seq<OutFilter>, e: Envelope)
    ensures match ApplyOut(env, fs, e)
            case None => true
            case Some(r) =>
              || r == e
              || exists a :: CompressedBy(env, a, e, r)
  {
    if fs != [] {
      match Compress(env, fs[0], e)
      case None =>
      case Some(y) =>
        if y == e {
          AtMostOneCompresses(env, fs[1..], e);
        } else {
          assert CompressedBy(env, fs[0].algorithm, e, y);
          OutNoop(env, fs[1..], y);
        }
    }
  }

  // Which filter decides: none if all thresholds are at least the body's
  // length, and otherwise the first whose threshold is below it. The deciding
  // filter's codec, zstd under flag 2 or lz4 under flag 3, makes the new body,
  // or throws.
  lemma {:induction false} FirstFilterDecides(env: Env, fs: seq<OutFilter>, e: Envelope, k: nat)
    requires e.header.compression == 0
    requires k <= |fs| && forall i :: 0 <= i < k ==> fs[i].minSize >= |e.body|
    requires k < |fs| ==> fs[k].minSize < |e.body|
    ensures k == |fs| ==> ApplyOut(env, fs, e) == Some(e)
    ensures k < |fs| ==>
              var zstd := fs[k].algorithm == Zstd;
              var buf := if zstd then env.zstd.compress(e.body) else env.lz4.compress(e.body);
              && (ApplyOut(env, fs, e).None? <==> buf.None?)
              && (buf.Some? ==>
                    var r := ApplyOut(env, fs, e).value;
                    && r.body == buf.value && r.header.compression == (if zstd then 2 else 3)
                    && r.header == e.header.(compression := r.header.compression, size := r.header.size,
                                             checksum := r.header.checksum)
                    && (|r.body| - r.header.size) % 0x1_0000_0000 == 0
                    && (|r.body| < 0x1_0000_0000 ==> (env.hash(r.body) - r.header.checksum) % 0x1_0000_0000 == 0))
  {
    if fs != [] {
      if k == 0 {
        match Compress(env, fs[0], e)
        case None =>
        case Some(y) =>
          OutNoop(env, fs[1..], y);
          SealIs(env.hash, e.header.(compression := Flag(fs[0].algorithm)), y.body);
      } else {
        assert Compress(env, fs[0], e) == Some(e);
        FirstFilterDecides(env, fs[1..], e, k - 1);
      }
    }
  }

  // Filters leave the session alone.
  lemma OutKeepsSession(env: Env, fs: seq<OutFilter>, e: Envelope)
    requires ApplyOut(env, fs, e).Some?
    ensures ApplyOut(env, fs, e).value.header.session == e.header.session
  {
    AtMostOneCompresses(env, fs, e);
  }

  // ---------- Incoming ----------

  lemma {:induction false} InNoop(env: Env, fs: seq<InFilter>, c: RecvContext)
    requires forall f :: f in fs ==> c.header.compression != Flag(f.algorithm)
    ensures ApplyIn(env, fs, c) == Some(c)
  {
    if fs != [] {
      assert fs[0] in fs;
      assert Decompress(env, fs[0], c) == Some(c);
      InNoop(env, fs[1..], c);
    }
  }

  // A list containing the matching decompressor undoes the compression.
  lemma {:induction false} InUndoes(env: Env, fs: seq<InFilter>, a: Algorithm, c: RecvContext, body: Bytes)
    requires c.header.compression == Flag(a) && InFilter(a) in fs
    requires env.CodecOf(a).uncompress(c.payload) == Some(body)
    ensures ApplyIn(env, fs, c)
            == Some(RecvContext(Seal(env.hash, c.header.(compression := NONE), body), body))
  {
    if fs[0].algorithm == a {
      InNoop(env, fs[1..], Decompress(env, fs[0], c).value);
    } else {
      assert Decompress(env, fs[0], c) == Some(c);
      InUndoes(env, fs[1..], a, c, body);
    }
  }

  // The decompressor for a received frame, if it needs one, is in the list.
  predicate Covered(ins: seq<InFilter>, c: RecvContext) {
    || c.header.compression == NONE
    || exists f :: f in ins && Flag(f.algorithm) == c.header.compression
  }

  // ---------- The pipeline ----------

  // For an envelope whose flag is none or disabled, any outgoing and any
  // incoming filters: the incoming side never throws, and it gives back the
  // original body with flag none, session, meta and bit flags unchanged and
  // size and checksum describing the body, exactly when the matching
  // decompressor is present; otherwise the frame is left compressed and
  // flagged, for the caller's check to refuse.
  lemma Pipeline(env: Env, outs: seq<OutFilter>, ins: seq<InFilter>, e: Envelope)
    requires env.Ok()
    requires e.header.compression == NONE || e.header.compression == DISABLED
    requires Sealed(env.hash, e.header, e.body)
    requires ApplyOut(env, outs, e).Some?
    ensures var r := ApplyOut(env, outs, e).value;
            && Sealed(env.hash, r.header, r.body)
            && r.header.session == e.header.session && r.header.meta == e.header.meta
            && ApplyIn(env, ins, Receive(r))
               == Some(if Covered(ins, Receive(r)) then Receive(e) else Receive(r))
            && (!Covered(ins, Receive(r)) ==> Receive(r).header.compression != NONE)
  {
    var r := ApplyOut(env, outs, e).value;
    AtMostOneCompresses(env, outs, e);
    if r == e {
      InNoop(env, ins, Receive(e));
    } else {
      var a :| CompressedBy(env, a, e, r);
      assert env.CodecOf(a).uncompress(r.body) == Some(e.body);
      if InFilter(a) in ins {
        InUndoes(env, ins, a, Receive(r), e.body);
      } else {
        forall f | f in ins ensures Flag(f.algorithm) != Flag(a) {
          assert f == InFilter(f.algorithm);
        }
        InNoop(env, ins, Receive(r));
      }
    }
  }

  // ---------- The lz4 codec ----------

  const LZ4_MAX_INPUT_SIZE := 0x7E00_0000

  // LZ4_compress_default and LZ4_decompress_safe; None for a result <= 0.
  datatype Block = Block(compress: Bytes -> Option<Bytes>, decompress: (Bytes, nat) -> Option<Bytes>)

  ghost predicate BlockSound(b: Block) {
    forall x: Bytes, y: Bytes :: b.compress(x) == Some(y) ==>
      && |x| <= LZ4_MAX_INPUT_SIZE
      && (x != [] ==> b.decompress(y, |x|) == Some(x))
      && (x == [] ==> b.decompress(y, |x|) == None)
  }

  // lz4_fast_codec: the block behind the original size in little-endian.
  function Lz4Codec(b: Block): Codec {
    Codec(
      x => match b.compress(x)
           case None => None
           case Some(y) => Some(LE32(Low32(|x|)) + y),
      z => if |z| < 4 then None else b.decompress(z[4..], FromLE32(z[..4])))
  }

  // The prefixed codec restores every input it compresses except the empty
  // one, whose decompression is refused; the filters never compress that one.
  lemma Lz4RoundTrip(b: Block, x: Bytes)
    requires BlockSound(b) && Lz4Codec(b).compress(x).Some?
    ensures var z := Lz4Codec(b).compress(x).value;
            Lz4Codec(b).uncompress(z) == if x == [] then None else Some(x)
  {
    hide LE32, FromLE32, LE16, FromLE16;
    var y := b.compress(x).value;
    LE32RoundTrip(|x|);
    var z := LE32(|x|) + y;
    assert z[..4] == LE32(|x|) && z[4..] == y;
  }

  lemma Lz4Sound(b: Block)
    requires BlockSound(b)
    ensures Sound(Lz4Codec(b))
  {
    forall x: Bytes, y: Bytes | x != [] && Lz4Codec(b).compress(x) == Some(y)
      ensures Lz4Codec(b).uncompress(y) == Some(x)
    {
      Lz4RoundTrip(b, x);
    }
  }
}
