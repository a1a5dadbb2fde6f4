/**
 * The packet codec of holographic_compression.py: serialise, optionally
 * XOR with a repeating key, digest with SHA-256, deflate, base64-encode and
 * split the base64 text into two fragments that each start with the anchor
 * tag "HLPC". Decoding reverses the steps and answers None on any failure.
 *
 * json, zlib, base64 and hashlib are foreign code: they are the fields of a
 * `Library` value, and the laws the round trip needs of them are the
 * hypothesis `Lawful(lib)`, never an assumption of the model.
 */
module HolographicCompression {

  import opened Wrappers
  import opened Bytes

  const Anchor: string := "HLPC"

  /** The wrapper object `{"a": p1, "b": p2, "h": digest}`. */
  datatype Envelope = Envelope(a: string, b: string, h: string)

  /**
   * The foreign calls. Each decoder folds in the conversions and lookups
   * around it and answers None where Python would raise.
   */
  datatype Library<!M> = Library(
    dumps: M -> bytes,                 // json.dumps(msg, separators=(",", ":")).encode("utf-8")
    loads: bytes -> Option<M>,         // json.loads(raw.decode("utf-8"))
    compress: bytes -> bytes,          // zlib.compress
    decompress: bytes -> Option<bytes>, // zlib.decompress
    b64encode: bytes -> string,        // base64.b64encode(...).decode("ascii")
    b64decode: string -> Option<bytes>, // base64.b64decode(s.encode("ascii"))
    sha256: bytes -> string,           // hashlib.sha256(...).hexdigest()
    dumpsEnvelope: Envelope -> bytes,  // json.dumps(wrapper).encode("utf-8")
    loadsEnvelope: bytes -> Option<Envelope>) // json.loads, then ["a"], ["b"], .get("h") as strings

  /** What the round trip needs of the foreign calls: every decoder undoes its encoder. */
  ghost predicate Lawful<M(!new)>(lib: Library<M>) {
    && (forall m :: lib.loads(lib.dumps(m)) == Some(m))
    && (forall d :: lib.decompress(lib.compress(d)) == Some(d))
    && (forall d :: lib.b64decode(lib.b64encode(d)) == Some(d))
    && (forall e :: lib.loadsEnvelope(lib.dumpsEnvelope(e)) == Some(e))
  }

  // ----- the two-fragment framing of `_pointcloud_encode` / `_pointcloud_decode`

  /** Split the base64 text at `len // 2` and prefix each half with the anchor. */
  function Split(b64: string): (string, string)
  {
    var mid := |b64| / 2;
    (Anchor + b64[..mid], Anchor + b64[mid..])
  }

  /** Drop one leading anchor, if there is one. */
  function StripAnchor(part: string): string
  {
    if |part| >= |Anchor| && part[..|Anchor|] == Anchor then part[|Anchor|..] else part
  }

  function Join(part1: string, part2: string): string
  {
    StripAnchor(part1) + StripAnchor(part2)
  }

  lemma StripAnchored(payload: string)
    ensures StripAnchor(Anchor + payload) == payload
  {
    assert (Anchor + payload)[..|Anchor|] == Anchor;
    assert (Anchor + payload)[|Anchor|..] == payload;
  }

  /**
   * Both fragments carry the anchor, the second payload is as long as the
   * first or one longer, and joining the fragments gives back the text.
   */
  lemma {:induction false} SplitJoin(b64: string)
    ensures Split(b64).0[..|Anchor|] == Anchor && Split(b64).1[..|Anchor|] == Anchor
    ensures |Split(b64).1| == |Split(b64).0| || |Split(b64).1| == |Split(b64).0| + 1
    ensures Join(Split(b64).0, Split(b64).1) == b64
  {
    var mid := |b64| / 2;
    StripAnchored(b64[..mid]);
    StripAnchored(b64[mid..]);
    assert b64[..mid] + b64[mid..] == b64;
  }

  function PointcloudEncode<M>(lib: Library<M>, data: bytes): (string, string)
  {
    Split(lib.b64encode(lib.compress(data)))
  }

  function PointcloudDecode<M>(lib: Library<M>, part1: string, part2: string): Option<bytes>
  {
    match lib.b64decode(Join(part1, part2))
    case None => None
    case Some(compressed) => lib.decompress(compressed)
  }

  lemma PointcloudRoundTrip<M(!new)>(lib: Library<M>, data: bytes)
    requires Lawful(lib)
    ensures PointcloudDecode(lib, PointcloudEncode(lib, data).0, PointcloudEncode(lib, data).1) == Some(data)
  {
    SplitJoin(lib.b64encode(lib.compress(data)));
  }

  // ----- compress_packet / decompress_packet

  /** A packet, or the ZeroDivisionError `_xor` raises for an empty key. */
  datatype Packed = Packet(bytes: bytes) | ZeroDivisionError

  /** The bytes that are digested and deflated: the serialised message, XOR'd when a key is given. */
  function Obscured<M>(lib: Library<M>, msg: M, key: Option<bytes>): bytes
    requires key.Some? ==> |key.value| > 0 || |lib.dumps(msg)| == 0
  {
    if key.Some? then Xor(lib.dumps(msg), key.value) else lib.dumps(msg)
  }

  function CompressPacket<M>(lib: Library<M>, msg: M, key: Option<bytes>): Packed
  {
    if key.Some? && |key.value| == 0 && |lib.dumps(msg)| > 0 then ZeroDivisionError
    else
      var raw := Obscured(lib, msg, key);
      var parts := PointcloudEncode(lib, raw);
      Packet(lib.dumpsEnvelope(Envelope(parts.0, parts.1, lib.sha256(raw))))
  }

  /** Every failure (a missing field, bad base64, bad deflate data, a digest mismatch, bad JSON) is None. */
  function DecompressPacket<M>(lib: Library<M>, packet: bytes, key: Option<bytes>): Option<M>
  {
    match lib.loadsEnvelope(packet)
    case None => None
    case Some(wrapper) =>
      match PointcloudDecode(lib, wrapper.a, wrapper.b)
      case None => None
      case Some(raw) =>
        if lib.sha256(raw) != wrapper.h then None
        else if key.Some? && |key.value| == 0 && |raw| > 0 then None
        else lib.loads(if key.Some? then Xor(raw, key.value) else raw)
  }

  /** compress_packet fails only on an empty key, and then only because the message has bytes to XOR. */
  lemma CompressFailsOnlyOnEmptyKey<M>(lib: Library<M>, msg: M, key: Option<bytes>)
    ensures CompressPacket(lib, msg, key).ZeroDivisionError? <==> key == Some([]) && |lib.dumps(msg)| > 0
  {
  }

  /**
   * The envelope carries the two anchored fragments of the deflated bytes
   * and the digest of the XOR'd bytes, not of the plain serialisation.
   */
  lemma {:induction false} EnvelopeDigestsObscuredBytes<M(!new)>(lib: Library<M>, msg: M, key: Option<bytes>)
    requires Lawful(lib)
    requires CompressPacket(lib, msg, key).Packet?
    ensures var raw := Obscured(lib, msg, key);
      && lib.loadsEnvelope(CompressPacket(lib, msg, key).bytes).Some?
      && var w := lib.loadsEnvelope(CompressPacket(lib, msg, key).bytes).value;
      && w.h == lib.sha256(raw)
      && w.a[..|Anchor|] == Anchor && w.b[..|Anchor|] == Anchor
      && PointcloudDecode(lib, w.a, w.b) == Some(raw)
  {
    var raw := Obscured(lib, msg, key);
    SplitJoin(lib.b64encode(lib.compress(raw)));
    PointcloudRoundTrip(lib, raw);
  }

  /** `decompress_packet(compress_packet(m, k), k) == m`, with or without a key. */
  lemma {:induction false} RoundTrip<M(!new)>(lib: Library<M>, msg: M, key: Option<bytes>)
    requires Lawful(lib)
    requires CompressPacket(lib, msg, key).Packet?
    ensures DecompressPacket(lib, CompressPacket(lib, msg, key).bytes, key) == Some(msg)
  {
    var raw := Obscured(lib, msg, key);
    PointcloudRoundTrip(lib, raw);
    if key.Some? {
      XorInvolution(lib.dumps(msg), key.value);
    }
  }

  /** A wrapper whose digest does not match the recovered bytes decodes to None, whatever the key. */
  lemma DigestMismatchRejected<M>(lib: Library<M>, packet: bytes, key: Option<bytes>, wrapper: Envelope, raw: bytes)
    requires lib.loadsEnvelope(packet) == Some(wrapper)
    requires PointcloudDecode(lib, wrapper.a, wrapper.b) == Some(raw)
    requires lib.sha256(raw) != wrapper.h
    ensures DecompressPacket(lib, packet, key) == None
  {
  }

  /** An empty key never decodes a non-empty payload: the ZeroDivisionError is caught and None returned. */
  lemma EmptyKeyDecodesNothing<M>(lib: Library<M>, packet: bytes, wrapper: Envelope, raw: bytes)
    requires lib.loadsEnvelope(packet) == Some(wrapper)
    requires PointcloudDecode(lib, wrapper.a, wrapper.b) == Some(raw)
    requires |raw| > 0
    ensures DecompressPacket(lib, packet, Some([])) == None
  {
  }
}
