/** Frames as values: what the header fields mean and how a frame is classified. */
module WireFormat {
  import opened LittleEndian

  const LEN_HEADER := 24

  /** The reserved identifiers: all bytes zero, all bytes one. */
  const NULL_ID: u64 := 0
  const FULL_ID: u64 := 0xFFFF_FFFF_FFFF_FFFF

  /** What can be wrong with what the wire brings. */
  datatype WireErr =
    | MessageSizeExceeded(size: nat, maxSize: nat)
    | Deserialize
    | Io

  datatype Frame = Frame(sid: u64, cid: u64, payload: seq<byte>)

  datatype WireType = ErrorReply | IncomingSend | IncomingCall | CallReply

  function Kind(f: Frame): WireType {
    if f.sid == NULL_ID then ErrorReply
    else if f.sid == FULL_ID then CallReply
    else if f.cid == NULL_ID then IncomingSend
    else IncomingCall
  }

  /** A frame of more bytes than its own length field can count does not fit in memory. */
  predicate Fits(f: Frame) {
    LEN_HEADER + |f.payload| < 0x1_0000_0000_0000_0000
  }

  /** The bytes of a frame; the length field counts the header too. */
  function Encode(f: Frame): (b: seq<byte>)
    requires Fits(f)
    ensures |b| == LEN_HEADER + |f.payload|
  {
    ToBytes(LEN_HEADER + |f.payload|, 8) + ToBytes(f.sid, 8) + ToBytes(f.cid, 8) + f.payload
  }

  /** Reads the header fields at their fixed offsets. */
  function View(b: seq<byte>): Frame
    requires |b| >= LEN_HEADER
  {
    Frame(ToU64(b[8..16]), ToU64(b[16..24]), b[24..])
  }

  /** The length field agrees with the number of bytes. */
  predicate Coherent(b: seq<byte>) {
    |b| >= LEN_HEADER && ToU64(b[..8]) == |b|
  }

  lemma EncodeIsCoherent(f: Frame)
    requires Fits(f)
    ensures Coherent(Encode(f)) && View(Encode(f)) == f
  {
    var b := Encode(f);
    assert b[..8] == ToBytes(|b|, 8);
    assert b[8..16] == ToBytes(f.sid, 8);
    assert b[16..24] == ToBytes(f.cid, 8);
    assert b[24..] == f.payload;
    U64RoundTrip(|b|);
    U64RoundTrip(f.sid);
    U64RoundTrip(f.cid);
  }

  lemma CoherentIsEncode(b: seq<byte>)
    requires Coherent(b)
    ensures Fits(View(b)) && Encode(View(b)) == b
  {
    EncodeDecode(b[..8]);
    EncodeDecode(b[8..16]);
    EncodeDecode(b[16..24]);
    assert b == b[..8] + b[8..16] + b[16..24] + b[24..];
  }
}
