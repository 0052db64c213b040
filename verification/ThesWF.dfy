/** The message buffer that is built in place: a growable vector with a cursor position. */
module ThesWireFormat {
  import opened Wrappers
  import opened LittleEndian
  import WF = WireFormat

  /** `dst` with the bytes from `at` on overwritten by `src`. */
  function Patch(dst: seq<byte>, at: nat, src: seq<byte>): (r: seq<byte>)
    requires at + |src| <= |dst|
    ensures |r| == |dst|
  {
    dst[..at] + src + dst[at + |src|..]
  }

  class ThesWF {
    var data: seq<byte>
    var position: nat

    /** Every message has a length field that counts exactly its bytes. */
    ghost predicate Valid()
      reads this
    {
      WF.Coherent(data)
    }

    /** Room for the header fields, all that the accessors rely on; raw vectors may have a wrong length field. */
    predicate HasHeader()
      reads this
    {
      |data| >= WF.LEN_HEADER
    }

    ghost function Value(): WF.Frame
      requires HasHeader()
      reads this
    {
      WF.View(data)
    }

    constructor WithCapacity(size: nat)
      ensures Valid()
      ensures Value() == WF.Frame(WF.NULL_ID, WF.NULL_ID, [])
    {
      data := seq(24, _ => 0);
      position := 24;
      new;
      SetLen(24);
      ZeroHeader();
      ghost var zeros: seq<byte> := seq(24, _ => 0);
      assert zeros[8..16] == zeros[16..24] == seq(8, _ => 0);
      assert zeros[24..] == [];
    }

    /** `default()` goes through `write` on a buffer that has no header yet. */
    constructor Default()
      ensures Valid()
      ensures Value() == WF.Frame(WF.NULL_ID, WF.NULL_ID, [])
    {
      data := [];
      position := 0;
      new;
      ZeroHeader();
      ghost var zeros: seq<byte> := seq(24, _ => 0);
      assert [] + zeros == zeros;
      assert zeros[..8] == zeros[8..16] == zeros[16..24] == seq(8, _ => 0);
      assert zeros[24..] == [];
      var _ := WriteRaw(seq(24, _ => 0));
    }

    constructor FromVec(bytes: seq<byte>)
      ensures data == bytes
    {
      data := bytes;
      position := 0;
    }

    /** Raw vectors are only checked for room for a header. */
    static method TryFrom(bytes: seq<byte>) returns (r: Result<ThesWF, WF.WireErr>)
      ensures r.Ok? <==> |bytes| >= WF.LEN_HEADER
      ensures r.Err? ==> r.error == WF.WireErr.Deserialize
      ensures r.Ok? ==> fresh(r.value) && r.value.data == bytes
      ensures r.Ok? && WF.Coherent(bytes) ==> r.value.Valid() && r.value.Value() == WF.View(bytes)
    {
      if |bytes| < WF.LEN_HEADER {
        return Err(WF.WireErr.Deserialize);
      }
      var wf := new ThesWF.FromVec(bytes);
      r := Ok(wf);
    }

    static lemma {:induction false} ZeroBytes(k: nat)
      ensures ToBytes(0, k) == seq(k, _ => 0)
    {
      if k > 0 {
        ZeroBytes(k - 1);
      }
    }

    static lemma ZeroHeader()
      ensures ToU64(seq(8, _ => 0)) == 0
    {
      U64RoundTrip(0);
      ZeroBytes(8);
    }

    method SetLen(len: u64)
      requires HasHeader()
      modifies this`data
      ensures |data| == |old(data)| && Value() == old(Value())
      ensures data == Patch(old(data), 0, ToBytes(len, 8))
      ensures ToU64(data[..8]) == len
    {
      data := Patch(data, 0, ToBytes(len, 8));
      U64RoundTrip(len);
      assert data[..8] == ToBytes(len, 8);
      assert data[8..16] == old(data)[8..16];
      assert data[16..24] == old(data)[16..24];
      assert data[24..] == old(data)[24..];
    }

    method SetSid(sid: u64)
      requires HasHeader()
      modifies this`data
      ensures |data| == |old(data)| && data[..8] == old(data)[..8]
      ensures Value() == old(Value()).(sid := sid)
    {
      data := Patch(data, 8, ToBytes(sid, 8));
      U64RoundTrip(sid);
      assert data[..8] == old(data)[..8];
      assert data[8..16] == ToBytes(sid, 8);
      assert data[16..24] == old(data)[16..24];
      assert data[24..] == old(data)[24..];
    }

    method SetCid(cid: u64)
      requires HasHeader()
      modifies this`data
      ensures |data| == |old(data)| && data[..8] == old(data)[..8]
      ensures Value() == old(Value()).(cid := cid)
    {
      data := Patch(data, 16, ToBytes(cid, 8));
      U64RoundTrip(cid);
      assert data[..8] == old(data)[..8];
      assert data[8..16] == old(data)[8..16];
      assert data[16..24] == ToBytes(cid, 8);
      assert data[24..] == old(data)[24..];
    }

    /** `io::Write::write`: appends at the end wherever the cursor was, and adds to the length field. */
    method Write(buf: seq<byte>) returns (written: nat)
      requires HasHeader()
      requires ToU64(data[..8]) + |buf| < 0x1_0000_0000_0000_0000
      modifies this
      ensures written == |buf|
      ensures HasHeader() && |data| == |old(data)| + |buf|
      ensures ToU64(data[..8]) == ToU64(old(data)[..8]) + |buf|
      ensures old(Valid()) ==> Valid()
      ensures Value() == old(Value()).(payload := old(Value()).payload + buf)
    {
      ghost var grown := data + buf;
      assert grown[..8] == data[..8];
      assert grown[8..16] == data[8..16];
      assert grown[16..24] == data[16..24];
      assert grown[24..] == data[24..] + buf;
      written := WriteRaw(buf);
    }

    /** The body of `write`, which `default` also runs on an empty vector. */
    method WriteRaw(buf: seq<byte>) returns (written: nat)
      requires |data| + |buf| >= WF.LEN_HEADER
      requires ToU64((data + buf)[..8]) + |buf| < 0x1_0000_0000_0000_0000
      modifies this
      ensures written == |buf|
      ensures |data| == |old(data) + buf|
      ensures ToU64(data[..8]) == ToU64((old(data) + buf)[..8]) + |buf|
      ensures Value() == WF.View(old(data) + buf)
    {
      position := |data|;
      data := data + buf;
      written := |buf|;
      position := position + written;
      SetLen(ToU64(data[..8]) + written);
    }

    method Len() returns (len: u64)
      requires HasHeader()
      ensures len == ToU64(data[..8])
      ensures Valid() ==> len == |data|
    {
      len := ToU64(data[..8]);
    }

    method Sid() returns (sid: u64)
      requires HasHeader()
      ensures sid == Value().sid
    {
      sid := ToU64(data[8..16]);
    }

    method Cid() returns (cid: u64)
      requires HasHeader()
      ensures cid == Value().cid
    {
      cid := ToU64(data[16..24]);
    }

    method Msg() returns (payload: seq<byte>)
      requires HasHeader()
      ensures payload == Value().payload
    {
      payload := data[24..];
    }
  }
}
