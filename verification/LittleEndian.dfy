/** Unsigned integers as little-endian byte strings (`byteorder::LittleEndian` in the source). */
module LittleEndian {
  type byte = b: int | 0 <= b < 256
  type u64 = n: int | 0 <= n < 0x1_0000_0000_0000_0000

  function Pow256(k: nat): (p: nat)
    ensures p > 0
  {
    if k == 0 then 1 else 256 * Pow256(k - 1)
  }

  function ToBytes(n: nat, k: nat): (s: seq<byte>)
    ensures |s| == k
  {
    if k == 0 then [] else [n % 256] + ToBytes(n / 256, k - 1)
  }

  function FromBytes(s: seq<byte>): (n: nat)
    ensures n < Pow256(|s|)
  {
    if s == [] then 0 else s[0] + 256 * FromBytes(s[1..])
  }

  /** Eight bytes hold exactly the 64-bit range. */
  lemma Pow256Of8()
    ensures Pow256(8) == 0x1_0000_0000_0000_0000
  {
    assert Pow256(4) == 0x1_0000_0000;
    assert Pow256(6) == 256 * (256 * Pow256(4));
  }

  lemma {:induction false} DecodeEncode(n: nat, k: nat)
    requires n < Pow256(k)
    ensures FromBytes(ToBytes(n, k)) == n
  {
    if k == 0 {
    } else {
      DecodeEncode(n / 256, k - 1);
      assert ToBytes(n, k)[1..] == ToBytes(n / 256, k - 1);
    }
  }

  lemma {:induction false} EncodeDecode(s: seq<byte>)
    ensures ToBytes(FromBytes(s), |s|) == s
  {
    if s == [] {
    } else {
      EncodeDecode(s[1..]);
      assert s == [s[0]] + s[1..];
    }
  }

  function ToU64(s: seq<byte>): (n: u64)
    requires |s| == 8
  {
    Pow256Of8();
    FromBytes(s)
  }

  lemma U64RoundTrip(n: u64)
    ensures ToU64(ToBytes(n, 8)) == n
  {
    Pow256Of8();
    DecodeEncode(n, 8);
  }

  /** A number below 256 is its own first byte; the others are zero. */
  lemma {:induction false} SmallBytes(n: byte, k: nat, i: nat)
    requires i < k
    ensures ToBytes(n, k)[i] == if i == 0 then n else 0
    decreases k
  {
    if i > 0 {
      SmallBytes(0, k - 1, i - 1);
    }
  }
}
