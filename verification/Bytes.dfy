/** Little-endian operands and the back-patching of a code buffer
    (emit_int32, emit_int, patch_int32, read_int32 and read_int64). */
module Bytes {

  type byte = b: int | 0 <= b < 256

  type int32 = n: int | -0x8000_0000 <= n < 0x8000_0000

  type int64 = n: int | -0x8000_0000_0000_0000 <= n < 0x8000_0000_0000_0000

  /** Half of the number of values that k bytes can hold. */
  function HalfRange(k: nat): int
    requires k > 0
  {
    if k == 1 then 128 else 256 * HalfRange(k - 1)
  }

  /** The low k bytes of v in two's complement, least significant first:
      byte i is (v >> 8i) & 0xFF. */
  function LittleEndian(v: int, k: nat): (bs: seq<byte>)
    ensures |bs| == k
    decreases k
  {
    if k == 0 then [] else [v % 256] + LittleEndian(v / 256, k - 1)
  }

  /** The signed number that a little-endian byte string stands for. */
  function Signed(bs: seq<byte>): int
    requires bs != []
  {
    if |bs| == 1 then (if bs[0] < 128 then bs[0] else bs[0] - 256)
    else bs[0] + 256 * Signed(bs[1..])
  }

  lemma {:induction false} SignedLittleEndian(v: int, k: nat)
    requires k > 0 && -HalfRange(k) <= v < HalfRange(k)
    ensures Signed(LittleEndian(v, k)) == v
    decreases k
  {
    if k == 1 {
      assert LittleEndian(v, 1) == [v % 256];
    } else {
      SignedLittleEndian(v / 256, k - 1);
      assert LittleEndian(v, k)[1..] == LittleEndian(v / 256, k - 1);
    }
  }

  lemma {:induction false} LittleEndianSigned(bs: seq<byte>)
    requires bs != []
    ensures -HalfRange(|bs|) <= Signed(bs) < HalfRange(|bs|)
    ensures LittleEndian(Signed(bs), |bs|) == bs
  {
    var v := Signed(bs);
    if |bs| == 1 {
      assert LittleEndian(v, 1) == [v % 256] + LittleEndian(v / 256, 0);
      assert v % 256 == bs[0];
    } else {
      var w := Signed(bs[1..]);
      LittleEndianSigned(bs[1..]);
      FirstByte(bs[0], w, v);
      assert LittleEndian(v, |bs|) == [bs[0]] + LittleEndian(w, |bs| - 1);
      assert bs == [bs[0]] + bs[1..];
    }
  }

  lemma FirstByte(b: byte, w: int, v: int)
    requires v == b + 256 * w
    ensures v % 256 == b && v / 256 == w
  {}

  function Le32(v: int32): (bs: seq<byte>)
    ensures |bs| == 4
  {
    LittleEndian(v, 4)
  }

  function Le64(v: int64): (bs: seq<byte>)
    ensures |bs| == 8
  {
    LittleEndian(v, 8)
  }

  lemma Ranges()
    ensures HalfRange(4) == 0x8000_0000
    ensures HalfRange(8) == 0x8000_0000_0000_0000
  {
    assert HalfRange(1) == 128 && HalfRange(2) == 0x8000 && HalfRange(3) == 0x80_0000;
    assert HalfRange(5) == 256 * HalfRange(4) && HalfRange(6) == 256 * HalfRange(5);
    assert HalfRange(7) == 256 * HalfRange(6);
  }

  /** read_int32 at a position of the code. */
  function ReadInt32(bs: seq<byte>): (v: int32)
    requires |bs| == 4
  {
    Ranges();
    LittleEndianSigned(bs);
    Signed(bs)
  }

  function ReadInt64(bs: seq<byte>): (v: int64)
    requires |bs| == 8
  {
    Ranges();
    LittleEndianSigned(bs);
    Signed(bs)
  }

  lemma ReadBack32(v: int32)
    ensures ReadInt32(Le32(v)) == v
  {
    Ranges();
    SignedLittleEndian(v, 4);
  }

  lemma ReadBack64(v: int64)
    ensures ReadInt64(Le64(v)) == v
  {
    Ranges();
    SignedLittleEndian(v, 8);
  }

  /** patch_int32; the offset of a placeholder always lies in the buffer. */
  function Patch(code: seq<byte>, offset: nat, v: int32): (r: seq<byte>)
    ensures |r| == |code|
  {
    if offset + 4 <= |code| then code[..offset] + Le32(v) + code[offset + 4..] else code
  }

  /** patch_int32 at every offset of a list, in order. */
  function PatchAll(code: seq<byte>, offsets: seq<nat>, v: int32): (r: seq<byte>)
    ensures |r| == |code|
    decreases |offsets|
  {
    if offsets == [] then code else PatchAll(Patch(code, offsets[0], v), offsets[1..], v)
  }

  lemma {:induction false} PatchAllAppend(code: seq<byte>, first: seq<nat>, second: seq<nat>, v: int32)
    ensures PatchAll(code, first + second, v) == PatchAll(PatchAll(code, first, v), second, v)
    decreases |first|
  {
    if first == [] {
      assert first + second == second;
    } else {
      assert (first + second)[0] == first[0] && (first + second)[1..] == first[1..] + second;
      PatchAllAppend(Patch(code, first[0], v), first[1..], second, v);
    }
  }

  lemma PatchOne(code: seq<byte>, offset: nat, v: int32)
    ensures PatchAll(code, [offset], v) == Patch(code, offset, v)
  {
    assert [offset][1..] == [];
  }

  lemma PatchMiddle(a: seq<byte>, hole: seq<byte>, b: seq<byte>, v: int32)
    requires |hole| == 4
    ensures Patch(a + hole + b, |a|, v) == a + Le32(v) + b
  {
    var code := a + hole + b;
    assert code[..|a|] == a && code[|a| + 4..] == b;
  }

  /** A C string ends at its first zero byte. */
  function UpToNul(s: seq<byte>): (r: seq<byte>)
    ensures 0 !in r && (0 !in s ==> r == s)
  {
    if s == [] || s[0] == 0 then [] else [s[0]] + UpToNul(s[1..])
  }
}
