/** The growing byte buffer of the compiler. */
module Chunks {
  import opened Bytes
  import opened Machine

  /** Moving the lowest byte of what is left to the bytes already written. */
  lemma NextByte(written: seq<byte>, v: int, k: nat)
    requires k > 0
    ensures written + LittleEndian(v, k) == (written + [v % 256]) + LittleEndian(v / 256, k - 1)
  {}

  class Chunk {
    var code: array<byte>
    var count: nat

    ghost predicate Valid()
      reads this
    {
      count <= code.Length
    }

    ghost function Contents(): seq<byte>
      reads this, code
      requires Valid()
    {
      code[..count]
    }

    constructor ()
      ensures Valid() && fresh(code) && Contents() == []
    {
      code := new byte[0];
      count := 0;
    }

    /** emit_byte: a full buffer is replaced by one of twice its size, at least 8. */
    method EmitByte(b: byte)
      requires Valid()
      modifies this, code
      ensures Valid() && (code == old(code) || fresh(code))
      ensures Contents() == old(Contents()) + [b]
    {
      if count >= code.Length {
        var bigger := new byte[if code.Length < 8 then 8 else 2 * code.Length];
        forall i | 0 <= i < count {
          bigger[i] := code[i];
        }
        code := bigger;
      }
      code[count] := b;
      count := count + 1;
    }

    /** emit_int32 and emit_int: the low k bytes of v, least significant first. */
    method EmitLittleEndian(v: int, k: nat)
      requires Valid()
      modifies this, code
      ensures Valid() && (code == old(code) || fresh(code))
      ensures Contents() == old(Contents()) + LittleEndian(v, k)
    {
      var rest := v;
      for i := 0 to k
        invariant Valid() && (code == old(code) || fresh(code))
        invariant Contents() + LittleEndian(rest, k - i) == old(Contents()) + LittleEndian(v, k)
      {
        NextByte(Contents(), rest, k - i);
        EmitByte(rest % 256);
        rest := rest / 256;
      }
    }

    /** patch_int32, in place. */
    method PatchInt32(offset: nat, v: int32)
      requires Valid() && offset + 4 <= count
      modifies code
      ensures Valid() && Contents() == Patch(old(Contents()), offset, v)
    {
      ghost var before, after := code[..offset], code[offset + 4..count];
      assert old(Contents())[..offset] == before && old(Contents())[offset + 4..] == after;
      var rest: int := v;
      for i := 0 to 4
        invariant code[..offset] == before && code[offset + 4..count] == after
        invariant code[offset..offset + i] + LittleEndian(rest, 4 - i) == Le32(v)
      {
        code[offset + i] := rest % 256;
        NextByte(code[offset..offset + i], rest, 4 - i);
        assert code[offset..offset + i + 1] == code[offset..offset + i] + [rest % 256];
        rest := rest / 256;
      }
      assert Contents() == code[..offset] + code[offset..offset + 4] + code[offset + 4..count];
    }

    /** The operand bytes after an opcode. */
    method EmitOperand(i: Instr)
      requires Valid()
      modifies this, code
      ensures Valid() && (code == old(code) || fresh(code))
      ensures Contents() == old(Contents()) + Operand(i)
    {
      match i
      case PUSH_INT(n) => EmitLittleEndian(n, 8);
      case PUSH_BOOL(b) => EmitByte(if b then 1 else 0);
      case STORE(s) => EmitByte(s);
      case LOAD(s) => EmitByte(s);
      case JUMP(a) => EmitLittleEndian(a, 4);
      case JUMP_IF_F(a) => EmitLittleEndian(a, 4);
      case CALL(a) => EmitLittleEndian(a, 4);
      case TRY(a) => EmitLittleEndian(a, 4);
      case _ =>
    }

    /** The opcode and the operand of one instruction. */
    method EmitInstr(i: Instr)
      requires Valid()
      modifies this, code
      ensures Valid() && (code == old(code) || fresh(code))
      ensures Contents() == old(Contents()) + Encode(i)
    {
      hide Operand, Opcode, LittleEndian;
      EmitByte(Opcode(i));
      EmitOperand(i);
      assert (old(Contents()) + [Opcode(i)]) + Operand(i) == old(Contents()) + ([Opcode(i)] + Operand(i));
    }
  }
}
