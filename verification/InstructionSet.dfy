/** The whole instruction set: every opcode with the operands that vm_run reads for it, and the round
    trip between instruction lists and code bytes. */
module InstructionSet {
  import opened Bytes
  import M = Machine
  import Values

  /** The opcodes, in the order of their numbers. vm_run has no case for CALL_PTR and CALL_NATIVE. */
  datatype Op =
    HALT | PUSH_INT | PUSH_FLT | PUSH_STR | PUSH_BOOL | ADD | SUB | NEG | MUL | DIV | MOD | EQ | LT | GT |
    LTE | GTE | AND | OR | NOT | PRINT | STORE | LOAD | JUMP | JUMP_IF_F | CALL | CALL_PTR | RET | TYPEOF |
    PUSH_FUNC | GET_MEMBER | SET_MEMBER | INDEX | CALL_NATIVE | ARRAY | STRUCT | INVOKE | LOAD_G | POP | MAP |
    SET_INDEX | TRY | END_TRY | THROW | ENUM_VARIANT | CHECK_VARIANT | GET_ENUM_PAYLOAD |
    EXTRACT_ENUM_PAYLOAD | IS_TRUTHY | GO | CHAN | SEND | RECV | CHECK_TYPE | AS_TYPE

  const OPCODES: nat := 54

  /** The number of an opcode. */
  function Number(op: Op): (n: byte)
    ensures n < OPCODES
  {
    match op
    case HALT => 0 case PUSH_INT => 1 case PUSH_FLT => 2 case PUSH_STR => 3 case PUSH_BOOL => 4 case ADD => 5
    case SUB => 6 case NEG => 7 case MUL => 8 case DIV => 9 case MOD => 10 case EQ => 11 case LT => 12
    case GT => 13 case LTE => 14 case GTE => 15 case AND => 16 case OR => 17 case NOT => 18 case PRINT => 19
    case STORE => 20 case LOAD => 21 case JUMP => 22 case JUMP_IF_F => 23 case CALL => 24 case CALL_PTR => 25
    case RET => 26 case TYPEOF => 27 case PUSH_FUNC => 28 case GET_MEMBER => 29 case SET_MEMBER => 30
    case INDEX => 31 case CALL_NATIVE => 32 case ARRAY => 33 case STRUCT => 34 case INVOKE => 35
    case LOAD_G => 36 case POP => 37 case MAP => 38 case SET_INDEX => 39 case TRY => 40 case END_TRY => 41
    case THROW => 42 case ENUM_VARIANT => 43 case CHECK_VARIANT => 44 case GET_ENUM_PAYLOAD => 45
    case EXTRACT_ENUM_PAYLOAD => 46 case IS_TRUTHY => 47 case GO => 48 case CHAN => 49 case SEND => 50
    case RECV => 51 case CHECK_TYPE => 52 case AS_TYPE => 53
  }

  function OpAt(n: byte): Op
    requires n < OPCODES
  {
    match n
    case 0 => HALT case 1 => PUSH_INT case 2 => PUSH_FLT case 3 => PUSH_STR case 4 => PUSH_BOOL case 5 => ADD
    case 6 => SUB case 7 => NEG case 8 => MUL case 9 => DIV case 10 => MOD case 11 => EQ case 12 => LT
    case 13 => GT case 14 => LTE case 15 => GTE case 16 => AND case 17 => OR case 18 => NOT case 19 => PRINT
    case 20 => STORE case 21 => LOAD case 22 => JUMP case 23 => JUMP_IF_F case 24 => CALL case 25 => CALL_PTR
    case 26 => RET case 27 => TYPEOF case 28 => PUSH_FUNC case 29 => GET_MEMBER case 30 => SET_MEMBER
    case 31 => INDEX case 32 => CALL_NATIVE case 33 => ARRAY case 34 => STRUCT case 35 => INVOKE
    case 36 => LOAD_G case 37 => POP case 38 => MAP case 39 => SET_INDEX case 40 => TRY case 41 => END_TRY
    case 42 => THROW case 43 => ENUM_VARIANT case 44 => CHECK_VARIANT case 45 => GET_ENUM_PAYLOAD
    case 46 => EXTRACT_ENUM_PAYLOAD case 47 => IS_TRUTHY case 48 => GO case 49 => CHAN case 50 => SEND
    case 51 => RECV case 52 => CHECK_TYPE case _ => AS_TYPE
  }

  lemma NumberBack(op: Op)
    ensures OpAt(Number(op)) == op
  {
    hide Number, OpAt;
    LowNumberBack(op);
    HighNumberBack(op);
  }

  lemma LowNumberBack(op: Op)
    ensures Number(op) < 27 ==> OpAt(Number(op)) == op
  {}

  lemma HighNumberBack(op: Op)
    ensures Number(op) >= 27 ==> OpAt(Number(op)) == op
  {}

  lemma NumbersDiffer(n: byte)
    requires n < OPCODES
    ensures Number(OpAt(n)) == n
  {}

  /** An operand: one byte, read_int32 or read_int64. */
  datatype Width = BYTE | WORD | LONG

  datatype Operand = Small(b: byte) | Int(n: int32) | Wide(w: int64)

  function WidthOf(o: Operand): Width {
    match o
    case Small(_) => BYTE
    case Int(_) => WORD
    case Wide(_) => LONG
  }

  function Length(w: Width): nat {
    match w
    case BYTE => 1
    case WORD => 4
    case LONG => 8
  }

  predicate HasCase(op: Op) {
    op != CALL_PTR && op != CALL_NATIVE
  }

  /** What vm_run reads after each opcode. */
  function Layout(op: Op): seq<Width> {
    match op
    case PUSH_INT => [LONG]
    case PUSH_FLT => [LONG]
    case PUSH_STR => [BYTE]
    case PUSH_BOOL => [BYTE]
    case STORE => [BYTE]
    case LOAD => [BYTE]
    case LOAD_G => [BYTE]
    case GET_MEMBER => [BYTE]
    case SET_MEMBER => [BYTE]
    case STRUCT => [BYTE]
    case CHECK_TYPE => [BYTE]
    case INVOKE => [BYTE]
    case GO => [BYTE]
    case JUMP => [WORD]
    case JUMP_IF_F => [WORD]
    case CALL => [WORD]
    case TRY => [WORD]
    case CHECK_VARIANT => [WORD]
    case AS_TYPE => [WORD]
    case CHAN => [WORD]
    case PUSH_FUNC => [LONG, BYTE, BYTE]
    case ARRAY => [WORD, BYTE]
    case MAP => [WORD, BYTE]
    case ENUM_VARIANT => [WORD, BYTE, BYTE]
    case _ => []
  }

  datatype Instr = Instr(op: Op, operands: seq<Operand>) {
    predicate Valid() {
      HasCase(op) && |operands| == |Layout(op)|
      && forall i | 0 <= i < |operands| :: WidthOf(operands[i]) == Layout(op)[i]
    }
  }

  // ----- encoding -----

  function EncodeOperand(o: Operand): (bs: seq<byte>)
    ensures |bs| == Length(WidthOf(o))
  {
    match o
    case Small(b) => [b]
    case Int(n) => Le32(n)
    case Wide(n) => Le64(n)
  }

  function EncodeOperands(os: seq<Operand>): seq<byte> {
    if os == [] then [] else EncodeOperand(os[0]) + EncodeOperands(os[1..])
  }

  function Encode(i: Instr): seq<byte> {
    [Number(i.op)] + EncodeOperands(i.operands)
  }

  function Assemble(list: seq<Instr>): seq<byte> {
    if list == [] then [] else Encode(list[0]) + Assemble(list[1..])
  }

  // ----- decoding -----

  function ReadOperand(w: Width, bs: seq<byte>): (o: Operand)
    requires |bs| == Length(w)
    ensures WidthOf(o) == w
  {
    match w
    case BYTE => Small(bs[0])
    case WORD => Int(ReadInt32(bs))
    case LONG => Wide(ReadInt64(bs))
  }

  datatype Read = Read(operands: seq<Operand>, rest: seq<byte>) | Short

  function ReadOperands(ws: seq<Width>, bs: seq<byte>): (r: Read)
    ensures r.Read? ==> |r.rest| <= |bs|
  {
    if ws == [] then Read([], bs)
    else if |bs| < Length(ws[0]) then Short
    else match ReadOperands(ws[1..], bs[Length(ws[0])..])
      case Short => Short
      case Read(os, rest) => Read([ReadOperand(ws[0], bs[..Length(ws[0])])] + os, rest)
  }

  datatype Fetch = Fetched(instr: Instr, rest: seq<byte>) | NoInstr

  /** One turn of the loop of vm_run reads the opcode and then its operands. */
  function Decode(bs: seq<byte>): (f: Fetch)
    ensures f.Fetched? ==> |f.rest| < |bs|
  {
    if bs == [] || bs[0] >= OPCODES || !HasCase(OpAt(bs[0])) then NoInstr
    else match ReadOperands(Layout(OpAt(bs[0])), bs[1..])
      case Short => NoInstr
      case Read(os, rest) => Fetched(Instr(OpAt(bs[0]), os), rest)
  }

  datatype Listing = Listing(instrs: seq<Instr>) | Garbage

  function Disassemble(bs: seq<byte>): Listing
    decreases |bs|
  {
    if bs == [] then Listing([])
    else match Decode(bs)
      case NoInstr => Garbage
      case Fetched(i, rest) =>
        match Disassemble(rest)
        case Garbage => Garbage
        case Listing(list) => Listing([i] + list)
  }

  // ----- there and back -----

  lemma OperandBack(o: Operand, rest: seq<byte>)
    ensures var bs := EncodeOperand(o) + rest; var n := Length(WidthOf(o));
            bs[..n] == EncodeOperand(o) && bs[n..] == rest && ReadOperand(WidthOf(o), bs[..n]) == o
  {
    var bs := EncodeOperand(o) + rest;
    assert bs[..Length(WidthOf(o))] == EncodeOperand(o);
    match o
    case Small(_) =>
    case Int(n) => ReadBack32(n);
    case Wide(n) => ReadBack64(n);
  }

  lemma {:induction false} OperandsBack(ws: seq<Width>, os: seq<Operand>, rest: seq<byte>)
    requires |os| == |ws| && forall i | 0 <= i < |os| :: WidthOf(os[i]) == ws[i]
    ensures ReadOperands(ws, EncodeOperands(os) + rest) == Read(os, rest)
    decreases |os|
  {
    hide EncodeOperand, ReadOperand;
    if os != [] {
      var more := EncodeOperands(os[1..]) + rest;
      assert EncodeOperands(os) + rest == EncodeOperand(os[0]) + more;
      OperandBack(os[0], more);
      OperandsBack(ws[1..], os[1..], rest);
      assert [os[0]] + os[1..] == os;
    } else {
      assert [] + rest == rest;
    }
  }

  /** Decoding gives back the instruction, for all 52 opcodes, and what follows it. */
  lemma DecodeEncode(i: Instr, rest: seq<byte>)
    requires i.Valid()
    ensures Decode(Encode(i) + rest) == Fetched(i, rest)
  {
    hide Layout, EncodeOperands, ReadOperands, Number, OpAt;
    NumberBack(i.op);
    var bs := Encode(i) + rest;
    assert bs[1..] == EncodeOperands(i.operands) + rest;
    OperandsBack(Layout(i.op), i.operands, rest);
  }

  /** Disassembling the bytes of any list of valid instructions gives the list back. */
  lemma {:induction false} RoundTrip(list: seq<Instr>)
    requires forall i | i in list :: i.Valid()
    ensures Disassemble(Assemble(list)) == Listing(list)
    decreases |list|
  {
    hide Encode, Decode;
    if list != [] {
      assert list[0] in list;
      DecodeEncode(list[0], Assemble(list[1..]));
      RoundTrip(list[1..]);
      assert [list[0]] + list[1..] == list;
      SomeBytes(list[0]);
    }
  }

  lemma SomeBytes(i: Instr)
    ensures Encode(i) != []
  {}

  lemma {:induction false} DecodedIsValid(bs: seq<byte>)
    ensures Decode(bs).Fetched? ==> Decode(bs).instr.Valid() && Encode(Decode(bs).instr) + Decode(bs).rest == bs
  {
    hide Layout, Number, OpAt;
    if Decode(bs).Fetched? {
      var op := OpAt(bs[0]);
      NumbersDiffer(bs[0]);
      ReadIsValid(Layout(op), bs[1..]);
      var f := Decode(bs);
      assert [bs[0]] + EncodeOperands(f.instr.operands) + f.rest == [bs[0]] + (EncodeOperands(f.instr.operands) + f.rest);
    }
  }

  lemma {:induction false} ReadIsValid(ws: seq<Width>, bs: seq<byte>)
    ensures var r := ReadOperands(ws, bs);
            r.Read? ==> |r.operands| == |ws| && EncodeOperands(r.operands) + r.rest == bs
    ensures var r := ReadOperands(ws, bs);
            r.Read? ==> forall i | 0 <= i < |ws| :: WidthOf(r.operands[i]) == ws[i]
    decreases |ws|
  {
    hide ReadOperand, EncodeOperand, EncodeOperands;
    var r := ReadOperands(ws, bs);
    if ws == [] {
      OneOperand([]);
    } else if r.Read? {
      var n := Length(ws[0]);
      ReadIsValid(ws[1..], bs[n..]);
      ReadIsWritten(ws[0], bs[..n]);
      WriteMore(ReadOperand(ws[0], bs[..n]), ReadOperands(ws[1..], bs[n..]).operands, r.rest, bs, n);
    }
  }

  lemma WriteMore(o: Operand, more: seq<Operand>, rest: seq<byte>, bs: seq<byte>, n: nat)
    requires n <= |bs| && EncodeOperand(o) == bs[..n] && EncodeOperands(more) + rest == bs[n..]
    ensures EncodeOperands([o] + more) + rest == bs
  {
    hide EncodeOperand;
    assert ([o] + more)[1..] == more;
    assert bs == bs[..n] + bs[n..];
  }

  lemma ReadIsWritten(w: Width, bs: seq<byte>)
    requires |bs| == Length(w)
    ensures EncodeOperand(ReadOperand(w, bs)) == bs
  {
    LittleEndianSigned(bs);
  }

  /** Whatever bytes can be read as a list of instructions are the bytes of that list. */
  lemma {:induction false} DisassembledAssembles(bs: seq<byte>)
    ensures Disassemble(bs).Listing? ==> Assemble(Disassemble(bs).instrs) == bs
    decreases |bs|
  {
    hide Decode, Encode;
    if bs != [] && Decode(bs).Fetched? {
      DecodedIsValid(bs);
      var f := Decode(bs);
      DisassembledAssembles(f.rest);
      if Disassemble(f.rest).Listing? {
        assert ([f.instr] + Disassemble(f.rest).instrs)[1..] == Disassemble(f.rest).instrs;
      }
    }
  }

  // ----- patching -----

  lemma {:induction false} AssembleAppend(a: seq<Instr>, b: seq<Instr>)
    ensures Assemble(a + b) == Assemble(a) + Assemble(b)
    decreases |a|
  {
    hide Encode;
    if a == [] {
      assert a + b == b;
    } else {
      assert (a + b)[1..] == a[1..] + b;
      AssembleAppend(a[1..], b);
    }
  }

  lemma Around(list: seq<Instr>, k: nat)
    requires k < |list|
    ensures Assemble(list) == Assemble(list[..k]) + Encode(list[k]) + Assemble(list[k + 1..])
  {
    hide Encode;
    assert list == list[..k] + list[k..];
    AssembleAppend(list[..k], list[k..]);
    assert list[k..][1..] == list[k + 1..];
  }

  /** patch_int32 on the first operand of the k-th instruction, when that is an int32, gives the bytes of
      the list with this one operand changed. */
  lemma PatchChangesOneOperand(list: seq<Instr>, k: nat, v: int32)
    requires (forall i | i in list :: i.Valid()) && k < |list| && list[k].operands != [] && list[k].operands[0].Int?
    ensures var at := |Assemble(list[..k])| + 1;
            var changed := list[k].(operands := list[k].operands[0 := Int(v)]);
            at + 4 <= |Assemble(list)| && changed.Valid()
            && Patch(Assemble(list), at, v) == Assemble(list[k := changed])
            && Disassemble(Patch(Assemble(list), at, v)) == Listing(list[k := changed])
  {
    hide Layout, Number, Le32;
    var i := list[k];
    var changed := i.(operands := i.operands[0 := Int(v)]);
    var now := list[k := changed];
    assert i in list;
    Around(list, k);
    Around(now, k);
    assert now[..k] == list[..k] && now[k + 1..] == list[k + 1..];
    var before, after := Assemble(list[..k]) + [Number(i.op)], EncodeOperands(i.operands[1..]) + Assemble(list[k + 1..]);
    assert changed.operands[1..] == i.operands[1..];
    FirstOperand(Assemble(list[..k]), i, Assemble(list[k + 1..]));
    FirstOperand(Assemble(list[..k]), changed, Assemble(list[k + 1..]));
    PatchMiddle(before, Le32(i.operands[0].n), after, v);
    forall j | j in now
      ensures j.Valid()
    {
      if j != changed {
        var m :| 0 <= m < |now| && now[m] == j;
        assert list[m] in list;
      }
    }
    RoundTrip(now);
  }

  lemma FirstOperand(before: seq<byte>, i: Instr, after: seq<byte>)
    requires i.operands != [] && i.operands[0].Int?
    ensures before + Encode(i) + after
            == (before + [Number(i.op)]) + Le32(i.operands[0].n) + (EncodeOperands(i.operands[1..]) + after)
  {
    hide Number, Le32;
  }

  // ----- the instructions of the compiler's fragment -----

  function OpOf(op: Values.Operator): Op {
    OpAt(M.OperatorByte(op))
  }

  /** An instruction of the fragment that the compiler and the machine of this project share. */
  function Embed(i: M.Instr): Instr {
    match i
    case HALT => Instr(HALT, [])
    case PUSH_INT(n) => Instr(PUSH_INT, [Wide(n)])
    case PUSH_BOOL(b) => Instr(PUSH_BOOL, [Small(if b then 1 else 0)])
    case OPER(op) => Instr(OpOf(op), [])
    case PRINT => Instr(PRINT, [])
    case STORE(s) => Instr(STORE, [Small(s)])
    case LOAD(s) => Instr(LOAD, [Small(s)])
    case JUMP(a) => Instr(JUMP, [Int(a)])
    case JUMP_IF_F(a) => Instr(JUMP_IF_F, [Int(a)])
    case CALL(a) => Instr(CALL, [Int(a)])
    case RET => Instr(RET, [])
    case POP => Instr(POP, [])
    case TRY(a) => Instr(TRY, [Int(a)])
    case END_TRY => Instr(END_TRY, [])
    case THROW => Instr(THROW, [])
    case IS_TRUTHY => Instr(IS_TRUTHY, [])
  }

  lemma EmbedNumber(i: M.Instr)
    ensures Number(Embed(i).op) == M.Opcode(i)
  {
    if i.OPER? {
      NumbersDiffer(M.OperatorByte(i.op));
    }
  }

  lemma OperatorIsValid(op: Values.Operator)
    ensures HasCase(OpOf(op)) && Layout(OpOf(op)) == []
  {}

  lemma EmbedIsValid(i: M.Instr)
    ensures Embed(i).Valid()
  {
    hide OpOf;
    if i.OPER? {
      OperatorIsValid(i.op);
    }
  }

  lemma OneOperand(os: seq<Operand>)
    ensures EncodeOperands([]) == [] && (|os| == 1 ==> EncodeOperands(os) == EncodeOperand(os[0]))
  {
    if |os| == 1 {
      assert os[1..] == [];
    }
  }

  /** Both encodings give the same bytes. */
  lemma SameBytes(i: M.Instr)
    ensures Embed(i).Valid() && Encode(Embed(i)) == M.Encode(i)
  {
    hide Le32, Le64, EncodeOperands, Number, OpAt;
    EmbedNumber(i);
    EmbedIsValid(i);
    OneOperand(Embed(i).operands);
  }
}
