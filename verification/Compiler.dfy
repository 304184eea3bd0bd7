/** The one-pass compiler as it is written: a cursor over the tokens, a stack of types, a table of
    locals and a growing buffer, updated step by step. Every routine does to this state what its
    specification in module Parsing says. */
module OnePass {
  import opened Bytes
  import opened Values
  import opened Machine
  import opened Syntax
  import opened Semantics
  import opened CodeGen
  import opened Emission
  import opened Tokens
  import opened Chunks
  import P = Parsing

  const LOCALS_CAPACITY: nat := 256

  class Compiler {
    var toks: Tokens
    var prev: Token
    var fault: P.Fault
    const typeStack: array<Type>
    var typeCount: nat
    const localTable: array<Local>
    var localCount: nat
    var ret: Option<Type>
    var funcs: seq<Function>
    var loops: seq<Loop>
    const chunk: Chunk

    ghost predicate Valid()
      reads this, chunk
    {
      && typeStack.Length == STACK_MAX && typeCount <= STACK_MAX
      && localTable.Length == LOCALS_CAPACITY && localCount <= LOCALS_CAPACITY
      && chunk.Valid()
    }

    /** The state that the specification talks about. */
    ghost function State(): (s: P.State)
      requires Valid()
      reads this, typeStack, localTable, chunk, chunk.code
      ensures s.toks == toks && s.prev == prev && s.ret == ret && s.fault == fault
      ensures |s.types| == typeCount && |s.locals| == localCount
      ensures |s.out.code| == chunk.count && s.out.funcs == funcs && s.out.loops == loops
    {
      P.State(toks, prev, typeStack[..typeCount], localTable[..localCount], ret, Output(chunk.Contents(), funcs, loops), fault)
    }

    constructor (ts: Tokens)
      ensures Valid() && fresh(chunk) && fresh(chunk.code) && fresh(typeStack) && fresh(localTable) && State() == P.Start(ts)
    {
      toks, prev, fault := ts, Token(EOF, 0), P.NoFault;
      typeStack := new Type[STACK_MAX](_ => TVoid);
      typeCount := 0;
      localTable := new Local[LOCALS_CAPACITY](_ => Local(0, TVoid));
      localCount := 0;
      ret := Some(TVoid);
      funcs, loops := [], [];
      chunk := new Chunk();
    }

    // ----- primitives -----

    function Current(): (k: Kind)
      reads this, chunk, typeStack, localTable, chunk.code
      ensures Valid() ==> k == P.Current(State())
    {
      if toks.Eof? then EOF else toks.head.kind
    }

    predicate ImplicitTerminator()
      reads this, chunk, typeStack, localTable, chunk.code
      ensures Valid() ==> ImplicitTerminator() == P.ImplicitTerminator(State())
    {
      !toks.Eof? && toks.head.line > prev.line && CanEnd(prev.kind)
    }

    method Advance()
      requires Valid()
      modifies this
      ensures Valid() && State() == P.Advance(old(State()))
    {
      if toks.Eof? {
        prev := Token(EOF, prev.line);
      } else {
        prev := toks.head;
        toks := toks.tail;
      }
    }

    method Reject()
      requires Valid()
      modifies this
      ensures Valid() && State() == P.Reject(old(State()))
    {
      if fault.NoFault? {
        fault := P.Rejected;
      }
    }

    method Outside()
      requires Valid()
      modifies this
      ensures Valid() && State() == P.Outside(old(State()))
    {
      if fault.NoFault? {
        fault := P.Unmodelled;
      }
    }

    method Consume(k: Kind)
      requires Valid()
      modifies this
      ensures Valid() && State() == P.Consume(old(State()), k)
    {
      if Current() == k {
        Advance();
      } else {
        Reject();
      }
    }

    method Check(ok: bool)
      requires Valid()
      modifies this
      ensures Valid() && State() == P.Check(old(State()), ok)
    {
      if !ok {
        Reject();
      }
    }

    method Terminator()
      requires Valid()
      modifies this
      ensures Valid() && State() == P.Terminator(old(State()))
    {
      if Current() == SEMICOLON {
        Advance();
      }
    }

    method PushType(t: Type)
      requires Valid()
      modifies this, typeStack
      ensures Valid() && State() == P.PushType(old(State()), t)
    {
      if typeCount >= STACK_MAX {
        Reject();
      } else {
        typeStack[typeCount] := t;
        typeCount := typeCount + 1;
      }
    }

    method PopType() returns (t: Type)
      requires Valid()
      modifies this
      ensures Valid() && t == P.TopType(old(State())) && State() == P.PopType(old(State()))
    {
      if typeCount == 0 {
        Reject();
        t := TVoid;
      } else {
        typeCount := typeCount - 1;
        t := typeStack[typeCount];
      }
    }

    method AddLocal(x: Name, t: Type)
      requires Valid()
      modifies this, localTable
      ensures Valid() && State() == P.AddLocal(old(State()), x, t) && localCount > 0
    {
      if localCount == LOCALS_CAPACITY {
        Reject();
      } else {
        localTable[localCount] := Local(x, t);
        localCount := localCount + 1;
      }
    }

    /** resolve_local: the search goes from the newest local to the oldest. */
    method ResolveLocal(x: Name) returns (slot: int)
      requires Valid()
      ensures slot == Resolve(State().locals, x)
    {
      slot := localCount - 1;
      while slot >= 0
        invariant -1 <= slot < localCount
        invariant Resolve(localTable[..localCount], x) == Resolve(localTable[..slot + 1], x)
      {
        if localTable[slot].name == x {
          return;
        }
        assert localTable[..slot + 1][..slot] == localTable[..slot];
        slot := slot - 1;
      }
    }

    function LocalType(slot: nat): (t: Type)
      requires Valid() && slot < localCount
      reads this, typeStack, localTable, chunk, chunk.code
      ensures t == State().locals[slot].ty
    {
      localTable[slot].ty
    }

    /** find_function. */
    method FindFunction(x: Name) returns (i: int)
      ensures i == Find(funcs, x)
    {
      i := 0;
      while i < |funcs|
        invariant 0 <= i <= |funcs|
        invariant forall j :: 0 <= j < i ==> funcs[j].name != x
      {
        if funcs[i].name == x {
          return;
        }
        i := i + 1;
      }
      i := -1;
    }

    method Gen(i: Instr)
      requires Valid()
      modifies this, typeStack, localTable, chunk, chunk.code
      ensures Valid() && (chunk.code == old(chunk.code) || fresh(chunk.code)) && State() == P.Gen(old(State()), i)
      ensures chunk.count >= old(chunk.count) + (if HasTarget(i) then 5 else 1) && toks == old(toks) && |loops| == |old(loops)|
    {
      chunk.EmitInstr(i);
    }

    /** The operand at offset gets the current position. */
    method Fix(offset: nat)
      requires Valid() && offset + 4 <= chunk.count
      modifies this, typeStack, localTable, chunk, chunk.code
      ensures Valid() && (chunk.code == old(chunk.code) || fresh(chunk.code)) && State() == P.Fix(old(State()), offset)
    {
      chunk.PatchInt32(offset, Narrow(chunk.count));
    }

    // ----- expressions -----

    method ParseType() returns (t: Type)
      requires Valid()
      modifies this
      ensures Valid() && P.TypeResult(State(), t) == P.ParseType(old(State()))
    {
      var k := Current();
      Advance();
      t := TVoid;
      if !k.ID? || Current() == DOT || Current() == QUESTION || Current() == BANG {
        Outside();
      } else if k.x == INT_NAME {
        t := TInt;
      } else if k.x == BOL_NAME {
        t := TBool;
      } else if k.x == ANY_NAME {
        t := TAny;
      } else if k.x != VOID_NAME {
        Outside();
      }
    }

    method Expression()
      requires Valid()
      modifies this, typeStack, localTable, chunk, chunk.code
      ensures Valid() && (chunk.code == old(chunk.code) || fresh(chunk.code)) && State() == P.Expression(old(State()))
      decreases Len(toks), 3
    {
      ParsePrecedence(PREC_ASSIGNMENT);
    }

    /** parse_precedence: one prefix rule, then infix rules while they bind tightly enough. */
    method ParsePrecedence(prec: nat)
      requires Valid() && prec > 0
      modifies this, typeStack, localTable, chunk, chunk.code
      ensures Valid() && (chunk.code == old(chunk.code) || fresh(chunk.code)) && State() == P.ParsePrecedence(old(State()), prec)
      decreases Len(toks), 2
    {
      hide State, P.Gen, P.Fix, P.PushType, P.PopType, P.TopType, P.Terminator, P.Advance, P.Consume, P.Check, P.Reject, P.Outside, P.Prefix, P.Infix;
      var atEnd := toks.Eof?;
      Advance();
      if atEnd || !P.HasPrefix(prev.kind) {
        Reject();
        return;
      }
      Prefix();
      ghost var start := State();
      while prec <= Precedence(Current()) && !ImplicitTerminator()
        invariant Valid() && (chunk.code == old(chunk.code) || fresh(chunk.code))
        invariant P.Infixes(State(), prec) == P.Infixes(start, prec)
        invariant Len(toks) < Len(old(toks))
        decreases Len(toks)
      {
        Advance();
        Infix();
      }
    }

    method Prefix()
      requires Valid()
      modifies this, typeStack, localTable, chunk, chunk.code
      ensures Valid() && (chunk.code == old(chunk.code) || fresh(chunk.code)) && State() == P.Prefix(old(State()))
      decreases Len(toks), 5
    {
      hide State, P.Gen, P.Fix, P.PushType, P.PopType, P.TopType, P.Terminator, P.Advance, P.Consume, P.Check, P.Reject, P.Outside, P.Variable, P.UnaryRule, P.Grouping, P.BreakOp, P.ContinueOp, P.ReturnOp, P.ThrowOp;
      match prev.kind
      case INT(n) =>
        Gen(PUSH_INT(P.Saturated(n)));
        PushType(TInt);
      case BOOL(b) =>
        Gen(PUSH_BOOL(b));
        PushType(TBool);
      case ID(x) => Variable(x);
      case MINUS => UnaryRule(Minus);
      case BANG => UnaryRule(Bang);
      case LPAREN => Grouping();
      case DOT => BreakOp();
      case DOT_DOT => ContinueOp();
      case HAT => ReturnOp();
      case KEY_THROW => ThrowOp();
      case _ => Outside();
    }

    method Infix()
      requires Valid()
      modifies this, typeStack, localTable, chunk, chunk.code
      ensures Valid() && (chunk.code == old(chunk.code) || fresh(chunk.code)) && State() == P.Infix(old(State()))
      decreases Len(toks), 5
    {
      var op := BinaryOf(prev.kind);
      if op.Some? {
        BinaryRule(op.value, Precedence(prev.kind));
      } else if prev.kind == BANG_BANG {
        PrintOp();
      } else if prev.kind == ASSIGN {
        Assignment();
      } else {
        Outside();
      }
    }

    method GenOperator(op: BinOp)
      requires Valid()
      modifies this, typeStack, localTable, chunk, chunk.code
      ensures Valid() && (chunk.code == old(chunk.code) || fresh(chunk.code)) && State() == P.GenOperator(old(State()), op)
    {
      if op == NotEqual {
        Gen(OPER(EQ));
        Gen(OPER(NOT));
      } else {
        Gen(OPER(MachineOp(op)));
      }
    }

    method BinaryRule(op: BinOp, prec: nat)
      requires Valid()
      modifies this, typeStack, localTable, chunk, chunk.code
      ensures Valid() && (chunk.code == old(chunk.code) || fresh(chunk.code)) && State() == P.BinaryRule(old(State()), op, prec)
      decreases Len(toks), 4
    {
      hide State, P.Gen, P.Fix, P.PushType, P.PopType, P.TopType, P.Terminator, P.Advance, P.Consume, P.Check, P.Reject, P.Outside, P.ParsePrecedence, P.GenOperator, P.Accepts, P.ResultType;
      ParsePrecedence(prec + 1);
      var b := PopType();
      var a := PopType();
      Check(P.Accepts(op, a, b));
      GenOperator(op);
      PushType(P.ResultType(op, a));
    }

    method UnaryRule(op: UnOp)
      requires Valid()
      modifies this, typeStack, localTable, chunk, chunk.code
      ensures Valid() && (chunk.code == old(chunk.code) || fresh(chunk.code)) && State() == P.UnaryRule(old(State()), op)
      decreases Len(toks), 4
    {
      hide State, P.Gen, P.Fix, P.PushType, P.PopType, P.TopType, P.Terminator, P.Advance, P.Consume, P.Check, P.Reject, P.Outside, P.ParsePrecedence;
      ParsePrecedence(PREC_UNARY);
      var t := PopType();
      Check(t == (if op == Minus then TInt else TBool));
      Gen(OPER(if op == Minus then NEG else NOT));
      PushType(t);
    }

    method Grouping()
      requires Valid()
      modifies this, typeStack, localTable, chunk, chunk.code
      ensures Valid() && (chunk.code == old(chunk.code) || fresh(chunk.code)) && State() == P.Grouping(old(State()))
      decreases Len(toks), 4
    {
      Expression();
      Consume(RPAREN);
    }

    method Variable(x: Name)
      requires Valid()
      modifies this, typeStack, localTable, chunk, chunk.code
      ensures Valid() && (chunk.code == old(chunk.code) || fresh(chunk.code)) && State() == P.Variable(old(State()), x)
      decreases Len(toks), 4
    {
      hide State, P.Gen, P.Fix, P.PushType, P.PopType, P.TopType, P.Terminator, P.Advance, P.Consume, P.Check, P.Reject, P.Outside, P.FunctionName, P.Steady;
      var slot := ResolveLocal(x);
      if slot >= 0 {
        if Current() == LPAREN {
          Reject();
        } else {
          var ty := LocalType(slot);
          Gen(LOAD(SlotByte(slot)));
          PushType(ty);
        }
      } else if Current() == DOT || IsNative(x) {
        Outside();
      } else {
        FunctionName(x);
      }
    }

    method FunctionName(x: Name)
      requires Valid()
      modifies this, typeStack, localTable, chunk, chunk.code
      ensures Valid() && (chunk.code == old(chunk.code) || fresh(chunk.code)) && State() == P.FunctionName(old(State()), x)
      decreases Len(toks), 3
    {
      hide State, P.Gen, P.Fix, P.PushType, P.PopType, P.TopType, P.Terminator, P.Consume, P.Check, P.Reject, P.Outside, P.CallFunction;
      var i := FindFunction(x);
      if i < 0 {
        Reject();
      } else if Current() == LPAREN {
        Advance();
        CallFunction(i);
      } else {
        Outside();
      }
    }

    method CallFunction(i: nat)
      requires Valid() && i < |funcs|
      modifies this, typeStack, localTable, chunk, chunk.code
      ensures Valid() && (chunk.code == old(chunk.code) || fresh(chunk.code)) && State() == P.CallFunction(old(State()), i)
      decreases Len(toks), 5
    {
      hide State, P.Gen, P.Fix, P.PushType, P.PopType, P.TopType, P.Terminator, P.Advance, P.Consume, P.Check, P.Reject, P.Outside, P.Arguments;
      var f := funcs[i];
      var count := 0;
      if Current() != RPAREN {
        count := Arguments(f.params);
      }
      Consume(RPAREN);
      Check(count == |f.params|);
      Check(f.ret.Some?);
      if f.ret.Some? {
        EmitDirectFunctionCall(i);
        PushType(f.ret.value);
      }
    }

    /** The do-while loop over the arguments. */
    method Arguments(params: seq<Type>) returns (n: nat)
      requires Valid()
      modifies this, typeStack, localTable, chunk, chunk.code
      ensures Valid() && (chunk.code == old(chunk.code) || fresh(chunk.code))
      ensures P.ArgsResult(State(), n) == P.Arguments(old(State()), params, 0)
      decreases Len(toks), 4
    {
      hide State, P.Gen, P.Fix, P.PushType, P.PopType, P.TopType, P.Terminator, P.Advance, P.Consume, P.Check, P.Reject, P.Outside, P.Expression;
      n := 0;
      var more := true;
      while more
        invariant Valid() && (chunk.code == old(chunk.code) || fresh(chunk.code))
        invariant more ==> P.Arguments(State(), params, n) == P.Arguments(old(State()), params, 0)
        invariant !more ==> P.ArgsResult(State(), n) == P.Arguments(old(State()), params, 0)
        invariant Len(toks) <= Len(old(toks))
        decreases more, Len(toks)
      {
        Expression();
        var t := PopType();
        Check(n < |params| ==> Assignable(params[n], t));
        n := n + 1;
        if Current() == COMMA {
          Advance();
        } else {
          more := false;
        }
      }
    }

    /** emit_direct_function_call. */
    method EmitDirectFunctionCall(i: nat)
      requires Valid() && i < |funcs|
      modifies this, typeStack, localTable, chunk, chunk.code
      ensures Valid() && (chunk.code == old(chunk.code) || fresh(chunk.code))
      ensures State() == old(State()).(out := EmitCall(old(State()).out, i))
    {
      var offset := chunk.count + 1;
      var f := funcs[i];
      Gen(CALL(f.addr));
      if f.addr == -1 && |f.pending| < PENDING_MAX {
        funcs := funcs[i := f.(pending := f.pending + [offset])];
      }
    }

    method Assignment()
      requires Valid()
      modifies this, typeStack, localTable, chunk, chunk.code
      ensures Valid() && (chunk.code == old(chunk.code) || fresh(chunk.code)) && State() == P.Assignment(old(State()))
      decreases Len(toks), 4
    {
      hide State, P.Gen, P.Fix, P.PushType, P.PopType, P.TopType, P.Terminator, P.Advance, P.Consume, P.Check, P.Reject, P.Outside, P.StoreTo, P.ParseType;
      if !Current().ID? {
        Reject();
        return;
      }
      var x := Current().x;
      Advance();
      if Current() == DOT {
        Outside();
      } else if Current() == COLON {
        Advance();
        var declared := ParseType();
        var value := PopType();
        Check(Assignable(declared, value));
        StoreTo(x, declared);
      } else {
        var slot := ResolveLocal(x);
        var known := if slot >= 0 then LocalType(slot) else TVoid;
        var value := PopType();
        Check(slot >= 0 ==> Assignable(known, value));
        StoreTo(x, value);
      }
    }

    method StoreTo(x: Name, t: Type)
      requires Valid()
      modifies this, typeStack, localTable, chunk, chunk.code
      ensures Valid() && (chunk.code == old(chunk.code) || fresh(chunk.code)) && State() == P.StoreTo(old(State()), x, t)
    {
      var slot := ResolveLocal(x);
      if slot < 0 {
        AddLocal(x, t);
        slot := localCount - 1;
      }
      Gen(STORE(SlotByte(slot)));
      PushType(TVoid);
    }

    method PrintOp()
      requires Valid()
      modifies this, typeStack, localTable, chunk, chunk.code
      ensures Valid() && (chunk.code == old(chunk.code) || fresh(chunk.code)) && State() == P.PrintOp(old(State()))
    {
      var _ := PopType();
      Gen(PRINT);
      PushType(TVoid);
    }

    method ThrowOp()
      requires Valid()
      modifies this, typeStack, localTable, chunk, chunk.code
      ensures Valid() && (chunk.code == old(chunk.code) || fresh(chunk.code)) && State() == P.ThrowOp(old(State()))
      decreases Len(toks), 4
    {
      Expression();
      Gen(THROW);
      var _ := PopType();
      PushType(TVoid);
    }

    method BreakOp()
      requires Valid()
      modifies this, typeStack, localTable, chunk, chunk.code
      ensures Valid() && (chunk.code == old(chunk.code) || fresh(chunk.code)) && State() == P.BreakOp(old(State()))
    {
      var n := |loops|;
      if n == 0 || |loops[n - 1].breaks| >= BREAKS_MAX {
        Reject();
      } else {
        loops := loops[n - 1 := loops[n - 1].(breaks := loops[n - 1].breaks + [chunk.count + 1])];
        Gen(JUMP(0));
        PushType(TVoid);
      }
    }

    method ContinueOp()
      requires Valid()
      modifies this, typeStack, localTable, chunk, chunk.code
      ensures Valid() && (chunk.code == old(chunk.code) || fresh(chunk.code)) && State() == P.ContinueOp(old(State()))
    {
      hide P.Gen, P.PushType, P.Reject;
      if |loops| == 0 {
        Reject();
      } else {
        Gen(JUMP(Narrow(loops[|loops| - 1].start)));
        PushType(TVoid);
      }
    }

    method ReturnOp()
      requires Valid()
      modifies this, typeStack, localTable, chunk, chunk.code
      ensures Valid() && (chunk.code == old(chunk.code) || fresh(chunk.code)) && State() == P.ReturnOp(old(State()))
      decreases Len(toks), 4
    {
      hide State, P.Gen, P.Fix, P.PushType, P.PopType, P.TopType, P.Terminator, P.Advance, P.Consume, P.Check, P.Reject, P.Outside, P.Expression, P.Returning;
      var t := TVoid;
      if Current() == RBRACKET || Current() == SEMICOLON || ImplicitTerminator() {
        Returning(t);
        Gen(PUSH_INT(0));
      } else {
        Expression();
        t := PopType();
        Returning(t);
      }
      Gen(RET);
      PushType(t);
    }

    method Returning(t: Type)
      requires Valid()
      modifies this
      ensures Valid() && State() == P.Returning(old(State()), t)
    {
      if ret.None? {
        ret := Some(t);
      } else {
        Check(Assignable(ret.value, t));
      }
    }

    // ----- statements -----

    method Statement()
      requires Valid()
      modifies this, typeStack, localTable, chunk, chunk.code
      ensures Valid() && (chunk.code == old(chunk.code) || fresh(chunk.code)) && State() == P.Statement(old(State()))
      decreases Len(toks), 5
    {
      hide State, P.Gen, P.Fix, P.PushType, P.PopType, P.TopType, P.Terminator, P.Advance, P.Consume, P.Check, P.Reject, P.Outside, P.IfStatement, P.LoopStatement, P.TryStatement, P.Condition, P.Expression;
      if Current() == SEMICOLON {
        Advance();
        PushType(TVoid);
      } else if Current() == KEY_TRY {
        Advance();
        TryStatement();
      } else {
        var start := chunk.count;
        Expression();
        if Current() == QUESTION {
          Condition();
          Advance();
          IfStatement();
        } else if Current() == AT {
          Condition();
          Advance();
          LoopStatement(start);
        } else {
          Terminator();
        }
      }
    }

    method Condition()
      requires Valid()
      modifies this, typeStack, localTable, chunk, chunk.code
      ensures Valid() && (chunk.code == old(chunk.code) || fresh(chunk.code)) && State() == P.Condition(old(State()))
    {
      var t := PopType();
      if t != TBool {
        Gen(IS_TRUTHY);
      }
    }

    method BlockOrStatement()
      requires Valid()
      modifies this, typeStack, localTable, chunk, chunk.code
      ensures Valid() && (chunk.code == old(chunk.code) || fresh(chunk.code)) && State() == P.BlockOrStatement(old(State()))
      decreases Len(toks), 8
    {
      if Current() == LBRACKET {
        BlockRule();
      } else {
        Statement();
      }
    }

    method IfStatement()
      requires Valid()
      modifies this, typeStack, localTable, chunk, chunk.code
      ensures Valid() && (chunk.code == old(chunk.code) || fresh(chunk.code)) && State() == P.IfStatement(old(State()))
      decreases Len(toks), 10
    {
      hide State, P.Gen, P.Fix, P.PushType, P.PopType, P.TopType, P.Terminator, P.Advance, P.Consume, P.Check, P.Reject, P.Outside, P.BlockOrStatement, P.ElseBranch;
      var hole := chunk.count + 1;
      Gen(JUMP_IF_F(0));
      BlockOrStatement();
      var t1 := PopType();
      var leave := chunk.count + 1;
      Gen(JUMP(0));
      Fix(hole);
      ElseBranch(t1);
      Fix(leave);
      Terminator();
    }

    method ElseBranch(t1: Type)
      requires Valid()
      modifies this, typeStack, localTable, chunk, chunk.code
      ensures Valid() && (chunk.code == old(chunk.code) || fresh(chunk.code)) && State() == P.ElseBranch(old(State()), t1)
      decreases Len(toks), 9
    {
      hide State, P.PushType, P.PopType, P.TopType, P.BlockOrStatement, P.Joined;
      if Current() == COLON {
        Advance();
        BlockOrStatement();
        var t2 := PopType();
        PushType(P.Joined(t1, t2));
      } else {
        PushType(TVoid);
      }
    }

    /** The body of a loop, its back jump, and the patches of its test and its breaks. */
    method LoopStatement(start: nat)
      requires Valid()
      modifies this, typeStack, localTable, chunk, chunk.code
      ensures Valid() && (chunk.code == old(chunk.code) || fresh(chunk.code)) && State() == P.LoopStatement(old(State()), start)
      decreases Len(toks), 9
    {
      hide State, P.Gen, P.Fix, P.PushType, P.PopType, P.TopType, P.Terminator, P.Advance, P.Consume, P.Check, P.Reject, P.Outside, P.BlockOrStatement, P.EndLoop, PushLoop;
      EnterLoop(start);
      var hole := chunk.count + 1;
      Gen(JUMP_IF_F(0));
      BlockOrStatement();
      var _ := PopType();
      Gen(JUMP(Narrow(start)));
      EndLoop(hole);
    }

    method EndLoop(hole: nat)
      requires Valid() && loops != [] && hole + 4 <= chunk.count
      modifies this, typeStack, localTable, chunk, chunk.code
      ensures Valid() && (chunk.code == old(chunk.code) || fresh(chunk.code)) && State() == P.EndLoop(old(State()), hole)
    {
      hide P.PushType, P.Terminator, PopLoop;
      Fix(hole);
      LeaveLoop();
      Terminator();
      PushType(TVoid);
    }

    method EnterLoop(start: nat)
      requires Valid()
      modifies this
      ensures Valid() && State() == old(State()).(out := PushLoop(old(State()).out, start)) && loops != []
    {
      loops := loops + [Loop(start, [])];
    }

    method LeaveLoop()
      requires Valid() && loops != []
      modifies this, typeStack, localTable, chunk, chunk.code
      ensures Valid() && (chunk.code == old(chunk.code) || fresh(chunk.code))
      ensures State() == old(State()).(out := PopLoop(old(State()).out))
    {
      var n := |loops| - 1;
      PatchEach(loops[n].breaks, chunk.count);
      loops := loops[..n];
    }

    /** patch_int32 at each of some offsets. */
    method PatchEach(offsets: seq<nat>, target: nat)
      requires Valid()
      modifies this, typeStack, localTable, chunk, chunk.code
      ensures Valid() && (chunk.code == old(chunk.code) || fresh(chunk.code))
      ensures State() == old(State()).(out := old(State()).out.(code := PatchAll(old(State()).out.code, offsets, Narrow(target))))
    {
      for i := 0 to |offsets|
        invariant Valid() && (chunk.code == old(chunk.code) || fresh(chunk.code))
        invariant State() == old(State()).(out := old(State()).out.(code := chunk.Contents()))
        invariant PatchAll(chunk.Contents(), offsets[i..], Narrow(target)) == PatchAll(old(chunk.Contents()), offsets, Narrow(target))
      {
        assert offsets[i..][0] == offsets[i] && offsets[i..][1..] == offsets[i + 1..];
        if offsets[i] + 4 <= chunk.count {
          chunk.PatchInt32(offsets[i], Narrow(target));
        }
      }
    }

    method TryStatement()
      requires Valid()
      modifies this, typeStack, localTable, chunk, chunk.code
      ensures Valid() && (chunk.code == old(chunk.code) || fresh(chunk.code)) && State() == P.TryStatement(old(State()))
      decreases Len(toks), 10
    {
      hide State, P.Gen, P.Fix, P.PushType, P.PopType, P.TopType, P.Terminator, P.Advance, P.Consume, P.Check, P.Reject, P.Outside, P.BlockRule, P.CatchClause;
      var hole := chunk.count + 1;
      Gen(TRY(0));
      BlockRule();
      var _ := PopType();
      Gen(END_TRY);
      var leave := chunk.count + 1;
      Gen(JUMP(0));
      Fix(hole);
      CatchClause(leave);
    }

    method CatchClause(leave: nat)
      requires Valid() && leave + 4 <= chunk.count
      modifies this, typeStack, localTable, chunk, chunk.code
      ensures Valid() && (chunk.code == old(chunk.code) || fresh(chunk.code)) && State() == P.CatchClause(old(State()), leave)
      decreases Len(toks), 9
    {
      hide State, P.Gen, P.Fix, P.PushType, P.PopType, P.TopType, P.Terminator, P.Advance, P.Consume, P.Check, P.Reject, P.Outside, P.BlockRule, P.AddLocal, P.DropLocal;
      Consume(KEY_CATCH);
      if !Current().ID? {
        Reject();
        return;
      }
      var x := Current().x;
      Advance();
      AddLocal(x, TAny);
      Gen(STORE(SlotByte(localCount - 1)));
      BlockRule();
      var _ := PopType();
      DropLocal();
      Fix(leave);
      PushType(TVoid);
    }

    method DropLocal()
      requires Valid()
      modifies this
      ensures Valid() && State() == P.DropLocal(old(State()))
    {
      if localCount == 0 {
        Outside();
      } else {
        localCount := localCount - 1;
      }
    }

    /** block: the values of all statements but the last are popped. */
    method BlockRule()
      requires Valid()
      modifies this, typeStack, localTable, chunk, chunk.code
      ensures Valid() && (chunk.code == old(chunk.code) || fresh(chunk.code)) && State() == P.BlockRule(old(State()))
      decreases Len(toks), 7
    {
      hide State, P.Gen, P.Fix, P.PushType, P.PopType, P.TopType, P.Terminator, P.Advance, P.Consume, P.Check, P.Reject, P.Outside, P.Statement, P.Discard;
      Consume(LBRACKET);
      var empty := true;
      ghost var start := State();
      while Current() != RBRACKET && Current() != EOF
        invariant Valid() && (chunk.code == old(chunk.code) || fresh(chunk.code))
        invariant P.Statements(State(), empty) == P.Statements(start, true)
        invariant Len(toks) <= Len(old(toks))
        decreases Len(toks)
      {
        if !empty {
          Discard();
        }
        Statement();
        empty := false;
      }
      if empty {
        PushType(TVoid);
      }
      Consume(RBRACKET);
    }

    method Discard()
      requires Valid()
      modifies this, typeStack, localTable, chunk, chunk.code
      ensures Valid() && (chunk.code == old(chunk.code) || fresh(chunk.code)) && State() == P.Discard(old(State()))
    {
      var t := PopType();
      if t != TVoid {
        Gen(POP);
      }
    }

    // ----- functions -----

    /** The parameters up to the closing angle bracket. */
    method Params() returns (ps: seq<Param>)
      requires Valid()
      modifies this
      ensures Valid() && P.ParamsResult(State(), ps) == P.Params(old(State()), [])
    {
      ps := [];
      while Current() != RANGLE
        invariant Valid()
        invariant P.Params(State(), ps) == P.Params(old(State()), [])
        decreases Len(toks)
      {
        if !Current().ID? {
          Reject();
          return;
        }
        if |ps| >= 16 {
          Outside();
          return;
        }
        var x := Current().x;
        Advance();
        Consume(COLON);
        var t := ParseType();
        if Current() == COMMA {
          Advance();
        }
        ps := ps + [Param(x, t)];
      }
    }

    method FunctionHeader() returns (ps: seq<Param>, declared: Option<Type>, name: Option<Name>)
      requires Valid()
      modifies this
      ensures Valid() && P.Header(State(), ps, declared, name) == P.FunctionHeader(old(State()))
    {
      ps := Params();
      Consume(RANGLE);
      declared, name := None, None;
      if Current() == ARROW {
        Advance();
        var t := ParseType();
        declared := Some(t);
      }
      if Current() == COLON {
        Advance();
        if Current().ID? {
          name := Some(Current().x);
          Advance();
        } else {
          Reject();
        }
      }
    }

    /** The entry of a function gets its address and its pending calls are patched. */
    method Define(x: Name, declared: Option<Type>, params: seq<Type>)
      requires Valid()
      modifies this, typeStack, localTable, chunk, chunk.code
      ensures Valid() && (chunk.code == old(chunk.code) || fresh(chunk.code)) && chunk.count == old(chunk.count)
      ensures State() == old(State()).(out := P.Define(old(State()).out, x, old(chunk.count), declared, params))
    {
      var f := Function(x, Narrow(chunk.count), declared, params, []);
      var i := FindFunction(x);
      if i < 0 {
        funcs := funcs + [f];
      } else {
        var pending := funcs[i].pending;
        PatchEach(pending, chunk.count);
        funcs := funcs[i := f];
      }
    }

    method SetReturn(x: Name, t: Type)
      requires Valid()
      modifies this
      ensures Valid() && State() == old(State()).(out := P.SetReturn(old(State()).out, x, t))
    {
      var i := FindFunction(x);
      if i >= 0 {
        funcs := funcs[i := funcs[i].(ret := Some(t))];
      }
    }

    /** The locals, the return type and the type stack of a new function. */
    method EnterFunction(ps: seq<Param>, declared: Option<Type>)
      requires Valid() && |ps| <= 16
      modifies this, localTable
      ensures Valid() && State() == old(State()).(locals := ParamScope(ps), ret := declared, types := [])
    {
      localCount, ret, typeCount := 0, declared, 0;
      for i := 0 to |ps|
        invariant Valid() && localCount == i
        invariant State() == old(State()).(locals := ParamScope(ps)[..i], ret := declared, types := [])
      {
        localTable[localCount] := Local(ps[i].name, ps[i].ty);
        localCount := localCount + 1;
      }
    }

    method GenStores(n: nat)
      requires Valid()
      modifies this, typeStack, localTable, chunk, chunk.code
      ensures Valid() && (chunk.code == old(chunk.code) || fresh(chunk.code)) && State() == P.GenStores(old(State()), n)
    {
      var i := n;
      while i > 0
        invariant Valid() && (chunk.code == old(chunk.code) || fresh(chunk.code))
        invariant P.GenStores(State(), i) == P.GenStores(old(State()), n)
      {
        i := i - 1;
        Gen(STORE(SlotByte(i)));
      }
    }

    /** The return type of a function whose body has the given type. */
    method Result(declared: Option<Type>, actual: Type) returns (t: Type)
      requires Valid()
      modifies this
      ensures Valid() && P.TypeResult(State(), t) == P.Result(old(State()), declared, actual)
    {
      if declared.Some? {
        Check(Assignable(declared.value, actual));
        t := declared.value;
      } else {
        var u := P.Unified(ret, actual);
        if u.Some? {
          t := u.value;
        } else {
          Reject();
          t := TVoid;
        }
      }
    }

    /** The stores of n parameters, the body and the return. */
    method FunctionBody(n: nat, declared: Option<Type>) returns (t: Type)
      requires Valid()
      modifies this, typeStack, localTable, chunk, chunk.code
      ensures Valid() && (chunk.code == old(chunk.code) || fresh(chunk.code))
      ensures P.TypeResult(State(), t) == P.FunctionBody(old(State()), n, declared)
    {
      hide State, P.Gen, P.PopType, P.TopType, P.GenStores, P.BlockRule, P.Result;
      GenStores(n);
      BlockRule();
      var actual := PopType();
      t := Result(declared, actual);
      Gen(RET);
    }

    method LeaveFunction(outer: Option<Type>)
      requires Valid()
      modifies this
      ensures Valid() && State() == old(State()).(locals := [], ret := outer, types := []) && localCount == 0 && typeCount == 0
    {
      localCount, typeCount, ret := 0, 0, outer;
    }

    /** parse_function at top level, where no local and no type is alive. */
    method FunctionDefinition()
      requires Valid() && localCount == 0 && typeCount == 0
      modifies this, typeStack, localTable, chunk, chunk.code
      ensures Valid() && (chunk.code == old(chunk.code) || fresh(chunk.code)) && localCount == 0 && typeCount == 0
      ensures State() == P.FunctionDefinition(old(State()))
    {
      hide State, P.Gen, P.Fix, P.FunctionHeader, P.Define, P.SetReturn, P.FunctionBody;
      var outer, hole := ret, chunk.count + 1;
      Gen(JUMP(0));
      var ps, declared, name := FunctionHeader();
      if name.Some? {
        Define(name.value, declared, ParamTypes(ps));
      }
      EnterFunction(ps, declared);
      var t := FunctionBody(|ps|, declared);
      Fix(hole);
      LeaveFunction(outer);
      if name.Some? {
        SetReturn(name.value, t);
      }
    }

    // ----- programs -----

    /** skip_bracket_block_tokens. */
    method SkipBrackets()
      requires Valid()
      modifies this
      ensures Valid() && State() == P.SkipBrackets(old(State()), 1)
    {
      var depth := 1;
      while depth > 0 && !toks.Eof?
        invariant Valid()
        invariant P.SkipBrackets(State(), depth) == P.SkipBrackets(old(State()), 1)
        decreases Len(toks)
      {
        if Current() == LBRACKET {
          depth := depth + 1;
        } else if Current() == RBRACKET {
          depth := depth - 1;
        }
        Advance();
      }
    }

    method Declare(x: Name, declared: Option<Type>, params: seq<Type>)
      requires Valid()
      modifies this
      ensures Valid() && State() == P.Declared(old(State()), x, declared, params)
    {
      var i := FindFunction(x);
      if i < 0 {
        funcs := funcs + [Function(x, -1, declared, params, [])];
      } else {
        funcs := funcs[i := funcs[i].(ret := declared, params := params)];
      }
    }

    /** The loop of predeclare_module_functions. */
    method Predeclare()
      requires Valid()
      modifies this
      ensures Valid() && State() == P.Predeclared(old(State()))
    {
      hide P.FunctionHeader, P.Declared, P.SkipBrackets;
      while !toks.Eof?
        invariant Valid()
        invariant P.Predeclared(State()) == P.Predeclared(old(State()))
        decreases Len(toks)
      {
        if Current().OTHER? {
          Outside();
          return;
        }
        if Current() != LANGLE {
          Advance();
        } else {
          Advance();
          var ps, declared, name := FunctionHeader();
          if name.Some? {
            Declare(name.value, declared, ParamTypes(ps));
          }
          Consume(LBRACKET);
          if fault != P.NoFault {
            return;
          }
          SkipBrackets();
        }
      }
    }

    /** compile_internal. */
    method TopLevel()
      requires Valid() && localCount == 0 && typeCount == 0
      modifies this, typeStack, localTable, chunk, chunk.code
      ensures Valid() && (chunk.code == old(chunk.code) || fresh(chunk.code)) && State() == P.TopLevel(old(State()))
    {
      hide P.FunctionDefinition;
      while !toks.Eof?
        invariant Valid() && (chunk.code == old(chunk.code) || fresh(chunk.code))
        invariant localCount == 0 && typeCount == 0
        invariant P.TopLevel(State()) == P.TopLevel(old(State()))
        decreases Len(toks)
      {
        if Current() == SEMICOLON {
          Advance();
        } else if Current() == LANGLE {
          Advance();
          FunctionDefinition();
        } else if Current().OTHER? {
          Outside();
          return;
        } else {
          Reject();
          Advance();
        }
      }
    }

    /** The parser starts again at the first token; only the table of functions is kept. */
    method Restart(ts: Tokens)
      requires Valid()
      modifies this, chunk
      ensures Valid() && chunk.code == old(chunk.code) && localCount == 0 && typeCount == 0
      ensures var pre := old(State());
        State() == P.Start(ts).(out := Output([], pre.out.funcs, []),
                                fault := if pre.fault == P.NoFault then P.NoFault else P.Unmodelled)
    {
      toks, prev := ts, Token(EOF, 0);
      typeCount, localCount, ret, loops := 0, 0, Some(TVoid), [];
      chunk.count := 0;
      if fault != P.NoFault {
        fault := P.Unmodelled;
      }
    }

    /** The call of main and the halt. */
    method Finish()
      requires Valid()
      modifies this, typeStack, localTable, chunk, chunk.code
      ensures Valid() && State() == P.Finish(old(State()))
    {
      var i := FindFunction(MAIN_NAME);
      if i >= 0 {
        Gen(CALL(funcs[i].addr));
      }
      Gen(HALT);
    }
  }

  /** compiler_compile: the bytes, or none if there was an error. */
  method Compile(ts: Tokens) returns (r: P.Compiled)
    ensures r == P.Compile(ts)
  {
    hide P.Predeclared, P.TopLevel, P.Finish;
    var c := new Compiler(ts);
    c.Predeclare();
    c.Restart(ts);
    c.TopLevel();
    c.Finish();
    if c.fault == P.NoFault {
      r := P.Compiled(c.chunk.code[..c.chunk.count]);
    } else {
      r := P.Failed(c.fault);
    }
  }
}
