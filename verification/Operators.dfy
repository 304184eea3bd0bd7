/** What the operators compute, in plain integers and truth values: once for the instructions of
    vm_run and once for the expressions of a program. */
module Operators {
  import opened Bytes
  import opened Values
  import opened Machine
  import opened Syntax
  import opened Semantics

  /** int64_t arithmetic: the 64-bit number that differs from the exact one by a multiple of 2^64. */
  ghost predicate WrapsTo(v: Value, exact: int) {
    v.VInt? && (v.n - exact) % 0x1_0000_0000_0000_0000 == 0
  }

  /** Division as ISO C has it: truncated toward zero, the remainder with the sign of the dividend. */
  ghost predicate Divides(a: int, b: int, quotient: Value, remainder: Value) {
    && quotient.VInt? && remainder.VInt?
    && a == b * quotient.n + remainder.n
    && 0 - Abs(b) < remainder.n < Abs(b)
    && (a >= 0 ==> remainder.n >= 0)
    && (a <= 0 ==> remainder.n <= 0)
  }

  /** The instruction took its operands off the stack and pushed v. */
  ghost predicate Leaves(s: StepResult, vm: Vm, base: seq<Value>, v: Value) {
    s == Next(vm.(stack := base + [v]))
  }

  /** Two 64-bit numbers that differ by a multiple of 2^64 are the same, so WrapsTo names one value. */
  lemma WrapsToOne(v: Value, w: Value, exact: int)
    requires WrapsTo(v, exact) && WrapsTo(w, exact)
    ensures v == w
  {
    var m := 0x1_0000_0000_0000_0000;
    var j, k := (v.n - exact) / m, (w.n - exact) / m;
    assert v.n - w.n == m * (j - k);
  }

  lemma ProductIsLarge(b: int, d: int)
    ensures d != 0 ==> Abs(b * d) >= Abs(b)
  {
    if d > 0 {
      ProductGrows(d, Abs(b), 1);
      SignedProduct(b, d);
    } else if d < 0 {
      ProductGrows(0 - d, Abs(b), 1);
      SignedProduct(b, 0 - d);
    }
  }

  /** So are a quotient and a remainder. */
  lemma DividesOnce(a: int, b: int, q: Value, r: Value, q': Value, r': Value)
    requires b != 0 && Divides(a, b, q, r) && Divides(a, b, q', r')
    ensures q == q' && r == r'
  {
    var d := q.n - q'.n;
    assert b * d == b * q.n - b * q'.n;
    ProductIsLarge(b, d);
  }

  // ----- instructions -----

  /** The stack of a machine that is about to operate on a and b. */
  ghost predicate TwoOnTop(vm: Vm, base: seq<Value>, a: Value, b: Value) {
    vm.stack == base + [a, b] && |vm.stack| <= STACK_MAX
  }

  ghost predicate OneOnTop(vm: Vm, base: seq<Value>, a: Value) {
    vm.stack == base + [a] && |vm.stack| <= STACK_MAX
  }

  lemma TakesTwo(vm: Vm, base: seq<Value>, a: Value, b: Value)
    requires TwoOnTop(vm, base, a, b)
    ensures Drop(vm, 2) == vm.(stack := base) && vm.stack[|vm.stack| - 2] == a && Top(vm) == b
    ensures |base| < STACK_MAX
  {
    assert vm.stack[..|vm.stack| - 2] == base;
  }

  lemma TakesOne(vm: Vm, base: seq<Value>, a: Value)
    requires OneOnTop(vm, base, a)
    ensures Drop(vm, 1) == vm.(stack := base) && Top(vm) == a && |base| < STACK_MAX
  {
    assert vm.stack[..|vm.stack| - 1] == base;
  }

  lemma WrapIsCongruent(n: int)
    ensures WrapsTo(VInt(Wrap(n)), n)
  {}

  lemma IntArithmetic(vm: Vm, base: seq<Value>, a: int64, b: int64) returns (sum: Value, difference: Value, product: Value)
    requires TwoOnTop(vm, base, VInt(a), VInt(b))
    ensures Leaves(Operate(vm, ADD), vm, base, sum) && WrapsTo(sum, a + b)
    ensures Leaves(Operate(vm, SUB), vm, base, difference) && WrapsTo(difference, a - b)
    ensures Leaves(Operate(vm, MUL), vm, base, product) && WrapsTo(product, a * b)
  {
    hide Wrap;
    TakesTwo(vm, base, VInt(a), VInt(b));
    WrapIsCongruent(a + b);
    WrapIsCongruent(a - b);
    WrapIsCongruent(a * b);
    sum, difference, product := VInt(Wrap(a + b)), VInt(Wrap(a - b)), VInt(Wrap(a * b));
  }

  lemma IntDivision(vm: Vm, base: seq<Value>, a: int64, b: int64) returns (q: Value, r: Value)
    requires TwoOnTop(vm, base, VInt(a), VInt(b))
    ensures b == 0 ==>
      && Operate(vm, DIV) == Raise(vm.(stack := base), VErr(DivisionByZero))
      && Operate(vm, MOD) == Raise(vm.(stack := base), VErr(DivisionByZeroInMod))
    ensures a == -0x8000_0000_0000_0000 && b == -1 ==>
      && Operate(vm, DIV) == Stop(QuotientOverflow, vm.out)
      && Operate(vm, MOD) == Stop(QuotientOverflow, vm.out)
    ensures b != 0 && !(a == -0x8000_0000_0000_0000 && b == -1) ==>
      && Leaves(Operate(vm, DIV), vm, base, q)
      && Leaves(Operate(vm, MOD), vm, base, r)
      && Divides(a, b, q, r)
  {
    TakesTwo(vm, base, VInt(a), VInt(b));
    q, r := VVoid, VVoid;
    if b != 0 && !(a == INT64_MIN && b == -1) {
      QuotientRemainder(a, b);
      QuotientFits(a, b);
      q, r := VInt(Quotient(a, b)), VInt(Remainder(a, b));
    }
  }

  lemma IntComparison(vm: Vm, base: seq<Value>, a: int64, b: int64)
    requires TwoOnTop(vm, base, VInt(a), VInt(b))
    ensures Leaves(Operate(vm, LT), vm, base, VBool(a < b))
    ensures Leaves(Operate(vm, GT), vm, base, VBool(b < a))
    ensures Leaves(Operate(vm, LTE), vm, base, VBool(!(b < a)))
    ensures Leaves(Operate(vm, GTE), vm, base, VBool(!(a < b)))
  {
    TakesTwo(vm, base, VInt(a), VInt(b));
  }

  /** Equality never fails: numbers and truth values are compared within their kind, errors by their
      text, void with nothing. */
  lemma Equality(vm: Vm, base: seq<Value>, a: Value, b: Value)
    requires TwoOnTop(vm, base, a, b)
    ensures a.VInt? && b.VInt? ==> Leaves(Operate(vm, EQ), vm, base, VBool(a.n == b.n))
    ensures a.VBool? && b.VBool? ==> Leaves(Operate(vm, EQ), vm, base, VBool(a.b <==> b.b))
    ensures a.VErr? && b.VErr? ==> Leaves(Operate(vm, EQ), vm, base, VBool(a.msg == b.msg))
    ensures a.VVoid? || b.VVoid? || a.VInt? != b.VInt? || a.VBool? != b.VBool? ==>
      Leaves(Operate(vm, EQ), vm, base, VBool(false))
  {
    TakesTwo(vm, base, a, b);
  }

  lemma Logic(vm: Vm, base: seq<Value>, a: bool, b: bool)
    requires TwoOnTop(vm, base, VBool(a), VBool(b))
    ensures Leaves(Operate(vm, AND), vm, base, VBool(a && b))
    ensures Leaves(Operate(vm, OR), vm, base, VBool(a || b))
    ensures Leaves(Operate(vm, NOT), vm, base + [VBool(a)], VBool(!b))
  {
    TakesTwo(vm, base, VBool(a), VBool(b));
    assert vm.stack[..|vm.stack| - 1] == base + [VBool(a)];
  }

  lemma Negation(vm: Vm, base: seq<Value>, a: int64) returns (v: Value)
    requires OneOnTop(vm, base, VInt(a))
    ensures Leaves(Operate(vm, NEG), vm, base, v) && WrapsTo(v, 0 - a)
  {
    TakesOne(vm, base, VInt(a));
    WrapIsCongruent(0 - a);
    v := VInt(Wrap(0 - a));
  }

  /** Operands of the wrong kind: the arithmetic and ordering instructions raise an error that names
      the instruction. */
  lemma KindsMustBeInt(vm: Vm, base: seq<Value>, op: Operator, a: Value, b: Value)
    requires TwoOnTop(vm, base, a, b) && op in {ADD, SUB, MUL, DIV, MOD, LT, GT, LTE, GTE}
    ensures !(a.VInt? && b.VInt?) ==> Operate(vm, op) == Raise(vm.(stack := base), VErr(TypeError(op)))
  {
    TakesTwo(vm, base, a, b);
  }

  /** A condition: OP_IS_TRUTHY and then OP_JUMP_IF_F. Exactly false and void jump. */
  lemma ConditionJumps(vm: Vm, base: seq<Value>, v: Value, target: int32) returns (tested: Vm)
    requires OneOnTop(vm, base, v)
    ensures Execute(vm, IS_TRUTHY) == Next(tested)
    ensures Execute(tested, JUMP_IF_F(target)) ==
      Next(vm.(stack := base, ip := if v == VBool(false) || v == VVoid then target else vm.ip))
  {
    TakesOne(vm, base, v);
    tested := vm.(stack := base + [VBool(!(v == VBool(false) || v == VVoid))]);
    TakesOne(tested, base, VBool(!(v == VBool(false) || v == VVoid)));
  }

  // ----- expressions -----

  /** Both operands have a value; the right one is evaluated above the left one. */
  ghost predicate Operands(p: Program, l: Expr, r: Expr, st: Store, room: Room, fuel: nat,
      a: Value, b: Value, out: seq<Value>) {
    exists before, after ::
      && EvalExpr(p, l, st, room, fuel) == Yields(Some(a), before)
      && EvalExpr(p, r, st, room.(height := room.height + 1), fuel) == Yields(Some(b), after)
      && out == before + after
  }

  ghost function Meaning(p: Program, op: BinOp, l: Expr, r: Expr, st: Store, room: Room, fuel: nat): ExprOutcome {
    EvalExpr(p, Bin(op, l, r), st, room, fuel)
  }

  lemma BeforeTwice(before: seq<Value>, after: seq<Value>, last: ExprOutcome)
    ensures Before(before, Before(after, last)) == Before(before + after, last)
  {
    match last
    case Yields(_, more) => assert (before + after) + more == before + (after + more);
    case Raised(_, more) => assert (before + after) + more == before + (after + more);
    case Halted(_, more) => assert (before + after) + more == before + (after + more);
    case _ =>
  }

  lemma MeaningIs(p: Program, op: BinOp, l: Expr, r: Expr, st: Store, room: Room, fuel: nat,
      a: Value, b: Value, out: seq<Value>)
    requires Operands(p, l, r, st, room, fuel, a, b, out)
    ensures Meaning(p, op, l, r, st, room, fuel) == Before(out, OfResult(BinaryResult(op, a, b)))
  {
    hide BinaryResult, OfResult, Before;
    var before, after :|
      && EvalExpr(p, l, st, room, fuel) == Yields(Some(a), before)
      && EvalExpr(p, r, st, room.(height := room.height + 1), fuel) == Yields(Some(b), after)
      && out == before + after;
    BeforeTwice(before, after, OfResult(BinaryResult(op, a, b)));
  }

  lemma IntExpressions(p: Program, l: Expr, r: Expr, st: Store, room: Room, fuel: nat,
      a: int64, b: int64, out: seq<Value>) returns (sum: Value, difference: Value, product: Value)
    requires Operands(p, l, r, st, room, fuel, VInt(a), VInt(b), out)
    ensures Meaning(p, Plus, l, r, st, room, fuel) == Yields(Some(sum), out) && WrapsTo(sum, a + b)
    ensures Meaning(p, Less, l, r, st, room, fuel) == Yields(Some(difference), out) && WrapsTo(difference, a - b)
    ensures Meaning(p, Times, l, r, st, room, fuel) == Yields(Some(product), out) && WrapsTo(product, a * b)
  {
    hide Meaning, Operands, Wrap;
    MeaningIs(p, Plus, l, r, st, room, fuel, VInt(a), VInt(b), out);
    MeaningIs(p, Less, l, r, st, room, fuel, VInt(a), VInt(b), out);
    MeaningIs(p, Times, l, r, st, room, fuel, VInt(a), VInt(b), out);
    WrapIsCongruent(a + b);
    WrapIsCongruent(a - b);
    WrapIsCongruent(a * b);
    sum, difference, product := VInt(Wrap(a + b)), VInt(Wrap(a - b)), VInt(Wrap(a * b));
  }

  lemma DivisionExpressions(p: Program, l: Expr, r: Expr, st: Store, room: Room, fuel: nat,
      a: int64, b: int64, out: seq<Value>) returns (q: Value, m: Value)
    requires Operands(p, l, r, st, room, fuel, VInt(a), VInt(b), out)
    ensures b == 0 ==>
      && Meaning(p, Over, l, r, st, room, fuel) == Raised(VErr(DivisionByZero), out)
      && Meaning(p, Percent, l, r, st, room, fuel) == Raised(VErr(DivisionByZeroInMod), out)
    ensures a == -0x8000_0000_0000_0000 && b == -1 ==>
      && Meaning(p, Over, l, r, st, room, fuel) == Halted(QuotientOverflow, out)
      && Meaning(p, Percent, l, r, st, room, fuel) == Halted(QuotientOverflow, out)
    ensures b != 0 && !(a == -0x8000_0000_0000_0000 && b == -1) ==>
      && Meaning(p, Over, l, r, st, room, fuel) == Yields(Some(q), out)
      && Meaning(p, Percent, l, r, st, room, fuel) == Yields(Some(m), out)
      && Divides(a, b, q, m)
  {
    hide Meaning, Operands, Quotient, Remainder;
    MeaningIs(p, Over, l, r, st, room, fuel, VInt(a), VInt(b), out);
    MeaningIs(p, Percent, l, r, st, room, fuel, VInt(a), VInt(b), out);
    q, m := VVoid, VVoid;
    if b != 0 && !(a == INT64_MIN && b == -1) {
      QuotientRemainder(a, b);
      QuotientFits(a, b);
      q, m := VInt(Quotient(a, b)), VInt(Remainder(a, b));
    }
  }

  lemma OrderExpressions(p: Program, l: Expr, r: Expr, st: Store, room: Room, fuel: nat,
      a: int64, b: int64, out: seq<Value>)
    requires Operands(p, l, r, st, room, fuel, VInt(a), VInt(b), out)
    ensures Meaning(p, Below, l, r, st, room, fuel) == Yields(Some(VBool(a < b)), out)
    ensures Meaning(p, Above, l, r, st, room, fuel) == Yields(Some(VBool(b < a)), out)
    ensures Meaning(p, AtMost, l, r, st, room, fuel) == Yields(Some(VBool(!(b < a))), out)
    ensures Meaning(p, AtLeast, l, r, st, room, fuel) == Yields(Some(VBool(!(a < b))), out)
  {
    hide Meaning, Operands;
    MeaningIs(p, Below, l, r, st, room, fuel, VInt(a), VInt(b), out);
    MeaningIs(p, Above, l, r, st, room, fuel, VInt(a), VInt(b), out);
    MeaningIs(p, AtMost, l, r, st, room, fuel, VInt(a), VInt(b), out);
    MeaningIs(p, AtLeast, l, r, st, room, fuel, VInt(a), VInt(b), out);
  }

  /** == and != are each other's opposite on all values, and == holds within a kind as there. */
  lemma EqualityExpressions(p: Program, l: Expr, r: Expr, st: Store, room: Room, fuel: nat,
      a: Value, b: Value, out: seq<Value>)
    requires Operands(p, l, r, st, room, fuel, a, b, out)
    ensures var equal := !a.VVoid? && a == b;
      && Meaning(p, Equal, l, r, st, room, fuel) == Yields(Some(VBool(equal)), out)
      && Meaning(p, NotEqual, l, r, st, room, fuel) == Yields(Some(VBool(!equal)), out)
  {
    hide Meaning, Operands;
    MeaningIs(p, Equal, l, r, st, room, fuel, a, b, out);
    MeaningIs(p, NotEqual, l, r, st, room, fuel, a, b, out);
  }

  /** && and || work on the values of both operands. */
  lemma LogicExpressions(p: Program, l: Expr, r: Expr, st: Store, room: Room, fuel: nat,
      a: bool, b: bool, out: seq<Value>)
    requires Operands(p, l, r, st, room, fuel, VBool(a), VBool(b), out)
    ensures Meaning(p, Both, l, r, st, room, fuel) == Yields(Some(VBool(a && b)), out)
    ensures Meaning(p, Either, l, r, st, room, fuel) == Yields(Some(VBool(a || b)), out)
  {
    hide Meaning, Operands;
    MeaningIs(p, Both, l, r, st, room, fuel, VBool(a), VBool(b), out);
    MeaningIs(p, Either, l, r, st, room, fuel, VBool(a), VBool(b), out);
  }

  lemma PrefixExpressions(p: Program, e: Expr, st: Store, room: Room, fuel: nat, a: Value, out: seq<Value>) returns (v: Value)
    requires EvalExpr(p, e, st, room, fuel) == Yields(Some(a), out)
    ensures a.VInt? ==> EvalExpr(p, Un(Minus, e), st, room, fuel) == Yields(Some(v), out) && WrapsTo(v, 0 - a.n)
    ensures a.VBool? ==> EvalExpr(p, Un(Bang, e), st, room, fuel) == Yields(Some(VBool(!a.b)), out)
  {
    v := VVoid;
    if a.VInt? {
      WrapIsCongruent(0 - a.n);
      v := VInt(Wrap(0 - a.n));
    }
    assert out + [] == out;
  }

  /** Which arm an if takes, and when a loop ends: exactly false and void count as not met. */
  lemma ConditionDecides(p: Program, c: Expr, t: Block, f: Block, st: Store, room: Room, fuel: nat, v: Value, out: seq<Value>)
    requires EvalExpr(p, c, st, room, fuel) == Yields(Some(v), out)
    ensures v == VBool(false) || v == VVoid ==>
      && ExecStmt(p, IfElse(c, t, f), st, room, fuel) == After(out, ExecBlock(p, f, st, room, fuel))
      && ExecStmt(p, If(c, t), st, room, fuel) == Normal(st, None, out)
      && ExecStmt(p, While(c, t), st, room, fuel) == Normal(st, None, out)
    ensures v != VBool(false) && v != VVoid ==>
      && ExecStmt(p, IfElse(c, t, f), st, room, fuel) == After(out, ExecBlock(p, t, st, room, fuel))
      && ExecStmt(p, If(c, t), st, room, fuel) == After(out, NoValue(ExecBlock(p, t, st, room, fuel)))
  {
    assert out + [] == out;
  }
}
