/** Run-time values of the int, bool and error fragment, and the arithmetic of the
    operator instructions of vm_run. */
module Values {
  import opened Bytes

  /** The texts that runtime_error carries, one per branch of vm_run that the model covers. */
  datatype Message =
    | DivisionByZero
    | DivisionByZeroInMod
    | FrameOverflow
    | NoFrame
    | TooManyTries
    | TypeError(op: Operator)

  datatype Value =
    | VInt(n: int64)
    | VBool(b: bool)
    | VVoid
    | VErr(msg: Message)

  /** The operator instructions, each a single byte. */
  datatype Operator =
    | ADD | SUB | NEG | MUL | DIV | MOD
    | EQ | LT | GT | LTE | GTE
    | AND | OR | NOT

  /** What an operator instruction does with its operands: it pushes a value, calls
      runtime_error, divides INT64_MIN by -1 (a quotient that int64_t cannot hold), or reads
      the wrong member of the union. */
  datatype OpResult = Gives(v: Value) | Raises(msg: Message) | Overflows | Undefined

  /** Two's complement wrap-around of a 64-bit result. */
  function Wrap(n: int): (r: int64)
    ensures -0x8000_0000_0000_0000 <= n < 0x8000_0000_0000_0000 ==> r == n
    ensures (r - n) % 0x1_0000_0000_0000_0000 == 0
  {
    (n + 0x8000_0000_0000_0000) % 0x1_0000_0000_0000_0000 - 0x8000_0000_0000_0000
  }

  const INT64_MIN: int := -0x8000_0000_0000_0000

  function Abs(n: int): nat {
    if n < 0 then -n else n
  }

  /** C division: the quotient is truncated toward zero. */
  function Quotient(a: int, b: int): int
    requires b != 0
  {
    if (a < 0) == (b < 0) then Abs(a) / Abs(b) else -(Abs(a) / Abs(b))
  }

  /** C remainder: it takes the sign of the dividend. */
  function Remainder(a: int, b: int): int
    requires b != 0
  {
    if a < 0 then -(Abs(a) % Abs(b)) else Abs(a) % Abs(b)
  }

  lemma ProductGrows(b: nat, q: nat, least: nat)
    requires b >= least
    ensures b * q >= least * q
  {
    assert (b - least) * q >= 0;
  }

  lemma MagnitudeDivision(a: nat, b: nat)
    requires b > 0
    ensures a == b * (a / b) + a % b && 0 <= a / b <= a && 0 <= a % b < b
  {
    ProductGrows(b, a / b, 1);
  }

  lemma SignedProduct(b: int, q: int)
    ensures b * -q == -(b * q) && Abs(b) * q == (if b < 0 then b * -q else b * q)
  {}

  /** The identity that ISO C asks of / and %, with the remainder smaller than the divisor. */
  lemma QuotientRemainder(a: int, b: int)
    requires b != 0
    ensures a == b * Quotient(a, b) + Remainder(a, b)
    ensures Abs(Remainder(a, b)) < Abs(b) && Abs(Quotient(a, b)) <= Abs(a)
    ensures Remainder(a, b) != 0 ==> (Remainder(a, b) < 0 <==> a < 0)
  {
    MagnitudeDivision(Abs(a), Abs(b));
    SignedProduct(b, Abs(a) / Abs(b));
  }

  function Divide(a: int64, b: int64): OpResult {
    if b == 0 then Raises(DivisionByZero)
    else if a == INT64_MIN && b == -1 then Overflows
    else
      QuotientFits(a, b);
      Gives(VInt(Quotient(a, b)))
  }

  lemma QuotientFits(a: int64, b: int64)
    requires b != 0 && !(a == INT64_MIN && b == -1)
    ensures INT64_MIN <= Quotient(a, b) < -INT64_MIN
  {
    MagnitudeDivision(Abs(a), Abs(b));
    if Abs(b) >= 2 {
      ProductGrows(Abs(b), Abs(a) / Abs(b), 2);
    }
  }

  function Modulo(a: int64, b: int64): OpResult {
    if b == 0 then Raises(DivisionByZeroInMod)
    else if a == INT64_MIN && b == -1 then Overflows
    else
      QuotientRemainder(a, b);
      Gives(VInt(Remainder(a, b)))
  }

  /** values_equal on this fragment: strings by content, numbers and bools by value,
      never across kinds, and void equals nothing. */
  predicate ValuesEqual(a: Value, b: Value) {
    a == b && !a.VVoid?
  }

  /** The instructions that demand two integers. */
  function IntBinary(op: Operator, a: int64, b: int64): OpResult {
    if op == ADD then Gives(VInt(Wrap(a + b)))
    else if op == SUB then Gives(VInt(Wrap(a - b)))
    else if op == MUL then Gives(VInt(Wrap(a * b)))
    else if op == DIV then Divide(a, b)
    else if op == MOD then Modulo(a, b)
    else if op == LT then Gives(VBool(a < b))
    else if op == GT then Gives(VBool(a > b))
    else if op == LTE then Gives(VBool(a <= b))
    else Gives(VBool(a >= b))
  }

  /** A two-operand instruction; b was on top of the stack. */
  function Binary(op: Operator, a: Value, b: Value): OpResult {
    if op == EQ then Gives(VBool(ValuesEqual(a, b)))
    else if op == AND then (if a.VBool? && b.VBool? then Gives(VBool(a.b && b.b)) else Undefined)
    else if op == OR then (if a.VBool? && b.VBool? then Gives(VBool(a.b || b.b)) else Undefined)
    else if a.VInt? && b.VInt? then IntBinary(op, a.n, b.n)
    else Raises(TypeError(op))
  }

  /** OP_NEG and OP_NOT. OP_NOT reads the bool member of the union whatever the kind. */
  function Unary(op: Operator, a: Value): OpResult
    requires op == NEG || op == NOT
  {
    if op == NOT then (if a.VBool? then Gives(VBool(!a.b)) else Undefined)
    else if a.VInt? then Gives(VInt(Wrap(0 - a.n)))
    else Raises(TypeError(NEG))
  }

  /** OP_IS_TRUTHY: a bool is itself, void is false, anything else is true. */
  predicate Truthy(v: Value) {
    if v.VBool? then v.b else !v.VVoid?
  }
}
