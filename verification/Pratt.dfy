/** Pratt parsing follows the grammar: parse_precedence consumes exactly the tokens of a derivation and
    emits exactly the postfix code of its tree. Printed expressions are a special case. */
module Pratt {
  import opened Bytes
  import opened Values
  import opened Machine
  import opened Syntax
  import opened Semantics
  import opened CodeGen
  import opened Emission
  import opened Tokens
  import opened Parsing
  import opened Printing
  import opened Grammar

  /** The compiler's table of functions has the signatures sg, whose names are not native. */
  predicate Table(funcs: seq<Function>, sg: Signatures) {
    forall f :: f in sg ==>
      && !IsNative(f) && Find(funcs, f) >= 0
      && funcs[Find(funcs, f)].ret == Some(sg[f].ret) && funcs[Find(funcs, f)].params == sg[f].params
  }

  predicate Prepared(st: State, sg: Signatures) {
    st.fault == NoFault && WfOutput(st.out) && Table(st.out.funcs, sg)
  }

  lemma TableKept(o: Output, c: Code, sg: Signatures)
    requires WfOutput(o) && Table(o.funcs, sg)
    ensures WfOutput(Emitted(o, c)) && Table(Emitted(o, c).funcs, sg)
  {
    hide Emitted, Find, IsNative, WfOutput;
    EmitKeepsTable(o, c);
    forall f | f in sg
      ensures !IsNative(f) && Find(Emitted(o, c).funcs, f) >= 0
      ensures Emitted(o, c).funcs[Find(Emitted(o, c).funcs, f)].ret == Some(sg[f].ret)
      ensures Emitted(o, c).funcs[Find(Emitted(o, c).funcs, f)].params == sg[f].params
    {
      SameFind(Emitted(o, c).funcs, o.funcs, f);
    }
  }

  /** What follows an expression does not continue it at this level. */
  predicate Calm(rest: Tokens, level: nat) {
    rest.Tok? && rest.head.line == LINE && Precedence(rest.head.kind) <= level && Precedence(rest.head.kind) < PREC_UNARY
  }

  /** The last token of a printed expression. */
  function Last(e: Expr, level: nat): Token {
    if Level(e) < level then Token(RPAREN, LINE)
    else match e
      case IntLit(n) => Token(INT(n), LINE)
      case BoolLit(b) => Token(BOOL(b), LINE)
      case Var(x) => Token(ID(x), LINE)
      case Un(_, e1) => Last(e1, PREC_UNARY)
      case Bin(_, _, r) => Last(r, Level(e) + 1)
      case Call(_, _) => Token(RPAREN, LINE)
  }

  lemma {:induction false} LastLine(e: Expr, level: nat)
    ensures Last(e, level).line == LINE
    decreases e
  {
    match e
    case Un(_, e1) => LastLine(e1, PREC_UNARY);
    case Bin(_, _, r) => LastLine(r, Level(e) + 1);
    case _ =>
  }

  lemma {:induction false} FirstToken(e: Expr, level: nat, rest: Tokens)
    ensures var ts := ExprThen(e, level, rest); ts.Tok? && ts.head.line == LINE && StartsExpr(ts.head.kind)
    decreases e
  {
    if e.Bin? {
      FirstToken(e.left, Level(e), On(TokenOf(e.bop), ExprThen(e.right, Level(e) + 1, rest)));
    }
  }

  lemma Levels(e: Expr)
    ensures PREC_OR <= Level(e) <= PREC_PRIMARY && (e.Bin? ==> Level(e) <= PREC_FACTOR)
  {}

  /** The state after an expression: one type more, and its code emitted. */
  function Parsed(st: State, e: Expr, last: Token, rest: Tokens, sg: Signatures): State {
    st.(toks := rest, prev := last, types := st.types + [TypeOf(e, st.locals, sg)], out := Emitted(st.out, ExprCode(e, st.locals)))
  }

  lemma InfixesStop(st: State, prec: nat)
    requires prec > 0 && Precedence(Current(st)) < prec
    ensures Infixes(st, prec) == st
  {}

  /** parse_precedence: one prefix rule and then the operators. */
  lemma OnePrefix(st: State, prec: nat)
    requires prec > 0 && st.toks.Tok? && HasPrefix(st.toks.head.kind)
    ensures ParsePrecedence(st, prec) == Infixes(Prefix(Advance(st)), prec)
  {
    hide Prefix, Infixes;
  }

  function LastBare(e: Expr): Token {
    Last(e, 0)
  }

  /** The state after the code c of a sub-expression has been emitted is still ready. */
  lemma PreparedKept(st: State, r: State, c: Code, sg: Signatures)
    requires Prepared(st, sg) && r.fault == NoFault && r.out == Emitted(st.out, c)
    ensures Prepared(r, sg)
  {
    hide Emitted, Table, WfOutput;
    TableKept(st.out, c, sg);
  }

  /** The state after a derivation: its tree has been compiled. */
  function Derived(st: State, ph: Phrase, rest: Tokens, sg: Signatures): State {
    Parsed(st, Tree(ph), EndOf(ph), rest, sg)
  }

  /** What follows a member of a layer that binds with this strength does not continue it: it binds less, or
      it stands on a later line. (An opening parenthesis or a dot continues a name on any line.) */
  predicate EndsLayer(rest: Tokens, level: nat) {
    rest.Tok? ==>
      if rest.head.line > LINE then rest.head.kind != LPAREN && rest.head.kind != DOT
      else Precedence(rest.head.kind) <= level && Precedence(rest.head.kind) < PREC_UNARY
  }

  lemma CalmEnds(rest: Tokens, level: nat)
    requires Calm(rest, level)
    ensures EndsLayer(rest, level)
  {}

  /** After a whole member of a layer the loop of parse_precedence ends at what follows. */
  lemma LoopStops(st: State, ph: Phrase, rest: Tokens, sg: Signatures, prec: nat, level: nat)
    requires prec > 0 && EndsLayer(rest, level) && level < prec
    ensures Infixes(Derived(st, ph, rest, sg), prec) == Derived(st, ph, rest, sg)
  {
    hide Parsed, Precedence, EndOf;
    EndsOnLine(ph);
    var st1 := Derived(st, ph, rest, sg);
    AfterParsed(st, Tree(ph), EndOf(ph), rest, sg);
    if rest.Tok? && rest.head.line > LINE {
      assert ImplicitTerminator(st1);
    } else {
      NothingBinds();
    }
  }

  lemma NothingBinds()
    ensures Precedence(EOF) == 0
  {}

  lemma AfterParsed(st: State, e: Expr, last: Token, rest: Tokens, sg: Signatures)
    ensures Parsed(st, e, last, rest, sg).toks == rest && Parsed(st, e, last, rest, sg).prev == last
  {}

  /** parse_precedence on a derivation: its tree, and then whatever operators follow it. */
  lemma {:induction false} ParsePhrase(st: State, ph: Phrase, layer: Layer, prec: nat, rest: Tokens, sg: Signatures)
    requires Prepared(st, sg) && InLayer(ph, layer) && 1 <= prec <= Tightness(layer)
    requires st.toks == Spell(ph, rest) && EndsLayer(rest, Tightness(layer))
    requires OkExpr(Tree(ph), st.locals, sg, |st.types|)
    ensures ParsePrecedence(st, prec) == Infixes(Derived(st, ph, rest, sg), prec)
    decreases ph, 4 + Looseness(layer)
  {
    hide OkExpr, Infixes, ParsePrecedence, Spell, Tree, Derived, Prepared;
    if layer != Primaries && InLayer(ph, Tighter(layer)) {
      ParsePhrase(st, ph, Tighter(layer), prec, rest, sg);
    } else if layer == Primaries {
      ParsePrimary(st, ph, prec, rest, sg);
    } else if layer == Signs {
      ParseSigned(st, ph, prec, rest, sg);
    } else {
      ParseJoined(st, ph, layer, prec, rest, sg);
    }
  }

  lemma {:induction false} ParsePrimary(st: State, ph: Phrase, prec: nat, rest: Tokens, sg: Signatures)
    requires Prepared(st, sg) && InLayer(ph, Primaries) && prec > 0
    requires st.toks == Spell(ph, rest) && EndsLayer(rest, PREC_CALL)
    requires OkExpr(Tree(ph), st.locals, sg, |st.types|)
    ensures ParsePrecedence(st, prec) == Infixes(Derived(st, ph, rest, sg), prec)
    decreases ph, 3
  {
    hide OkExpr, Infixes, ParsePrecedence, Spell, Tree, Derived, Prepared;
    match ph
    case Grouped(inside) => ParseGrouped(st, ph, prec, rest, sg);
    case Applied(f, args) => ParseApplied(st, ph, prec, rest, sg);
    case _ => ParseLeaf(st, ph, prec, rest, sg);
  }

  lemma ParseLeaf(st: State, ph: Phrase, prec: nat, rest: Tokens, sg: Signatures)
    requires (ph.Numeral? || ph.Truth? || ph.Word?) && Prepared(st, sg) && prec > 0
    requires st.toks == Spell(ph, rest) && EndsLayer(rest, PREC_CALL)
    requires OkExpr(Tree(ph), st.locals, sg, |st.types|)
    ensures ParsePrecedence(st, prec) == Infixes(Derived(st, ph, rest, sg), prec)
  {
    hide Emitted, Infixes, WfOutput, Table, Put, Encode, Resolve, ParsePrecedence;
    OnePrefix(st, prec);
    var i := if ph.Numeral? then PUSH_INT(ph.n) else if ph.Truth? then PUSH_BOOL(ph.b)
             else LOAD(SlotByte(SlotOf(st.locals, ph.x)));
    EmitIns(st.out, i);
    assert Prefix(Advance(st)) == Derived(st, ph, rest, sg);
  }

  lemma {:induction false} ParseGrouped(st: State, ph: Phrase, prec: nat, rest: Tokens, sg: Signatures)
    requires ph.Grouped? && InLayer(ph, Primaries) && Prepared(st, sg) && prec > 0
    requires st.toks == Spell(ph, rest) && OkExpr(Tree(ph), st.locals, sg, |st.types|)
    ensures ParsePrecedence(st, prec) == Infixes(Derived(st, ph, rest, sg), prec)
    decreases ph, 2
  {
    hide OkExpr, ExprCode, Emitted, TypeOf, Infixes, WfOutput, Table, ParsePrecedence;
    var st1, inner := Advance(st), On(RPAREN, rest);
    OnePrefix(st, prec);
    ParsePhrase(st1, ph.inside, Ors, PREC_ASSIGNMENT, inner, sg);
    InfixesStop(Derived(st1, ph.inside, inner, sg), PREC_ASSIGNMENT);
    assert Prefix(st1) == Grouping(st1);
    assert Grouping(st1) == Consume(Derived(st1, ph.inside, inner, sg), RPAREN);
    assert Grouping(st1) == Derived(st, ph, rest, sg);
  }

  lemma {:induction false} ParseSigned(st: State, ph: Phrase, prec: nat, rest: Tokens, sg: Signatures)
    requires ph.Signed? && (ph.sign == MINUS || ph.sign == BANG) && InLayer(ph.body, Signs) && Prepared(st, sg) && prec > 0
    requires st.toks == Spell(ph, rest) && EndsLayer(rest, PREC_UNARY)
    requires OkExpr(Tree(ph), st.locals, sg, |st.types|)
    ensures ParsePrecedence(st, prec) == Infixes(Derived(st, ph, rest, sg), prec)
    decreases ph, 2
  {
    hide Emitted, Infixes, Prepared, ParsePrecedence, OkExpr, ExprCode, TypeOf, EndsLayer, InLayer, Spell, Tree, EndOf, UnaryRule, Derived;
    var st1 := Advance(st);
    SignedIs(ph, rest);
    UnTree(Tree(ph), st.locals, sg, |st.types|);
    OnePrefix(st, prec);
    PreparedMoves(st, st1, sg);
    ParsePhrase(st1, ph.body, Signs, PREC_UNARY, rest, sg);
    EndsLayerBelow(rest);
    LoopStops(st1, ph.body, rest, sg, PREC_UNARY, PREC_UNARY - 1);
    SignDone(st, st1, ph, rest, sg);
    assert Prefix(st1) == UnaryRule(st1, Tree(ph).uop);
  }

  lemma PreparedMoves(st: State, st1: State, sg: Signatures)
    requires Prepared(st, sg) && st1.out == st.out && st1.fault == st.fault
    ensures Prepared(st1, sg)
  {}

  lemma SignedIs(ph: Phrase, rest: Tokens)
    requires ph.Signed? && (ph.sign == MINUS || ph.sign == BANG)
    ensures Tree(ph) == Un(if ph.sign == MINUS then Minus else Bang, Tree(ph.body)) && EndOf(ph) == EndOf(ph.body)
    ensures Spell(ph, rest) == On(ph.sign, Spell(ph.body, rest))
  {}

  /** unary after its operand has been parsed. */
  lemma SignDone(st: State, st1: State, ph: Phrase, rest: Tokens, sg: Signatures)
    requires ph.Signed? && Prepared(st, sg) && Prepared(st1, sg) && |st.types| < STACK_MAX
    requires st1 == st.(toks := st1.toks, prev := st1.prev)
    requires var e, e1 := Tree(ph), Tree(ph.body);
      && e.Un? && EndOf(ph) == EndOf(ph.body)
      && TypeOf(e1, st.locals, sg) == TypeOf(e, st.locals, sg) == (if e.uop == Minus then TInt else TBool)
      && ExprCode(e, st.locals) == Cat(ExprCode(e1, st.locals), Ins(OPER(if e.uop == Minus then NEG else NOT)))
    requires ParsePrecedence(st1, PREC_UNARY) == Derived(st1, ph.body, rest, sg)
    ensures UnaryRule(st1, Tree(ph).uop) == Derived(st, ph, rest, sg)
  {
    hide Emitted, WfOutput, Table, Put, Encode, ParsePrecedence, ExprCode, TypeOf, Tree, EndOf;
    var e, e1, st2 := Tree(ph), Tree(ph.body), Derived(st1, ph.body, rest, sg);
    PreparedKept(st, st2, ExprCode(e1, st.locals), sg);
    var i := OPER(if e.uop == Minus then NEG else NOT);
    EmitIns(st2.out, i);
    EmitCat(st.out, ExprCode(e1, st.locals), Ins(i));
    Popped(st.types, TypeOf(e1, st.locals, sg));
  }

  lemma EndsLayerBelow(rest: Tokens)
    requires EndsLayer(rest, PREC_UNARY)
    ensures EndsLayer(rest, PREC_UNARY - 1)
  {}

  lemma UnTree(e: Expr, env: Scope, sg: Signatures, depth: nat)
    requires e.Un? && OkExpr(e, env, sg, depth)
    ensures depth < STACK_MAX && OkExpr(e.operand, env, sg, depth)
    ensures TypeOf(e.operand, env, sg) == TypeOf(e, env, sg) == (if e.uop == Minus then TInt else TBool)
    ensures ExprCode(e, env) == Cat(ExprCode(e.operand, env), Ins(OPER(if e.uop == Minus then NEG else NOT)))
  {}

  lemma Popped(types: seq<Type>, t: Type)
    ensures (types + [t])[..|types|] == types
  {}

  lemma OperatorEmitted(st: State, op: BinOp)
    requires WfOutput(st.out)
    ensures GenOperator(st, op) == st.(out := Emitted(st.out, OpCode(op)))
  {
    hide Emitted, WfOutput, Put, Encode;
    if op == NotEqual {
      EmitIns(st.out, OPER(EQ));
      EmitKeepsTable(st.out, Ins(OPER(EQ)));
      EmitIns(Emitted(st.out, Ins(OPER(EQ))), OPER(NOT));
      EmitCat(st.out, Ins(OPER(EQ)), Ins(OPER(NOT)));
    } else {
      EmitIns(st.out, OPER(MachineOp(op)));
    }
  }

  /** Two members joined by a symbol of their layer: the right one is parsed one level higher, so a further
      symbol of the layer takes the whole as its left operand. */
  lemma {:induction false} ParseJoined(st: State, ph: Phrase, layer: Layer, prec: nat, rest: Tokens, sg: Signatures)
    requires ph.Joined? && Joins(ph.sign, layer) && InLayer(ph.left, layer) && InLayer(ph.right, Tighter(layer))
    requires Prepared(st, sg) && 1 <= prec <= Tightness(layer)
    requires st.toks == Spell(ph, rest) && EndsLayer(rest, Tightness(layer))
    requires OkExpr(Tree(ph), st.locals, sg, |st.types|)
    ensures ParsePrecedence(st, prec) == Infixes(Derived(st, ph, rest, sg), prec)
    decreases ph, 3
  {
    hide Emitted, WfOutput, Table, Spell, Tree, ParsePrecedence, BinaryRule, Infixes, EndOf, OkExpr, ExprCode, TypeOf, InLayer, Joins,
      Accepts, ResultType, Precedence, Parsed;
    JoinedIs(ph, layer, rest);
    BinTree(Tree(ph), st.locals, sg, |st.types|);
    var st2 := LeftJoined(st, ph, layer, prec, rest, sg);
    var st3 := RightJoined(st, st2, ph, layer, rest, sg);
    JoinDone(st, st2, st3, Tree(ph), Tightness(layer), sg);
  }

  /** binary after both operands have been parsed. */
  lemma JoinDone(st: State, st2: State, st3: State, e: Expr, level: nat, sg: Signatures)
    requires e.Bin? && Prepared(st, sg) && |st.types| < STACK_MAX && ParsePrecedence(st2, level + 1) == st3
    requires var a, b := TypeOf(e.left, st.locals, sg), TypeOf(e.right, st.locals, sg);
      Accepts(e.bop, a, b) && ResultType(e.bop, a) == TypeOf(e, st.locals, sg)
    requires st3 == st.(toks := st3.toks, prev := st3.prev,
      types := (st.types + [TypeOf(e.left, st.locals, sg)]) + [TypeOf(e.right, st.locals, sg)],
      out := Emitted(Emitted(st.out, ExprCode(e.left, st.locals)), ExprCode(e.right, st.locals)))
    ensures BinaryRule(st2, e.bop, level) == Parsed(st, e, st3.prev, st3.toks, sg)
  {
    hide Emitted, WfOutput, Table, ParsePrecedence, GenOperator, ExprCode, TypeOf, PushType, Check, Accepts, ResultType, TopType,
      PopType, Parsed;
    BinaryDone(st, st3, e, sg);
  }

  lemma JoinedIs(ph: Phrase, layer: Layer, rest: Tokens)
    requires ph.Joined? && Joins(ph.sign, layer)
    ensures Tree(ph) == Bin(Symbol(ph.sign), Tree(ph.left), Tree(ph.right)) && EndOf(ph) == EndOf(ph.right)
    ensures Spell(ph, rest) == Spell(ph.left, On(ph.sign, Spell(ph.right, rest)))
    ensures TokenOf(Symbol(ph.sign)) == ph.sign && Precedence(ph.sign) == Tightness(layer) < PREC_UNARY
    ensures Tightness(Tighter(layer)) == Tightness(layer) + 1
  {
    SignIs(ph.sign, layer);
  }

  /** The left operand and the operator: the loop of parse_precedence calls binary. */
  lemma {:induction false} LeftJoined(st: State, ph: Phrase, layer: Layer, prec: nat, rest: Tokens, sg: Signatures) returns (st2: State)
    requires ph.Joined? && Joins(ph.sign, layer) && InLayer(ph.left, layer)
    requires Prepared(st, sg) && 1 <= prec <= Tightness(layer)
    requires st.toks == Spell(ph, rest) && OkExpr(Tree(ph.left), st.locals, sg, |st.types|)
    ensures Prepared(st2, sg) && st2.toks == Spell(ph.right, rest)
    ensures st2 == st.(toks := st2.toks, prev := Token(ph.sign, LINE),
      types := st.types + [TypeOf(Tree(ph.left), st.locals, sg)], out := Emitted(st.out, ExprCode(Tree(ph.left), st.locals)))
    ensures ParsePrecedence(st, prec) == Infixes(BinaryRule(st2, Symbol(ph.sign), Tightness(layer)), prec)
    decreases ph, 1
  {
    hide Emitted, WfOutput, Table, Spell, ParsePrecedence, Infixes, EndOf, OkExpr, ExprCode, TypeOf, BinaryRule, InLayer, Joins, Precedence;
    JoinedIs(ph, layer, rest);
    var right := Spell(ph.right, rest);
    var middle := On(ph.sign, right);
    ParsePhrase(st, ph.left, layer, prec, middle, sg);
    EndsOnLine(ph.left);
    var st1 := Derived(st, ph.left, middle, sg);
    OneInfix(st1, prec, Symbol(ph.sign), right);
    st2 := Advance(st1);
    PreparedKept(st, st2, ExprCode(Tree(ph.left), st.locals), sg);
  }

  /** The right operand of binary. */
  lemma {:induction false} RightJoined(st: State, st2: State, ph: Phrase, layer: Layer, rest: Tokens, sg: Signatures) returns (st3: State)
    requires ph.Joined? && Joins(ph.sign, layer) && InLayer(ph.right, Tighter(layer))
    requires Prepared(st2, sg) && st2.toks == Spell(ph.right, rest) && EndsLayer(rest, Tightness(layer))
    requires st2 == st.(toks := st2.toks, prev := st2.prev,
      types := st.types + [TypeOf(Tree(ph.left), st.locals, sg)], out := Emitted(st.out, ExprCode(Tree(ph.left), st.locals)))
    requires OkExpr(Tree(ph.right), st.locals, sg, |st.types| + 1)
    ensures st3 == st.(toks := rest, prev := EndOf(ph.right),
      types := (st.types + [TypeOf(Tree(ph.left), st.locals, sg)]) + [TypeOf(Tree(ph.right), st.locals, sg)],
      out := Emitted(Emitted(st.out, ExprCode(Tree(ph.left), st.locals)), ExprCode(Tree(ph.right), st.locals)))
    ensures ParsePrecedence(st2, Tightness(layer) + 1) == st3
    decreases ph, 1
  {
    hide Emitted, WfOutput, Table, Spell, ParsePrecedence, Infixes, EndOf, OkExpr, ExprCode, TypeOf, InLayer, Joins, Precedence;
    JoinedIs(ph, layer, rest);
    ParsePhrase(st2, ph.right, Tighter(layer), Tightness(layer) + 1, rest, sg);
    LoopStops(st2, ph.right, rest, sg, Tightness(layer) + 1, Tightness(layer));
    st3 := Derived(st2, ph.right, rest, sg);
  }

  lemma BinTree(e: Expr, env: Scope, sg: Signatures, depth: nat)
    requires e.Bin? && OkExpr(e, env, sg, depth)
    ensures OkExpr(e.left, env, sg, depth) && OkExpr(e.right, env, sg, depth + 1) && depth < STACK_MAX
    ensures var a, b := TypeOf(e.left, env, sg), TypeOf(e.right, env, sg);
      Accepts(e.bop, a, b) && ResultType(e.bop, a) == TypeOf(e, env, sg)
  {}

  /** The loop of parse_precedence takes one binary operator. */
  lemma OneInfix(st: State, prec: nat, op: BinOp, right: Tokens)
    requires 1 <= prec <= Precedence(TokenOf(op)) && st.toks == On(TokenOf(op), right) && st.prev.line == LINE
    ensures Infixes(st, prec) == Infixes(BinaryRule(Advance(st), op, Precedence(TokenOf(op))), prec)
  {
    hide BinaryRule;
  }

  /** binary after its right operand has been parsed. */
  lemma BinaryDone(st: State, st3: State, e: Expr, sg: Signatures)
    requires e.Bin? && Prepared(st, sg) && |st.types| < STACK_MAX
    requires var a, b := TypeOf(e.left, st.locals, sg), TypeOf(e.right, st.locals, sg);
      Accepts(e.bop, a, b) && ResultType(e.bop, a) == TypeOf(e, st.locals, sg)
    requires st3 == st.(toks := st3.toks, prev := st3.prev,
      types := (st.types + [TypeOf(e.left, st.locals, sg)]) + [TypeOf(e.right, st.locals, sg)],
      out := Emitted(Emitted(st.out, ExprCode(e.left, st.locals)), ExprCode(e.right, st.locals)))
    ensures var a, b := TypeOf(e.left, st.locals, sg), TypeOf(e.right, st.locals, sg);
      TopType(st3) == b && TopType(PopType(st3)) == a
      && PushType(GenOperator(Check(PopType(PopType(st3)), Accepts(e.bop, a, b)), e.bop), ResultType(e.bop, a))
         == Parsed(st, e, st3.prev, st3.toks, sg)
  {
    hide Emitted, WfOutput, Table, GenOperator, OpCode;
    var env := st.locals;
    var a, b := TypeOf(e.left, env, sg), TypeOf(e.right, env, sg);
    Popped(st.types + [a], b);
    Popped(st.types, a);
    EmitKeepsTable(st.out, ExprCode(e.left, env));
    EmitKeepsTable(Emitted(st.out, ExprCode(e.left, env)), ExprCode(e.right, env));
    EmitCat(st.out, ExprCode(e.left, env), ExprCode(e.right, env));
    EmitCat(st.out, Cat(ExprCode(e.left, env), ExprCode(e.right, env)), OpCode(e.bop));
    OperatorEmitted(PopType(PopType(st3)), e.bop);
  }

  // ----- calls -----

  function Count(args: Args): nat {
    match args
    case NoArgs => 0
    case Arg(_, rest) => 1 + Count(rest)
  }

  lemma {:induction false} CountParams(args: Args, env: Scope, sg: Signatures, ts: seq<Type>, depth: nat)
    requires OkArgs(args, env, sg, ts, depth)
    ensures Count(args) == |ts|
    decreases args
  {
    hide OkExpr, TypeOf;
    if args.Arg? {
      CountParams(args.others, env, sg, ts[1..], depth);
    }
  }

  /** The last token of a list of arguments. */
  function EndOfAll(phs: Phrases): Token
    requires phs.List?
  {
    if phs.others.Nothing? then EndOf(phs.first) else EndOfAll(phs.others)
  }

  /** One argument leaves its type on top, which arguments() takes off again. */
  lemma ArgumentIs(st: State, ph: Phrase, after: Tokens, sg: Signatures)
    ensures var st1 := Derived(st, ph, after, sg);
      && st1.toks == after && st1.types != [] && TopType(st1) == TypeOf(Tree(ph), st.locals, sg)
      && PopType(st1) == st.(toks := after, prev := EndOf(ph), out := Emitted(st.out, ExprCode(Tree(ph), st.locals)))
  {
    hide Emitted, TypeOf, ExprCode, EndOf, Tree;
    Popped(st.types, TypeOf(Tree(ph), st.locals, sg));
  }

  /** The arguments from the n-th on, with the parameter types ts still to come. */
  lemma {:induction false} ParsePhrases(st: State, phs: Phrases, params: seq<Type>, n: nat, rest: Tokens, sg: Signatures)
    requires phs.List? && AllPhrases(phs) && Prepared(st, sg) && n <= |params|
    requires st.toks == SpellAll(phs, On(RPAREN, rest))
    requires OkArgs(Trees(phs), st.locals, sg, params[n..], |st.types|)
    ensures Arguments(st, params, n) == ArgsResult(
      st.(toks := On(RPAREN, rest), prev := EndOfAll(phs), out := Emitted(st.out, ArgsCode(Trees(phs), st.locals))),
      n + Count(Trees(phs)))
    decreases phs, 4
  {
    hide Emitted, WfOutput, Table, Spell, ParsePrecedence, Infixes, EndOf, OkExpr, TypeOf, ExprCode, IsNative, SpellAll,
      ArgsCode, OkArgs, Count, Arguments, Expression, InLayer, Tree, Trees, Derived, PopType, TopType;
    var ph, env, others := phs.first, st.locals, phs.others;
    var after := if others.Nothing? then On(RPAREN, rest) else On(COMMA, SpellAll(others, On(RPAREN, rest)));
    ListIs(phs, On(RPAREN, rest), after);
    ArgsTree(Trees(phs), env, sg, params, n, |st.types|);
    ParsePhrase(st, ph, Ors, PREC_ASSIGNMENT, after, sg);
    var st1 := Derived(st, ph, after, sg);
    ArgumentIs(st, ph, after, sg);
    InfixesStop(st1, PREC_ASSIGNMENT);
    var st2 := PopType(st1);
    OneArgument(st, st1, params, n);
    if others.Nothing? {
      EmitCat(st.out, ExprCode(Tree(ph), env), Skip);
      PreparedKept(st, st2, ExprCode(Tree(ph), env), sg);
      EmitSkip(st2.out);
    } else {
      var st3 := Advance(st2);
      PreparedKept(st, st3, ExprCode(Tree(ph), env), sg);
      ParsePhrases(st3, others, params, n + 1, rest, sg);
      EmitCat(st.out, ExprCode(Tree(ph), env), ArgsCode(Trees(others), env));
    }
  }

  lemma ListIs(phs: Phrases, rest: Tokens, after: Tokens)
    requires phs.List? && after == if phs.others.Nothing? then rest else On(COMMA, SpellAll(phs.others, rest))
    ensures SpellAll(phs, rest) == Spell(phs.first, after)
    ensures Trees(phs) == Arg(Tree(phs.first), Trees(phs.others)) && (Trees(phs.others).NoArgs? <==> phs.others.Nothing?)
  {
    hide Spell, Tree;
  }

  /** One turn of the loop over the arguments. */
  lemma OneArgument(st: State, st1: State, params: seq<Type>, n: nat)
    requires st1 == ParsePrecedence(st, PREC_ASSIGNMENT) && n < |params| && st1.types != [] && TopType(st1) == params[n]
    ensures Arguments(st, params, n)
         == if Current(st1) == COMMA then Arguments(Advance(PopType(st1)), params, n + 1) else ArgsResult(PopType(st1), n + 1)
  {
    hide ParsePrecedence;
  }

  lemma ArgsTree(args: Args, env: Scope, sg: Signatures, params: seq<Type>, n: nat, depth: nat)
    requires args.Arg? && n <= |params| && OkArgs(args, env, sg, params[n..], depth)
    ensures n < |params| && OkExpr(args.first, env, sg, depth) && TypeOf(args.first, env, sg) == params[n]
    ensures OkArgs(args.others, env, sg, params[n + 1..], depth)
    ensures ArgsCode(args, env) == Cat(ExprCode(args.first, env), ArgsCode(args.others, env))
    ensures args.others.NoArgs? ==> ArgsCode(args.others, env) == Skip && Count(args) == 1
    ensures Count(args) == 1 + Count(args.others)
  {
    hide OkExpr, TypeOf, ExprCode;
    assert params[n..][1..] == params[n + 1..];
  }

  lemma {:induction false} ParseApplied(st: State, ph: Phrase, prec: nat, rest: Tokens, sg: Signatures)
    requires ph.Applied? && InLayer(ph, Primaries) && Prepared(st, sg) && prec > 0
    requires st.toks == Spell(ph, rest) && OkExpr(Tree(ph), st.locals, sg, |st.types|)
    ensures ParsePrecedence(st, prec) == Infixes(Derived(st, ph, rest, sg), prec)
    decreases ph, 2
  {
    hide Emitted, Infixes, WfOutput, SpellAll, OkArgs, ArgsCode, CallFunction, IsNative, ParsePrecedence, InLayer, AllPhrases, Trees;
    OnePrefix(st, prec);
    var st1 := Advance(st);
    var st2 := Advance(st1);
    var i := Find(st.out.funcs, ph.f);
    ApplyDone(st2, ph, i, rest, sg);
    assert Variable(st1, ph.f) == CallFunction(st2, i);
  }

  /** From the opening parenthesis of a direct call to its type on the stack. */
  lemma {:induction false} ApplyDone(st: State, ph: Phrase, i: nat, rest: Tokens, sg: Signatures)
    requires ph.Applied? && InLayer(ph, Primaries) && Prepared(st, sg) && i == Find(st.out.funcs, ph.f)
    requires st.toks == SpellAll(ph.args, On(RPAREN, rest))
    requires OkExpr(Tree(ph), st.locals, sg, |st.types|)
    ensures CallFunction(st, i) == Parsed(st, Tree(ph), Token(RPAREN, LINE), rest, sg)
    decreases ph, 1
  {
    hide Emitted, WfOutput, OkArgs, ArgsCode, EmitCall, Arguments, SpellAll, OkExpr, ExprCode, TypeOf, Find, IsNative, Known, FinishCall,
      Tree, Trees, AllPhrases, InLayer, Parsed;
    var e := Tree(ph);
    AppliedIs(ph);
    CallTree(e, st.locals, sg, |st.types|);
    var env, f := st.locals, st.out.funcs[i];
    CountParams(e.args, env, sg, f.params, |st.types|);
    assert f.params[0..] == f.params;
    var st1 := st;
    if ph.args.Nothing? {
      NoneSpelled(On(RPAREN, rest), env);
      EmitSkip(st.out);
    } else {
      FirstSpelled(ph.args, On(RPAREN, rest));
      ParsePhrases(st, ph.args, f.params, 0, rest, sg);
      st1 := st.(toks := On(RPAREN, rest), prev := EndOfAll(ph.args), out := Emitted(st.out, ArgsCode(e.args, env)));
    }
    assert st1.out == Emitted(st.out, ArgsCode(e.args, env));
    CallLast(st, st1, e, i, rest, sg);
  }

  lemma AppliedIs(ph: Phrase)
    requires ph.Applied? && InLayer(ph, Primaries)
    ensures Tree(ph) == Call(ph.f, Trees(ph.args)) && AllPhrases(ph.args)
  {}

  lemma NoneSpelled(rest: Tokens, env: Scope)
    ensures Trees(Nothing) == NoArgs && SpellAll(Nothing, rest) == rest && ArgsCode(NoArgs, env) == Skip
  {}

  lemma FirstSpelled(phs: Phrases, rest: Tokens)
    requires phs.List? && AllPhrases(phs)
    ensures SpellAll(phs, rest).Tok? && SpellAll(phs, rest).head.kind != RPAREN
  {
    hide Spell, InLayer;
    Starts(phs.first, Ors, if phs.others.Nothing? then rest else On(COMMA, SpellAll(phs.others, rest)));
  }

  lemma CallLast(st: State, st1: State, e: Expr, i: nat, rest: Tokens, sg: Signatures)
    requires e.Call? && e.f in sg && Prepared(st, sg) && i == Find(st.out.funcs, e.f) && |st.types| < STACK_MAX
    requires TypeOf(e, st.locals, sg) == sg[e.f].ret && ExprCode(e, st.locals) == Cat(ArgsCode(e.args, st.locals), CallTo(e.f))
    requires st1 == st.(toks := On(RPAREN, rest), prev := st1.prev, out := Emitted(st.out, ArgsCode(e.args, st.locals)))
    ensures FinishCall(ArgsResult(st1, |st.out.funcs[i].params|), i, st.out.funcs[i])
         == Parsed(st, e, Token(RPAREN, LINE), rest, sg)
  {
    hide Emitted, WfOutput, ArgsCode, EmitCall, ExprCode, TypeOf, Find, IsNative;
    var c := ArgsCode(e.args, st.locals);
    PreparedKept(st, st1, c, sg);
    EmitKeepsTable(st.out, c);
    EmitCallIs(st1.out, i);
    EmitCat(st.out, c, CallTo(e.f));
  }

  lemma CallTree(e: Expr, env: Scope, sg: Signatures, depth: nat)
    requires e.Call? && OkExpr(e, env, sg, depth)
    ensures depth < STACK_MAX && e.f in sg && OkArgs(e.args, env, sg, sg[e.f].params, depth)
    ensures TypeOf(e, env, sg) == sg[e.f].ret && ExprCode(e, env) == Cat(ArgsCode(e.args, env), CallTo(e.f))
  {
    hide OkArgs, ArgsCode;
  }

  // ----- the grammar of the compiler -----

  /** The tokens that end an expression: the end of the file, a symbol that no rule of the grammar has, or
      any token of a later line but an opening parenthesis or a dot. */
  predicate EndsExpression(rest: Tokens) {
    rest.Tok? ==>
      if rest.head.line > LINE then rest.head.kind != LPAREN && rest.head.kind != DOT
      else rest.head.kind in {SEMICOLON, COMMA, COLON, QUESTION, AT, LBRACKET, RBRACKET, RPAREN, ARROW, KEY_CATCH}
  }

  /** expression() on any sentence of the grammar compiles the tree that the grammar gives it. */
  lemma ExpressionFollowsGrammar(st: State, ph: Phrase, rest: Tokens, sg: Signatures)
    requires Prepared(st, sg) && InLayer(ph, Ors) && st.toks == Spell(ph, rest) && EndsExpression(rest)
    requires OkExpr(Tree(ph), st.locals, sg, |st.types|)
    ensures Expression(st) == Derived(st, ph, rest, sg)
  {
    hide InLayer, Spell, Tree, OkExpr, Derived, ParsePrecedence, Infixes, Prepared;
    EndsEveryLayer(rest);
    ParsePhrase(st, ph, Ors, PREC_ASSIGNMENT, rest, sg);
    LoopStops(st, ph, rest, sg, PREC_ASSIGNMENT, 0);
  }

  lemma EndsEveryLayer(rest: Tokens)
    requires EndsExpression(rest)
    ensures EndsLayer(rest, 0) && EndsLayer(rest, PREC_OR)
  {}

  /** The loop ends where a new line starts after a token that can end a statement. */
  lemma NewLineStops(st: State, prec: nat)
    requires prec > 0 && st.toks.Tok? && st.toks.head.line > st.prev.line && CanEnd(st.prev.kind)
    ensures Infixes(st, prec) == st
  {}

  /** A print ends at the end of its line: nothing that stands on a later line continues it. */
  lemma PrintEndsAtNewLine(st: State, ph: Phrase, rest: Tokens, sg: Signatures)
    requires Prepared(st, sg) && InLayer(ph, Ors) && st.toks == Spell(ph, On(BANG_BANG, rest))
    requires rest.Tok? && rest.head.line > LINE && OkExpr(Tree(ph), st.locals, sg, |st.types|)
    ensures Expression(st) == PrintOp(Advance(Derived(st, ph, On(BANG_BANG, rest), sg)))
  {
    hide InLayer, Spell, Tree, OkExpr, ParsePrecedence, Infixes, Prepared, EndOf, Put, Encode;
    var st1 := Derived(st, ph, On(BANG_BANG, rest), sg);
    EndsOnLine(ph);
    ParsePhrase(st, ph, Ors, PREC_ASSIGNMENT, On(BANG_BANG, rest), sg);
    OnePrint(st1, rest);
    NewLineStops(PrintOp(Advance(st1)), PREC_ASSIGNMENT);
  }

  lemma OnePrint(st: State, rest: Tokens)
    requires st.toks == On(BANG_BANG, rest) && st.prev.line == LINE
    ensures Infixes(st, PREC_ASSIGNMENT) == Infixes(PrintOp(Advance(st)), PREC_ASSIGNMENT)
    ensures PrintOp(Advance(st)).toks == rest && PrintOp(Advance(st)).prev == Token(BANG_BANG, LINE)
  {
    hide PrintOp;
    PrintMoves(Advance(st));
  }

  lemma PrintMoves(st: State)
    ensures PrintOp(st).toks == st.toks && PrintOp(st).prev == st.prev
  {}

  /** So do break and continue. */
  lemma JumpsEndAtNewLine(st: State, k: Kind, rest: Tokens)
    requires (k == DOT || k == DOT_DOT) && st.toks == On(k, rest) && rest.Tok? && rest.head.line > LINE
    ensures Expression(st) == if k == DOT then BreakOp(Advance(st)) else ContinueOp(Advance(st))
  {
    hide Infixes;
    OnePrefix(st, PREC_ASSIGNMENT);
    NewLineStops(Prefix(Advance(st)), PREC_ASSIGNMENT);
  }

  /** The state after tokens that mean e. */
  predicate CompilesAs(st: State, e: Expr, rest: Tokens, sg: Signatures) {
    && Expression(st).fault == NoFault && Expression(st).toks == rest
    && Expression(st).out == Emitted(st.out, ExprCode(e, st.locals))
  }

  lemma DerivedCompiles(st: State, ph: Phrase, rest: Tokens, sg: Signatures)
    requires Prepared(st, sg) && InLayer(ph, Ors) && st.toks == Spell(ph, rest) && EndsExpression(rest)
    requires OkExpr(Tree(ph), st.locals, sg, |st.types|)
    ensures CompilesAs(st, Tree(ph), rest, sg)
  {
    hide InLayer, Spell, Tree, OkExpr, Expression, ExprCode, Emitted;
    ExpressionFollowsGrammar(st, ph, rest, sg);
  }

  lemma JoinedIn(l: Phrase, sign: Kind, r: Phrase, layer: Layer)
    requires InLayer(l, layer) && InLayer(r, Tighter(layer)) && Joins(sign, layer)
    ensures InLayer(Joined(l, sign, r), layer)
  {}

  /** A joined pair of members of tighter layers. */
  lemma JoinedFits(l: Phrase, ll: Layer, sign: Kind, r: Phrase, rl: Layer, layer: Layer, place: Layer)
    requires InLayer(l, ll) && InLayer(r, rl) && Joins(sign, layer)
    requires Looseness(ll) <= Looseness(layer) <= Looseness(place) && Looseness(rl) < Looseness(layer)
    ensures InLayer(Joined(l, sign, r), place)
  {
    hide InLayer, Joins;
    InLooser(l, ll, layer);
    InLooser(r, rl, Tighter(layer));
    JoinedIn(l, sign, r, layer);
    InLooser(Joined(l, sign, r), layer, place);
  }

  lemma JoinedSpells(l: Phrase, sign: Kind, r: Phrase, rest: Tokens)
    ensures Spell(Joined(l, sign, r), rest) == Spell(l, On(sign, Spell(r, rest)))
    ensures Tree(Joined(l, sign, r)) == Bin(Symbol(sign), Tree(l), Tree(r))
  {}

  lemma Loosest(k: Kind, layer: Layer)
    requires Joins(k, layer)
    ensures Looseness(Primaries) < Looseness(layer) <= Looseness(Ors)
  {}

  /** a op b top c with top of a tighter layer than op: b belongs to top. */
  lemma TighterTakesTheRight(st: State, a: Phrase, op: Kind, loose: Layer, b: Phrase, top: Kind, tight: Layer, c: Phrase,
      rest: Tokens, sg: Signatures)
    requires InLayer(a, Primaries) && InLayer(b, Primaries) && InLayer(c, Primaries)
    requires Joins(op, loose) && Joins(top, tight) && Looseness(tight) < Looseness(loose)
    requires Prepared(st, sg) && EndsExpression(rest)
    requires st.toks == Spell(a, On(op, Spell(b, On(top, Spell(c, rest)))))
    requires OkExpr(Bin(Symbol(op), Tree(a), Bin(Symbol(top), Tree(b), Tree(c))), st.locals, sg, |st.types|)
    ensures CompilesAs(st, Bin(Symbol(op), Tree(a), Bin(Symbol(top), Tree(b), Tree(c))), rest, sg)
  {
    hide *;
    var inner := Joined(b, top, c);
    Loosest(op, loose);
    Loosest(top, tight);
    JoinedFits(b, Primaries, top, c, Primaries, tight, tight);
    JoinedFits(a, Primaries, op, inner, tight, loose, Ors);
    JoinedSpells(b, top, c, rest);
    JoinedSpells(a, op, inner, rest);
    DerivedCompiles(st, Joined(a, op, inner), rest, sg);
  }

  /** a top b op c: b belongs to top again; and so it does when both are of the same layer. */
  lemma TighterOrFirstTakesTheLeft(st: State, a: Phrase, top: Kind, tight: Layer, b: Phrase, op: Kind, loose: Layer, c: Phrase,
      rest: Tokens, sg: Signatures)
    requires InLayer(a, Primaries) && InLayer(b, Primaries) && InLayer(c, Primaries)
    requires Joins(op, loose) && Joins(top, tight) && Looseness(tight) <= Looseness(loose)
    requires Prepared(st, sg) && EndsExpression(rest)
    requires st.toks == Spell(a, On(top, Spell(b, On(op, Spell(c, rest)))))
    requires OkExpr(Bin(Symbol(op), Bin(Symbol(top), Tree(a), Tree(b)), Tree(c)), st.locals, sg, |st.types|)
    ensures CompilesAs(st, Bin(Symbol(op), Bin(Symbol(top), Tree(a), Tree(b)), Tree(c)), rest, sg)
  {
    hide *;
    var inner := Joined(a, top, b);
    Loosest(op, loose);
    Loosest(top, tight);
    JoinedFits(a, Primaries, top, b, Primaries, tight, tight);
    JoinedFits(inner, tight, op, c, Primaries, loose, Ors);
    JoinedSpells(a, top, b, On(op, Spell(c, rest)));
    JoinedSpells(inner, op, c, rest);
    DerivedCompiles(st, Joined(inner, op, c), rest, sg);
  }

  // ----- printed expressions -----

  lemma {:induction false} PrintedEnd(e: Expr, place: Layer)
    ensures EndOf(PhraseOf(e, place)) == Last(e, Tightness(place))
    decreases e
  {
    LevelIs(e, place);
    match e
    case Un(_, e1) => PrintedEnd(e1, Signs);
    case Bin(_, _, r) =>
      OperatorIs(e);
      PrintedEnd(r, Tighter(LayerOf(e)));
    case _ =>
  }

  function LayerAt(level: nat): (layer: Layer)
    requires PREC_OR <= level <= PREC_UNARY
    ensures Tightness(layer) == level
  {
    if level == PREC_OR then Ors else if level == PREC_AND then Ands else if level == PREC_EQUALITY then Equalities
    else if level == PREC_COMPARISON then Comparisons else if level == PREC_TERM then Sums
    else if level == PREC_FACTOR then Products else Signs
  }

  /** parse_precedence on a printed expression: the expression, and then whatever operators follow it. */
  lemma ParseExpr(st: State, e: Expr, level: nat, prec: nat, rest: Tokens, sg: Signatures)
    requires Prepared(st, sg) && PREC_OR <= level <= PREC_UNARY && 1 <= prec <= level
    requires st.toks == ExprThen(e, level, rest) && Calm(rest, level)
    requires OkExpr(e, st.locals, sg, |st.types|)
    ensures ParsePrecedence(st, prec) == Infixes(Parsed(st, e, Last(e, level), rest, sg), prec)
  {
    hide OkExpr, ExprThen, Infixes, ParsePrecedence, Spell, Tree, PhraseOf, InLayer, Last, EndOf, Parsed, Prepared;
    var place := LayerAt(level);
    PrintedIsDerived(e, place, rest);
    PrintedEnd(e, place);
    CalmEnds(rest, level);
    ParsePhrase(st, PhraseOf(e, place), place, prec, rest, sg);
  }

  lemma {:induction false} PrintedArgsEnd(args: Args)
    requires args.Arg?
    ensures PhrasesOf(args).List? && EndOfAll(PhrasesOf(args)) == LastArg(args)
  {
    hide EndOf, PhraseOf, Last;
    PrintedEnd(args.first, Ors);
    if args.others.Arg? {
      PrintedArgsEnd(args.others);
    }
  }

  function LastArg(args: Args): Token
    requires args.Arg?
  {
    if args.others.NoArgs? then Last(args.first, PREC_OR) else LastArg(args.others)
  }

  function ArgsParsed(st: State, args: Args, rest: Tokens): State
    requires args.Arg?
  {
    st.(toks := rest, prev := LastArg(args), out := Emitted(st.out, ArgsCode(args, st.locals)))
  }

  /** The printed arguments from the n-th on. */
  lemma ParseArgs(st: State, args: Args, params: seq<Type>, n: nat, rest: Tokens, sg: Signatures)
    requires args.Arg? && Prepared(st, sg) && n <= |params|
    requires st.toks == ArgsThen(args, On(RPAREN, rest))
    requires OkArgs(args, st.locals, sg, params[n..], |st.types|)
    ensures Arguments(st, params, n) == ArgsResult(ArgsParsed(st, args, On(RPAREN, rest)), n + Count(args))
  {
    hide OkArgs, ArgsThen, Arguments, SpellAll, Trees, PhrasesOf, AllPhrases, Emitted, ArgsCode, Count, LastArg, EndOfAll;
    ArgsAreDerived(args, On(RPAREN, rest));
    PrintedArgsEnd(args);
    ParsePhrases(st, PhrasesOf(args), params, n, rest, sg);
  }

  lemma BinTokens(e: Expr, rest: Tokens)
    requires e.Bin?
    ensures BareThen(e, rest) == ExprThen(e.left, Level(e), On(TokenOf(e.bop), ExprThen(e.right, Level(e) + 1, rest)))
  {
    hide ExprThen;
  }

  /** The printed left operand of an operator, and the operator. */
  lemma LeftParsed(st: State, e: Expr, prec: nat, rest: Tokens, sg: Signatures) returns (st2: State)
    requires e.Bin? && Prepared(st, sg) && 1 <= prec <= Level(e)
    requires st.toks == BareThen(e, rest) && OkExpr(e.left, st.locals, sg, |st.types|)
    ensures Prepared(st2, sg) && st2.toks == ExprThen(e.right, Level(e) + 1, rest)
    ensures st2 == st.(toks := st2.toks, prev := Token(TokenOf(e.bop), LINE),
      types := st.types + [TypeOf(e.left, st.locals, sg)], out := Emitted(st.out, ExprCode(e.left, st.locals)))
    ensures ParsePrecedence(st, prec) == Infixes(BinaryRule(st2, e.bop, Level(e)), prec)
  {
    hide Prepared, OkExpr, ExprCode, Emitted, TypeOf, Infixes, ParsePrecedence, BinaryRule, PhraseOf, Spell, Tree, InLayer,
      BareThen, ExprThen, Level, LayerOf;
    var layer := LayerOf(e);
    var l, r := PhraseOf(e.left, layer), PhraseOf(e.right, Tighter(layer));
    OperatorIs(e);
    LevelIs(e, Ors);
    BinTokens(e, rest);
    PrintedIsDerived(e.left, layer, On(TokenOf(e.bop), ExprThen(e.right, Level(e) + 1, rest)));
    PrintedIsDerived(e.right, Tighter(layer), rest);
    JoinedIs(Joined(l, TokenOf(e.bop), r), layer, rest);
    st2 := LeftJoined(st, Joined(l, TokenOf(e.bop), r), layer, prec, rest, sg);
  }

  /** Its printed right operand. */
  lemma RightParsed(st: State, st2: State, e: Expr, rest: Tokens, sg: Signatures) returns (st3: State)
    requires e.Bin? && Prepared(st2, sg) && st2.toks == ExprThen(e.right, Level(e) + 1, rest) && Calm(rest, Level(e))
    requires st2 == st.(toks := st2.toks, prev := st2.prev,
      types := st.types + [TypeOf(e.left, st.locals, sg)], out := Emitted(st.out, ExprCode(e.left, st.locals)))
    requires OkExpr(e.right, st.locals, sg, |st.types| + 1)
    ensures st3 == st.(toks := rest, prev := LastBare(e),
      types := (st.types + [TypeOf(e.left, st.locals, sg)]) + [TypeOf(e.right, st.locals, sg)],
      out := Emitted(Emitted(st.out, ExprCode(e.left, st.locals)), ExprCode(e.right, st.locals)))
    ensures ParsePrecedence(st2, Level(e) + 1) == st3
  {
    hide Emitted, WfOutput, Table, ExprThen, ParsePrecedence, Infixes, OkExpr, ExprCode, TypeOf;
    Levels(e);
    ParseExpr(st2, e.right, Level(e) + 1, Level(e) + 1, rest, sg);
    st3 := Parsed(st2, e.right, Last(e.right, Level(e) + 1), rest, sg);
    InfixesStop(st3, Level(e) + 1);
    LastOfBin(e);
  }

  lemma LastOfBin(e: Expr)
    requires e.Bin?
    ensures LastBare(e) == Last(e.right, Level(e) + 1)
  {}

  lemma EmptyArgs(rest: Tokens, env: Scope)
    ensures ArgsThen(NoArgs, rest) == rest && ArgsCode(NoArgs, env) == Skip
  {}

  lemma FirstArg(args: Args, rest: Tokens)
    requires args.Arg?
    ensures ArgsThen(args, rest).Tok? && ArgsThen(args, rest).head.kind != RPAREN
  {
    hide ExprThen;
    FirstToken(args.first, PREC_OR, if args.others.NoArgs? then rest else On(COMMA, ArgsThen(args.others, rest)));
  }
}
