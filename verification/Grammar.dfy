/** The grammar of expressions in layers, each a left-associated list of the next one, with the symbols
    that belong to each layer written out; and printed expressions as sentences of it. */
module Grammar {
  import opened Syntax
  import opened Tokens
  import opened Printing

  /** From the loosest to the tightest. */
  datatype Layer = Ors | Ands | Equalities | Comparisons | Sums | Products | Signs | Primaries

  function Tighter(layer: Layer): Layer {
    match layer
    case Ors => Ands case Ands => Equalities case Equalities => Comparisons case Comparisons => Sums
    case Sums => Products case Products => Signs case Signs => Primaries case Primaries => Primaries
  }

  /** The symbols that join the members of a layer. */
  predicate Joins(k: Kind, layer: Layer) {
    match layer
    case Ors => k == BAR_BAR
    case Ands => k == AMP_AMP
    case Equalities => k == EQ_EQ || k == BANG_EQ
    case Comparisons => k == LANGLE || k == RANGLE || k == LESS_EQ || k == GREATER_EQ
    case Sums => k == PLUS || k == MINUS
    case Products => k == STAR || k == SLASH || k == PERCENT
    case _ => false
  }

  /** What each of these symbols stands for. */
  function Symbol(k: Kind): BinOp {
    match k
    case PLUS => Plus case MINUS => Less case STAR => Times case SLASH => Over case PERCENT => Percent
    case EQ_EQ => Equal case BANG_EQ => NotEqual
    case LANGLE => Below case RANGLE => Above case LESS_EQ => AtMost case GREATER_EQ => AtLeast
    case AMP_AMP => Both case _ => Either
  }

  /** A derivation. */
  datatype Phrase =
    | Numeral(n: Literal)
    | Truth(b: bool)
    | Word(x: Name)
    | Grouped(inside: Phrase)
    | Applied(f: Name, args: Phrases)
    | Signed(sign: Kind, body: Phrase)
    | Joined(left: Phrase, sign: Kind, right: Phrase)

  datatype Phrases = Nothing | List(first: Phrase, others: Phrases)

  function Looseness(layer: Layer): nat {
    match layer
    case Primaries => 0 case Signs => 1 case Products => 2 case Sums => 3
    case Comparisons => 4 case Equalities => 5 case Ands => 6 case Ors => 7
  }

  /** The rules: a member of a layer is a member of the next one, or a member of the same layer, one of its
      symbols, and a member of the next layer. */
  predicate InLayer(ph: Phrase, layer: Layer)
    decreases ph, Looseness(layer)
  {
    match layer
    case Primaries =>
      (match ph
       case Grouped(inside) => InLayer(inside, Ors)
       case Applied(_, args) => AllPhrases(args)
       case Signed(_, _) => false
       case Joined(_, _, _) => false
       case _ => true)
    case Signs =>
      InLayer(ph, Primaries) || (ph.Signed? && (ph.sign == MINUS || ph.sign == BANG) && InLayer(ph.body, Signs))
    case _ =>
      InLayer(ph, Tighter(layer))
      || (ph.Joined? && Joins(ph.sign, layer) && InLayer(ph.left, layer) && InLayer(ph.right, Tighter(layer)))
  }

  predicate AllPhrases(phs: Phrases)
    decreases phs, 0
  {
    phs.List? ==> InLayer(phs.first, Ors) && AllPhrases(phs.others)
  }

  function Tree(ph: Phrase): Expr {
    match ph
    case Numeral(n) => IntLit(n)
    case Truth(b) => BoolLit(b)
    case Word(x) => Var(x)
    case Grouped(inside) => Tree(inside)
    case Applied(f, args) => Call(f, Trees(args))
    case Signed(sign, body) => Un(if sign == MINUS then Minus else Bang, Tree(body))
    case Joined(l, sign, r) => Bin(Symbol(sign), Tree(l), Tree(r))
  }

  function Trees(phs: Phrases): Args {
    match phs
    case Nothing => NoArgs
    case List(ph, others) => Arg(Tree(ph), Trees(others))
  }

  /** The tokens of a derivation from left to right, and those that follow it. */
  function Spell(ph: Phrase, rest: Tokens): Tokens {
    match ph
    case Numeral(n) => On(INT(n), rest)
    case Truth(b) => On(BOOL(b), rest)
    case Word(x) => On(ID(x), rest)
    case Grouped(inside) => On(LPAREN, Spell(inside, On(RPAREN, rest)))
    case Applied(f, args) => On(ID(f), On(LPAREN, SpellAll(args, On(RPAREN, rest))))
    case Signed(sign, body) => On(sign, Spell(body, rest))
    case Joined(l, sign, r) => Spell(l, On(sign, Spell(r, rest)))
  }

  function SpellAll(phs: Phrases, rest: Tokens): Tokens {
    match phs
    case Nothing => rest
    case List(ph, Nothing) => Spell(ph, rest)
    case List(ph, others) => Spell(ph, On(COMMA, SpellAll(others, rest)))
  }

  /** The last token of a derivation. */
  function EndOf(ph: Phrase): Token {
    match ph
    case Numeral(n) => Token(INT(n), LINE)
    case Truth(b) => Token(BOOL(b), LINE)
    case Word(x) => Token(ID(x), LINE)
    case Signed(_, body) => EndOf(body)
    case Joined(_, _, r) => EndOf(r)
    case _ => Token(RPAREN, LINE)
  }

  lemma {:induction false} EndsOnLine(ph: Phrase)
    ensures EndOf(ph).line == LINE && CanEnd(EndOf(ph).kind)
  {
    match ph
    case Signed(_, body) => EndsOnLine(body);
    case Joined(_, _, r) => EndsOnLine(r);
    case _ =>
  }

  predicate StartsExpr(k: Kind) {
    k.INT? || k.BOOL? || k.ID? || k == MINUS || k == BANG || k == LPAREN
  }

  lemma {:induction false} Starts(ph: Phrase, layer: Layer, rest: Tokens)
    requires InLayer(ph, layer)
    ensures var ts := Spell(ph, rest); ts.Tok? && ts.head.line == LINE && StartsExpr(ts.head.kind)
    decreases ph, Looseness(layer)
  {
    if layer != Primaries && InLayer(ph, Tighter(layer)) {
      Starts(ph, Tighter(layer), rest);
    } else if ph.Joined? {
      Starts(ph.left, layer, On(ph.sign, Spell(ph.right, rest)));
    }
  }

  lemma {:induction false} InLooser(ph: Phrase, layer: Layer, place: Layer)
    requires InLayer(ph, layer) && Looseness(layer) <= Looseness(place)
    ensures InLayer(ph, place)
    decreases Looseness(place)
  {
    if layer != place {
      InLooser(ph, layer, Tighter(place));
    }
  }

  // ----- the table of the compiler -----

  /** The precedence that stands for a layer in the table. */
  function Tightness(layer: Layer): (n: nat)
    ensures PREC_OR <= n <= PREC_CALL
  {
    match layer
    case Ors => PREC_OR case Ands => PREC_AND case Equalities => PREC_EQUALITY case Comparisons => PREC_COMPARISON
    case Sums => PREC_TERM case Products => PREC_FACTOR case Signs => PREC_UNARY case Primaries => PREC_CALL
  }

  /** The table agrees with the grammar. */
  lemma SignIs(k: Kind, layer: Layer)
    requires Joins(k, layer)
    ensures BinaryOf(k) == Some(Symbol(k)) && TokenOf(Symbol(k)) == k
    ensures Precedence(k) == Tightness(layer) < PREC_UNARY
    ensures Tightness(Tighter(layer)) == Tightness(layer) + 1
  {}

  // ----- printed expressions are sentences -----

  function LayerOf(e: Expr): Layer {
    match e
    case Un(_, _) => Signs
    case Bin(op, _, _) =>
      (match op
       case Either => Ors
       case Both => Ands
       case Equal => Equalities case NotEqual => Equalities
       case Below => Comparisons case Above => Comparisons case AtMost => Comparisons case AtLeast => Comparisons
       case Plus => Sums case Less => Sums
       case Times => Products case Over => Products case Percent => Products)
    case _ => Primaries
  }

  /** The derivation of an expression at a place of that layer: in parentheses where it is too loose. */
  function PhraseOf(e: Expr, place: Layer): Phrase
    decreases e, 1
  {
    if Looseness(LayerOf(e)) > Looseness(place) then Grouped(BarePhrase(e)) else BarePhrase(e)
  }

  function BarePhrase(e: Expr): Phrase
    decreases e, 0
  {
    match e
    case IntLit(n) => Numeral(n)
    case BoolLit(b) => Truth(b)
    case Var(x) => Word(x)
    case Un(op, e1) => Signed(if op == Minus then MINUS else BANG, PhraseOf(e1, Signs))
    case Bin(op, l, r) => Joined(PhraseOf(l, LayerOf(e)), TokenOf(op), PhraseOf(r, Tighter(LayerOf(e))))
    case Call(f, args) => Applied(f, PhrasesOf(args))
  }

  function PhrasesOf(args: Args): Phrases
    decreases args
  {
    match args
    case NoArgs => Nothing
    case Arg(e, others) => List(PhraseOf(e, Ors), PhrasesOf(others))
  }

  lemma OperatorIs(e: Expr)
    requires e.Bin?
    ensures Joins(TokenOf(e.bop), LayerOf(e)) && Symbol(TokenOf(e.bop)) == e.bop
    ensures Tightness(Tighter(LayerOf(e))) == Tightness(LayerOf(e)) + 1
  {}

  lemma LevelIs(e: Expr, place: Layer)
    ensures Level(e) < Tightness(place) <==> Looseness(LayerOf(e)) > Looseness(place)
    ensures e.Bin? ==> Level(e) == Tightness(LayerOf(e))
  {}

  /** Printing writes a sentence of the grammar that derives the printed expression. */
  lemma {:induction false} PrintedIsDerived(e: Expr, place: Layer, rest: Tokens)
    ensures InLayer(PhraseOf(e, place), place) && Tree(PhraseOf(e, place)) == e
    ensures ExprThen(e, Tightness(place), rest) == Spell(PhraseOf(e, place), rest)
    decreases e, 1
  {
    hide BarePhrase, BareThen, LayerOf, Level, Tree, Spell;
    LevelIs(e, place);
    if Looseness(LayerOf(e)) > Looseness(place) {
      BareIsDerived(e, On(RPAREN, rest));
      InLooser(BarePhrase(e), LayerOf(e), Ors);
      GroupedIs(BarePhrase(e), rest);
      InLooser(Grouped(BarePhrase(e)), Primaries, place);
    } else {
      BareIsDerived(e, rest);
      InLooser(BarePhrase(e), LayerOf(e), place);
    }
  }

  lemma GroupedIs(ph: Phrase, rest: Tokens)
    ensures Tree(Grouped(ph)) == Tree(ph) && Spell(Grouped(ph), rest) == On(LPAREN, Spell(ph, On(RPAREN, rest)))
    ensures InLayer(ph, Ors) ==> InLayer(Grouped(ph), Primaries)
  {}

  lemma {:induction false} BareIsDerived(e: Expr, rest: Tokens)
    ensures InLayer(BarePhrase(e), LayerOf(e)) && Tree(BarePhrase(e)) == e && BareThen(e, rest) == Spell(BarePhrase(e), rest)
    decreases e, 0
  {
    hide PhraseOf, ExprThen, Level;
    match e
    case Un(op, e1) => PrintedIsDerived(e1, Signs, rest);
    case Bin(op, l, r) =>
      OperatorIs(e);
      LevelIs(e, Ors);
      var right := ExprThen(r, Tightness(LayerOf(e)) + 1, rest);
      PrintedIsDerived(l, LayerOf(e), On(TokenOf(op), right));
      PrintedIsDerived(r, Tighter(LayerOf(e)), rest);
      BinIsDerived(e, rest);
    case Call(f, args) => ArgsAreDerived(args, On(RPAREN, rest));
    case _ =>
  }

  lemma BinIsDerived(e: Expr, rest: Tokens)
    requires e.Bin?
    requires var layer, l, r := LayerOf(e), PhraseOf(e.left, LayerOf(e)), PhraseOf(e.right, Tighter(LayerOf(e)));
      && InLayer(l, layer) && InLayer(r, Tighter(layer)) && Tree(l) == e.left && Tree(r) == e.right
      && ExprThen(e.right, Tightness(layer) + 1, rest) == Spell(r, rest)
      && ExprThen(e.left, Tightness(layer), On(TokenOf(e.bop), Spell(r, rest))) == Spell(l, On(TokenOf(e.bop), Spell(r, rest)))
    ensures InLayer(BarePhrase(e), LayerOf(e)) && Tree(BarePhrase(e)) == e && BareThen(e, rest) == Spell(BarePhrase(e), rest)
  {
    hide PhraseOf, ExprThen;
    OperatorIs(e);
    LevelIs(e, Ors);
  }

  lemma {:induction false} ArgsAreDerived(args: Args, rest: Tokens)
    ensures AllPhrases(PhrasesOf(args)) && Trees(PhrasesOf(args)) == args
    ensures ArgsThen(args, rest) == SpellAll(PhrasesOf(args), rest)
    decreases args, 0
  {
    hide PhraseOf, ExprThen, Spell, InLayer;
    if args.Arg? {
      if args.others.NoArgs? {
        PrintedIsDerived(args.first, Ors, rest);
      } else {
        ArgsAreDerived(args.others, rest);
        PrintedIsDerived(args.first, Ors, On(COMMA, ArgsThen(args.others, rest)));
      }
    }
  }
}
