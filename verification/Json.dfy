/** json_stringify and json_parse: the text of a value, the parser with its cursor, and exactly which
    values come back. */
module Json {
  import opened Bytes
  import opened Doubles

  /** A double that no int64_t equals: it has a fraction, is too large, or is not a number. */
  type Bits = nat

  /** A value as JSON sees it. An object is a list of entries; the order stands for that of its table, which
      may be any. */
  datatype Tree =
    | Null
    | Bool(b: bool)
    | Int(n: int64)
    | Float(bits: Bits)
    | Text(chars: seq<byte>)
    | List(items: seq<Tree>)
    | Dict(entries: seq<Member>)

  datatype Member = Member(key: Tree, value: Tree)

  const QUOTE: byte := 34
  const COMMA: byte := 44
  const MINUS: byte := 45
  const ZERO: byte := 48
  const COLON: byte := 58
  const OPEN_LIST: byte := 91
  const CLOSE_LIST: byte := 93
  const OPEN_DICT: byte := 123
  const CLOSE_DICT: byte := 125
  const TRUE: seq<byte> := [116, 114, 117, 101]
  const FALSE: seq<byte> := [102, 97, 108, 115, 101]
  const NULL: seq<byte> := [110, 117, 108, 108]

  /** isspace in the C locale. */
  predicate IsSpace(c: byte) {
    c == 32 || 9 <= c <= 13
  }

  /** isdigit: the characters 0 to 9. */
  predicate IsDigit(c: byte) {
    48 <= c <= 57
  }

  // ----- printing -----

  /** The decimal digits of n, as %ld prints them. */
  function Digits(n: nat): (r: seq<byte>)
    ensures r != [] && forall c | c in r :: IsDigit(c)
  {
    if n < 10 then [ZERO + n] else Digits(n / 10) + [ZERO + n % 10]
  }

  function Decimal(n: int): seq<byte> {
    if n < 0 then [MINUS] + Digits(Magnitude(n)) else Digits(n)
  }

  /** stringify_inner. The %g text of a float is a parameter: it is not part of this model. */
  function Print(t: Tree, floats: Bits -> seq<byte>): seq<byte>
    decreases t, 0
  {
    match t
    case Null => NULL
    case Bool(b) => if b then TRUE else FALSE
    case Int(n) => Decimal(n)
    case Float(bits) => UpToNul(floats(bits))
    case Text(chars) => [QUOTE] + UpToNul(chars) + [QUOTE]
    case List(items) => [OPEN_LIST] + PrintItems(items, floats) + [CLOSE_LIST]
    case Dict(entries) => [OPEN_DICT] + PrintEntries(entries, floats) + [CLOSE_DICT]
  }

  function PrintItems(items: seq<Tree>, floats: Bits -> seq<byte>): seq<byte>
    decreases items
  {
    if items == [] then []
    else if |items| == 1 then Print(items[0], floats)
    else Print(items[0], floats) + [COMMA] + PrintItems(items[1..], floats)
  }

  function PrintEntry(e: Member, floats: Bits -> seq<byte>): seq<byte>
    decreases e
  {
    Print(e.key, floats) + [COLON] + Print(e.value, floats)
  }

  function PrintEntries(entries: seq<Member>, floats: Bits -> seq<byte>): seq<byte>
    decreases entries
  {
    if entries == [] then []
    else if |entries| == 1 then PrintEntry(entries[0], floats)
    else PrintEntry(entries[0], floats) + [COMMA] + PrintEntries(entries[1..], floats)
  }

  // ----- parsing -----

  /** What strtod returns: the whole number n, or some other double. */
  datatype Double = Whole(n: int) | Other(bits: Bits)

  /** strtod: a double and the number of bytes it took from the front of the text. */
  type Scanner = seq<byte> -> (Double, nat)

  function ValueOf(digits: seq<byte>): nat
    requires forall c | c in digits :: IsDigit(c)
  {
    if digits == [] then 0
    else
      var last: int := digits[|digits| - 1];
      assert IsDigit(digits[|digits| - 1]);
      10 * ValueOf(digits[..|digits| - 1]) + (last - 48)
  }

  /** White space: the blank, the tab, the newline, the vertical tab, the form feed and the carriage return. */
  predicate Blank(c: byte) {
    c == 32 || c == 9 || c == 10 || c == 11 || c == 12 || c == 13
  }

  predicate AllBlank(s: seq<byte>) {
    forall c | c in s :: Blank(c)
  }

  /** What may follow a number: white space, a comma, a colon or a closing bracket. */
  predicate Ends(rest: seq<byte>) {
    rest == [] || Blank(rest[0]) || rest[0] == 44 || rest[0] == 58 || rest[0] == 93 || rest[0] == 125
  }

  function Signed(negative: bool, n: nat): int {
    var m: int := n;
    if negative then -m else m
  }

  function Sign(negative: bool): seq<byte> {
    if negative then [MINUS] else []
  }

  predicate AllDigits(digits: seq<byte>) {
    digits != [] && forall c | c in digits :: IsDigit(c)
  }

  predicate ReadsDecimal(scan: Scanner, negative: bool, digits: seq<byte>, rest: seq<byte>)
    requires AllDigits(digits)
  {
    scan(Sign(negative) + digits + rest)
    == (Whole(Nearest(Signed(negative, ValueOf(digits)))), |Sign(negative)| + |digits|)
  }

  /** On plain decimal digits strtod gives the nearest double and takes exactly the number. */
  ghost predicate ReadsDecimals(scan: Scanner) {
    forall negative: bool, digits: seq<byte>, rest: seq<byte> |
      AllDigits(digits) && Ends(rest) :: ReadsDecimal(scan, negative, digits, rest)
  }

  ghost predicate Bounded(scan: Scanner) {
    forall text: seq<byte> :: scan(text).1 <= |text|
  }

  /** What the C standard says of strtod, as far as it matters: a whole result is a number that a
      double can hold, and no more is taken than there is. */
  ghost predicate IsStrtod(scan: Scanner) {
    && ReadsDecimals(scan)
    && Bounded(scan)
    && (forall text: seq<byte> :: scan(text).0.Whole? ==> Representable(scan(text).0.n))
  }

  /** The character at the cursor, zero at the end. */
  function At(text: seq<byte>, pos: nat): byte {
    if pos < |text| then text[pos] else 0
  }

  function Skip(text: seq<byte>, pos: nat): (p: nat)
    ensures p >= pos && (pos <= |text| ==> p <= |text|)
    decreases |text| - pos
  {
    if pos < |text| && IsSpace(text[pos]) then Skip(text, pos + 1) else pos
  }

  /** Where the string that starts at pos ends: at a quote or at the end of the text. */
  function StringEnd(text: seq<byte>, pos: nat): (p: nat)
    requires pos <= |text|
    ensures pos <= p <= |text| && QUOTE !in text[pos..p]
    ensures p < |text| ==> text[p] == QUOTE
    decreases |text| - pos
  {
    if pos < |text| && text[pos] != QUOTE then StringEnd(text, pos + 1) else pos
  }

  predicate StartsWith(text: seq<byte>, pos: nat, word: seq<byte>) {
    pos + |word| <= |text| && text[pos..pos + |word|] == word
  }

  /** The test and the casts of parse_number: a double that an int64_t equals becomes an int. */
  function FromDouble(d: Double): Tree {
    match d
    case Whole(n) => if -0x8000_0000_0000_0000 <= n < 0x8000_0000_0000_0000 then Int(n) else Float(0)
    case Other(bits) => Float(bits)
  }

  /** values_equal on keys. A float key is compared by its value; two arrays read from text are never the same. */
  predicate SameKey(a: Tree, b: Tree) {
    (a.Int? || a.Bool? || a.Float? || a.Text?) && a == b
  }

  /** map_set. */
  function SetMember(entries: seq<Member>, key: Tree, value: Tree): seq<Member> {
    if entries == [] then [Member(key, value)]
    else if SameKey(entries[0].key, key) then [Member(entries[0].key, value)] + entries[1..]
    else [entries[0]] + SetMember(entries[1..], key, value)
  }

  /** The parser may go on for ever on malformed text: more steps than the fuel allows. */
  datatype Parsed = Done(t: Tree, pos: nat) | Running

  function AfterComma(text: seq<byte>, pos: nat): (p: nat)
    ensures pos <= |text| ==> p <= |text|
  {
    var q := Skip(text, pos);
    if At(text, q) == COMMA && q < |text| then Skip(text, q + 1) else q
  }

  function AfterColon(text: seq<byte>, pos: nat): (p: nat)
    ensures pos <= |text| ==> p <= |text|
  {
    var q := Skip(text, pos);
    Skip(text, if At(text, q) == COLON && q < |text| then q + 1 else q)
  }

  predicate Fine(text: seq<byte>, r: Parsed) {
    r.Done? ==> r.pos <= |text|
  }

  function ParseText(text: seq<byte>, pos: nat): (r: Parsed)
    requires pos < |text|
    ensures r.Done? && Fine(text, r)
  {
    var end := StringEnd(text, pos + 1);
    Done(Text(text[pos + 1..end]), if end < |text| then end + 1 else end)
  }

  /** parse_value. */
  function ParseValue(scan: Scanner, text: seq<byte>, pos: nat, fuel: nat): (r: Parsed)
    requires pos <= |text| && Bounded(scan)
    ensures Fine(text, r)
    decreases fuel
  {
    if fuel == 0 then Running
    else
      var p := Skip(text, pos);
      if p == |text| then Done(Null, p)
      else
        var c := text[p];
        if c == QUOTE then ParseText(text, p)
        else if c == OPEN_LIST then ParseItems(scan, text, Skip(text, p + 1), [], fuel - 1)
        else if c == OPEN_DICT then ParseEntries(scan, text, Skip(text, p + 1), [], fuel - 1)
        else if IsDigit(c) || c == MINUS then
          var (d, n) := scan(text[p..]);
          Done(FromDouble(d), p + n)
        else if StartsWith(text, p, TRUE) then Done(Bool(true), p + 4)
        else if StartsWith(text, p, FALSE) then Done(Bool(false), p + 5)
        else if StartsWith(text, p, NULL) then Done(Null, p + 4)
        else Done(Null, p)
  }

  /** The loop of parse_array. */
  function ParseItems(scan: Scanner, text: seq<byte>, pos: nat, items: seq<Tree>, fuel: nat): (r: Parsed)
    requires pos <= |text| && Bounded(scan)
    ensures Fine(text, r)
    decreases fuel
  {
    if fuel == 0 then Running
    else if pos == |text| then Done(List(items), pos)
    else if text[pos] == CLOSE_LIST then Done(List(items), pos + 1)
    else
      var v := ParseValue(scan, text, pos, fuel - 1);
      if v.Running? then Running
      else ParseItems(scan, text, AfterComma(text, v.pos), items + [v.t], fuel - 1)
  }

  /** The loop of parse_object. */
  function ParseEntries(scan: Scanner, text: seq<byte>, pos: nat, entries: seq<Member>, fuel: nat): (r: Parsed)
    requires pos <= |text| && Bounded(scan)
    ensures Fine(text, r)
    decreases fuel
  {
    if fuel == 0 then Running
    else if pos == |text| then Done(Dict(entries), pos)
    else if text[pos] == CLOSE_DICT then Done(Dict(entries), pos + 1)
    else
      var k := ParseValue(scan, text, pos, fuel - 1);
      if k.Running? then Running
      else
        var v := ParseValue(scan, text, AfterColon(text, k.pos), fuel - 1);
        if v.Running? then Running
        else ParseEntries(scan, text, AfterComma(text, v.pos), SetMember(entries, k.t, v.t), fuel - 1)
  }

  datatype Result = Ok(t: Tree) | Err | Endless

  /** native_json_parse. */
  function JsonParse(scan: Scanner, text: seq<byte>, fuel: nat): Result
    requires Bounded(scan)
  {
    var r := ParseValue(scan, text, 0, fuel);
    if r.Running? then Endless
    else if r.t.Null? && r.pos < |text| then Err
    else Ok(r.t)
  }

  // ----- which trees come back -----

  /** No string holds a quote or a zero byte, and a double holds every int. */
  predicate Clean(t: Tree)
    decreases t
  {
    match t
    case Int(n) => Representable(n)
    case Text(chars) => QUOTE !in chars && 0 !in chars
    case List(items) => forall i | i in items :: Clean(i)
    case Dict(entries) => forall e | e in entries :: Clean(e.key) && Clean(e.value)
    case _ => true
  }

  predicate NoFloats(t: Tree)
    decreases t
  {
    match t
    case Float(_) => false
    case List(items) => forall i | i in items :: NoFloats(i)
    case Dict(entries) => forall e | e in entries :: NoFloats(e.key) && NoFloats(e.value)
    case _ => true
  }

  predicate DistinctKeys(entries: seq<Member>) {
    forall i, j | 0 <= i < j < |entries| :: !SameKey(entries[i].key, entries[j].key)
  }

  /** Every map has each key once, as map_set keeps it. */
  predicate WellFormed(t: Tree)
    decreases t
  {
    match t
    case List(items) => forall i | i in items :: WellFormed(i)
    case Dict(entries) =>
      DistinctKeys(entries) && forall e | e in entries :: WellFormed(e.key) && WellFormed(e.value)
    case _ => true
  }

  predicate Printable(t: Tree) {
    Clean(t) && NoFloats(t) && WellFormed(t)
  }

  /** Trees with a text; unlike in a printable one, a map of such a tree may list a key twice. */
  predicate Readable(t: Tree) {
    Clean(t) && NoFloats(t)
  }

  predicate ReadableItems(items: seq<Tree>) {
    forall i | i in items :: Readable(i)
  }

  predicate ReadableEntries(entries: seq<Member>) {
    forall e | e in entries :: Readable(e.key) && Readable(e.value)
  }

  lemma ReadableRest(items: seq<Tree>, entries: seq<Member>)
    ensures items != [] && ReadableItems(items) ==> Readable(items[0]) && ReadableItems(items[1..])
    ensures entries != [] && ReadableEntries(entries)
            ==> Readable(entries[0].key) && Readable(entries[0].value) && ReadableEntries(entries[1..])
  {}

  /** The tree with one entry for each key of a map. */
  function Merged(t: Tree): Tree
    decreases t, 0
  {
    match t
    case List(items) => List(MergedItems(items))
    case Dict(entries) => Dict(MergedEntries([], entries))
    case _ => t
  }

  function MergedItems(items: seq<Tree>): seq<Tree>
    decreases items
  {
    if items == [] then [] else [Merged(items[0])] + MergedItems(items[1..])
  }

  function MergedEntry(e: Member): Member
    decreases e
  {
    Member(Merged(e.key), Merged(e.value))
  }

  /** The entries are set one after the other. */
  function MergedEntries(done: seq<Member>, entries: seq<Member>): seq<Member>
    decreases entries
  {
    if entries == [] then done
    else
      var e := MergedEntry(entries[0]);
      MergedEntries(SetMember(done, e.key, e.value), entries[1..])
  }

  /** Enough steps to read the printed tree back. */
  function Need(t: Tree): nat
    decreases t, 0
  {
    match t
    case List(items) => 1 + NeedItems(items)
    case Dict(entries) => 1 + NeedEntries(entries)
    case _ => 1
  }

  function NeedItems(items: seq<Tree>): nat
    decreases items
  {
    if items == [] then 1 else 1 + Need(items[0]) + NeedItems(items[1..])
  }

  function NeedEntry(e: Member): nat
    decreases e
  {
    Need(e.key) + Need(e.value)
  }

  function NeedEntries(entries: seq<Member>): nat
    decreases entries
  {
    if entries == [] then 1 else 1 + NeedEntry(entries[0]) + NeedEntries(entries[1..])
  }

  lemma NeedParts(t: Tree)
    ensures t.List? ==> Need(t) == 1 + NeedItems(t.items)
    ensures t.Dict? ==> Need(t) == 1 + NeedEntries(t.entries)
  {}

  lemma NeedRest(items: seq<Tree>, entries: seq<Member>)
    ensures NeedItems(items) > 0 && NeedEntries(entries) > 0
    ensures items != [] ==> NeedItems(items) == 1 + Need(items[0]) + NeedItems(items[1..])
    ensures entries != [] ==> NeedEntries(entries) == 1 + NeedEntry(entries[0]) + NeedEntries(entries[1..])
  {}

  // ----- the decimal digits -----

  lemma {:induction false} DigitsStandFor(n: nat)
    ensures ValueOf(Digits(n)) == n
    decreases n
  {
    var d := Digits(n);
    if n >= 10 {
      DigitsStandFor(n / 10);
      assert d[..|d| - 1] == Digits(n / 10);
    } else {
      assert d[..|d| - 1] == [];
    }
  }

  lemma DecimalStarts(n: int, rest: seq<byte>)
    ensures var s := Decimal(n) + rest; s[0] == MINUS || IsDigit(s[0])
  {
    assert Digits(Magnitude(n))[0] in Digits(Magnitude(n));
  }

  /** strtod on the text of an int. */
  lemma ScanDecimal(scan: Scanner, n: int, rest: seq<byte>)
    requires ReadsDecimals(scan) && Ends(rest)
    ensures scan(Decimal(n) + rest) == (Whole(Nearest(n)), |Decimal(n)|)
  {
    hide Digits, ValueOf, Nearest, Ends;
    var d := Digits(Magnitude(n));
    DigitsStandFor(Magnitude(n));
    assert Sign(n < 0) + d == Decimal(n);
    assert AllDigits(d) && ReadsDecimal(scan, n < 0, d, rest);
  }

  // ----- the texts of a tree -----

  /** The tokens of a tree, in plain bytes. */
  function Tokens(t: Tree, floats: Bits -> seq<byte>): seq<seq<byte>>
    decreases t, 0
  {
    match t
    case Null => [[110, 117, 108, 108]]
    case Bool(b) => [if b then [116, 114, 117, 101] else [102, 97, 108, 115, 101]]
    case Int(n) => [if n < 0 then [45] + Digits(Magnitude(n)) else Digits(n)]
    case Float(bits) => [UpToNul(floats(bits))]
    case Text(chars) => [[34] + UpToNul(chars) + [34]]
    case List(items) => [[91]] + (ItemTokens(items, floats) + [[93]])
    case Dict(entries) => [[123]] + (EntriesTokens(entries, floats) + [[125]])
  }

  function ItemTokens(items: seq<Tree>, floats: Bits -> seq<byte>): seq<seq<byte>>
    decreases items
  {
    if items == [] then []
    else Tokens(items[0], floats) + ((if |items| == 1 then [] else [[44]]) + ItemTokens(items[1..], floats))
  }

  function EntryTokens(e: Member, floats: Bits -> seq<byte>): seq<seq<byte>>
    decreases e
  {
    Tokens(e.key, floats) + ([[58]] + Tokens(e.value, floats))
  }

  function EntriesTokens(entries: seq<Member>, floats: Bits -> seq<byte>): seq<seq<byte>>
    decreases entries
  {
    if entries == [] then []
    else EntryTokens(entries[0], floats) + ((if |entries| == 1 then [] else [[44]]) + EntriesTokens(entries[1..], floats))
  }

  /** A run of white space before each of n tokens. */
  predicate Gaps(gaps: seq<seq<byte>>, n: nat) {
    |gaps| == n && forall g | g in gaps :: AllBlank(g)
  }

  /** The text of tokens with these gaps before them. */
  function Woven(gaps: seq<seq<byte>>, tokens: seq<seq<byte>>): seq<byte>
    requires |gaps| == |tokens|
  {
    if tokens == [] then [] else gaps[0] + tokens[0] + Woven(gaps[1..], tokens[1..])
  }

  lemma GapsSplit(gaps: seq<seq<byte>>, n: nat, k: nat)
    requires Gaps(gaps, n) && k <= n
    ensures Gaps(gaps[..k], k) && Gaps(gaps[k..], n - k)
  {}

  lemma {:induction false} WovenSplit(gaps: seq<seq<byte>>, a: seq<seq<byte>>, b: seq<seq<byte>>)
    requires |gaps| == |a| + |b|
    ensures Woven(gaps, a + b) == Woven(gaps[..|a|], a) + Woven(gaps[|a|..], b)
  {
    if a == [] {
      assert a + b == b && gaps[0..] == gaps;
    } else {
      assert (a + b)[0] == a[0] && (a + b)[1..] == a[1..] + b;
      WovenSplit(gaps[1..], a[1..], b);
      assert gaps[1..][..|a| - 1] == gaps[..|a|][1..] && gaps[1..][|a| - 1..] == gaps[|a|..];
      Regroup(gaps[0] + a[0], Woven(gaps[..|a|][1..], a[1..]), Woven(gaps[|a|..], b), []);
    }
  }

  lemma Regroup(a: seq<byte>, b: seq<byte>, c: seq<byte>, d: seq<byte>)
    ensures (a + b + c) + d == a + (b + c + d)
    ensures (a + b + c) + d == a + (b + (c + d))
  {}

  /** Without white space the text is the printed one. */
  function Flat(tokens: seq<seq<byte>>): seq<byte> {
    if tokens == [] then [] else tokens[0] + Flat(tokens[1..])
  }

  function NoGaps(n: nat): (gaps: seq<seq<byte>>)
    ensures Gaps(gaps, n)
  {
    seq(n, _ => [])
  }

  lemma {:induction false} NoGapsIsFlat(tokens: seq<seq<byte>>)
    ensures Woven(NoGaps(|tokens|), tokens) == Flat(tokens)
  {
    if tokens != [] {
      assert NoGaps(|tokens|)[1..] == NoGaps(|tokens| - 1);
      NoGapsIsFlat(tokens[1..]);
      assert [] + tokens[0] == tokens[0];
    }
  }

  lemma {:induction false} FlatSplit(a: seq<seq<byte>>, b: seq<seq<byte>>)
    ensures Flat(a + b) == Flat(a) + Flat(b)
  {
    if a == [] {
      assert a + b == b;
    } else {
      assert (a + b)[0] == a[0] && (a + b)[1..] == a[1..] + b;
      FlatSplit(a[1..], b);
      Regroup(a[0], Flat(a[1..]), Flat(b), []);
    }
  }

  lemma FlatOne(token: seq<byte>)
    ensures Flat([token]) == token
  {
    assert [token][1..] == [];
    assert token + [] == token;
  }

  /** json_stringify writes the tokens one after the other. */
  lemma {:induction false} PrintIsFlat(t: Tree, floats: Bits -> seq<byte>)
    ensures Print(t, floats) == Flat(Tokens(t, floats))
    decreases t, 0
  {
    match t
    case List(items) =>
      ItemsAreFlat(items, floats);
      BracketsAreFlat([91], ItemTokens(items, floats), [93]);
    case Dict(entries) =>
      EntriesAreFlat(entries, floats);
      BracketsAreFlat([123], EntriesTokens(entries, floats), [125]);
    case _ => FlatOne(Print(t, floats));
  }

  lemma BracketsAreFlat(open: seq<byte>, tokens: seq<seq<byte>>, close: seq<byte>)
    ensures Flat([open] + (tokens + [close])) == open + Flat(tokens) + close
  {
    FlatSplit([open], tokens + [close]);
    FlatSplit(tokens, [close]);
    FlatOne(open);
    FlatOne(close);
    Regroup(open, Flat(tokens), close, []);
  }

  lemma {:induction false} ItemsAreFlat(items: seq<Tree>, floats: Bits -> seq<byte>)
    ensures PrintItems(items, floats) == Flat(ItemTokens(items, floats))
    decreases items
  {
    hide Print, Tokens, Flat;
    if items == [] {
      EmptyIsFlat();
    } else {
      PrintIsFlat(items[0], floats);
      ItemsAreFlat(items[1..], floats);
      SeparatedIsFlat(Tokens(items[0], floats), |items| > 1, ItemTokens(items[1..], floats));
    }
  }

  lemma EmptyIsFlat()
    ensures Flat([]) == []
  {}

  lemma SeparatedIsFlat(first: seq<seq<byte>>, more: bool, others: seq<seq<byte>>)
    requires !more ==> others == []
    ensures Flat(first + ((if more then [[44]] else []) + others))
         == if more then Flat(first) + [44] + Flat(others) else Flat(first)
  {
    FlatSplit(first, (if more then [[44]] else []) + others);
    if more {
      FlatSplit([[44]], others);
      FlatOne([44]);
      Regroup(Flat(first), [44], Flat(others), []);
    } else {
      assert [] + others == [];
      assert Flat(first) + [] == Flat(first);
    }
  }

  lemma {:induction false} EntryIsFlat(e: Member, floats: Bits -> seq<byte>)
    ensures PrintEntry(e, floats) == Flat(EntryTokens(e, floats))
    decreases e
  {
    hide Print, Tokens, Flat;
    PrintIsFlat(e.key, floats);
    PrintIsFlat(e.value, floats);
    FlatSplit(Tokens(e.key, floats), [[58]] + Tokens(e.value, floats));
    FlatSplit([[58]], Tokens(e.value, floats));
    FlatOne([58]);
  }

  lemma {:induction false} EntriesAreFlat(entries: seq<Member>, floats: Bits -> seq<byte>)
    ensures PrintEntries(entries, floats) == Flat(EntriesTokens(entries, floats))
    decreases entries
  {
    hide PrintEntry, EntryTokens, Flat;
    if entries == [] {
      EmptyIsFlat();
    } else {
      EntryIsFlat(entries[0], floats);
      EntriesAreFlat(entries[1..], floats);
      SeparatedIsFlat(EntryTokens(entries[0], floats), |entries| > 1, EntriesTokens(entries[1..], floats));
    }
  }

  // ----- reading such a text -----

  /** The text from pos on. */
  predicate Reads(text: seq<byte>, pos: nat, s: seq<byte>) {
    pos <= |text| && text[pos..] == s
  }

  lemma Advance(text: seq<byte>, pos: nat, front: seq<byte>, rest: seq<byte>)
    requires Reads(text, pos, front + rest)
    ensures Reads(text, pos + |front|, rest)
    ensures forall i | 0 <= i < |front| :: text[pos + i] == front[i]
  {
    assert text[pos + |front|..] == text[pos..][|front|..];
    forall i | 0 <= i < |front|
      ensures text[pos + i] == front[i]
    {
      assert text[pos..][i] == front[i];
    }
  }

  lemma SkipNothing(text: seq<byte>, pos: nat)
    requires pos >= |text| || !IsSpace(text[pos])
    ensures Skip(text, pos) == pos
  {}

  lemma SpaceIsBlank(c: byte)
    ensures IsSpace(c) <==> Blank(c)
  {}

  /** skip_space takes a whole gap. */
  lemma {:induction false} SkipGap(text: seq<byte>, pos: nat, gap: seq<byte>, rest: seq<byte>)
    requires Reads(text, pos, gap + rest) && AllBlank(gap) && (rest != [] ==> !Blank(rest[0]))
    ensures Skip(text, pos) == pos + |gap| && Reads(text, pos + |gap|, rest)
    decreases |gap|
  {
    if gap == [] {
      assert [] + rest == rest;
      if rest != [] {
        assert text[pos..][0] == rest[0];
        SpaceIsBlank(rest[0]);
      }
    } else {
      assert text[pos..][0] == gap[0] && gap[0] in gap;
      SpaceIsBlank(gap[0]);
      assert text[pos + 1..] == text[pos..][1..];
      assert (gap + rest)[1..] == gap[1..] + rest;
      SkipGap(text, pos + 1, gap[1..], rest);
    }
  }

  lemma {:induction false} SkipTwice(text: seq<byte>, pos: nat)
    requires pos <= |text|
    ensures Skip(text, Skip(text, pos)) == Skip(text, pos)
    decreases |text| - pos
  {
    if pos < |text| && IsSpace(text[pos]) {
      SkipTwice(text, pos + 1);
    }
  }

  /** parse_value skips white space first. */
  lemma FromGap(scan: Scanner, text: seq<byte>, pos: nat, fuel: nat)
    requires pos <= |text| && Bounded(scan)
    ensures ParseValue(scan, text, Skip(text, pos), fuel) == ParseValue(scan, text, pos, fuel)
  {
    SkipTwice(text, pos);
    hide Skip, ParseItems, ParseEntries, ParseText, StartsWith;
  }

  predicate Plain(token: seq<byte>) {
    token != [] && !Blank(token[0])
  }

  /** The next token of a text, behind its gap. */
  lemma NextToken(text: seq<byte>, pos: nat, gaps: seq<seq<byte>>, tokens: seq<seq<byte>>, rest: seq<byte>) returns (p: nat)
    requires tokens != [] && Gaps(gaps, |tokens|) && Plain(tokens[0])
    requires Reads(text, pos, Woven(gaps, tokens) + rest)
    ensures p == Skip(text, pos) == pos + |gaps[0]| && p < |text| && text[p] == tokens[0][0]
    ensures Gaps(gaps[1..], |tokens| - 1)
    ensures Reads(text, p, tokens[0] + (Woven(gaps[1..], tokens[1..]) + rest))
    ensures Reads(text, p + |tokens[0]|, Woven(gaps[1..], tokens[1..]) + rest)
  {
    var gap, token, more := gaps[0], tokens[0], Woven(gaps[1..], tokens[1..]);
    assert Woven(gaps, tokens) == gap + token + more;
    hide Woven, Skip;
    Regroup(gap, token, more, rest);
    assert (gap + token + more) + rest == gap + (token + (more + rest)) by {
      Regroup(token, more, rest, []);
    }
    assert gap in gaps;
    p := pos + |gap|;
    SkipGap(text, pos, gap, token + (more + rest));
    Advance(text, p, token, more + rest);
    assert text[p + 0] == token[0];
    forall g | g in gaps[1..]
      ensures AllBlank(g)
    {
      assert g in gaps;
    }
  }

  /** The first token of a tree is no space, comma, colon or closing bracket. */
  lemma {:induction false} LeafStarts(t: Tree, floats: Bits -> seq<byte>)
    requires NoFloats(t)
    ensures var s := Print(t, floats);
            s != [] && !IsSpace(s[0]) && s[0] != COMMA && s[0] != COLON && s[0] != CLOSE_LIST && s[0] != CLOSE_DICT
  {
    match t
    case Int(n) => DecimalStarts(n, []); assert Decimal(n) + [] == Decimal(n);
    case _ =>
  }

  lemma LeafToken(t: Tree, floats: Bits -> seq<byte>)
    requires !t.List? && !t.Dict?
    ensures Tokens(t, floats) == [Print(t, floats)]
  {}

  lemma TokensStart(t: Tree, floats: Bits -> seq<byte>)
    requires NoFloats(t)
    ensures var tokens := Tokens(t, floats);
      && tokens != [] && Plain(tokens[0])
      && tokens[0][0] != 44 && tokens[0][0] != 58 && tokens[0][0] != 93 && tokens[0][0] != 125
  {
    if !t.List? && !t.Dict? {
      LeafToken(t, floats);
      LeafStarts(t, floats);
      SpaceIsBlank(Print(t, floats)[0]);
    }
  }

  /** Behind a value stands a gap or one of these tokens. */
  lemma WovenEnds(gaps: seq<seq<byte>>, tokens: seq<seq<byte>>, rest: seq<byte>)
    requires tokens != [] && Gaps(gaps, |tokens|)
    requires tokens[0] == [44] || tokens[0] == [58] || tokens[0] == [93] || tokens[0] == [125]
    ensures Ends(Woven(gaps, tokens) + rest)
  {
    assert gaps[0] in gaps;
    if gaps[0] != [] {
      assert (Woven(gaps, tokens) + rest)[0] == gaps[0][0] && gaps[0][0] in gaps[0];
    } else {
      assert (Woven(gaps, tokens) + rest)[0] == tokens[0][0];
    }
  }

  lemma {:induction false} StringEndIs(text: seq<byte>, pos: nat, chars: seq<byte>, rest: seq<byte>)
    requires Reads(text, pos, chars + ([QUOTE] + rest)) && QUOTE !in chars
    ensures StringEnd(text, pos) == pos + |chars|
    decreases |chars|
  {
    if chars == [] {
      assert text[pos..][0] == QUOTE;
    } else {
      assert text[pos..][0] == chars[0] && chars[0] in chars;
      assert text[pos + 1..] == text[pos..][1..];
      assert (chars + ([QUOTE] + rest))[1..] == chars[1..] + ([QUOTE] + rest);
      StringEndIs(text, pos + 1, chars[1..], rest);
    }
  }

  lemma ReadString(text: seq<byte>, pos: nat, chars: seq<byte>, rest: seq<byte>)
    requires Reads(text, pos, [QUOTE] + chars + [QUOTE] + rest) && QUOTE !in chars
    ensures pos < |text| && ParseText(text, pos) == Done(Text(chars), pos + |chars| + 2)
  {
    assert [QUOTE] + chars + [QUOTE] + rest == [QUOTE] + (chars + ([QUOTE] + rest));
    Advance(text, pos, [QUOTE], chars + ([QUOTE] + rest));
    StringEndIs(text, pos + 1, chars, rest);
    Advance(text, pos + 1, chars, [QUOTE] + rest);
    assert text[pos + 1..pos + 1 + |chars|] == chars;
    assert text[pos + 1 + |chars|..][0] == QUOTE;
  }

  /** A literal word is recognized. */
  lemma ReadWord(text: seq<byte>, pos: nat, word: seq<byte>, rest: seq<byte>)
    requires Reads(text, pos, word + rest)
    ensures StartsWith(text, pos, word)
  {
    Advance(text, pos, word, rest);
    assert text[pos..pos + |word|] == word;
  }

  lemma WordStart(text: seq<byte>, pos: nat, word: seq<byte>)
    requires word != []
    ensures StartsWith(text, pos, word) ==> pos < |text| && text[pos] == word[0]
  {
    if StartsWith(text, pos, word) {
      assert text[pos..pos + |word|][0] == text[pos];
    }
  }

  lemma WordsDiffer(text: seq<byte>, pos: nat)
    requires StartsWith(text, pos, FALSE) || StartsWith(text, pos, NULL)
    ensures pos < |text| && !StartsWith(text, pos, TRUE)
    ensures StartsWith(text, pos, NULL) ==> !StartsWith(text, pos, FALSE)
  {
    hide StartsWith;
    WordStart(text, pos, TRUE);
    WordStart(text, pos, FALSE);
    WordStart(text, pos, NULL);
  }

  ghost predicate Scans(scan: Scanner) {
    ReadsDecimals(scan) && Bounded(scan)
  }

  /** The leaves: what is printed is read back, and the cursor stands right behind it. */
  lemma LeafComesBack(scan: Scanner, t: Tree, floats: Bits -> seq<byte>, text: seq<byte>, pos: nat, rest: seq<byte>, fuel: nat)
    requires Scans(scan) && Readable(t) && !t.List? && !t.Dict? && fuel > 0
    requires Reads(text, pos, Print(t, floats) + rest) && Ends(rest)
    ensures ParseValue(scan, text, pos, fuel) == Done(t, pos + |Print(t, floats)|)
  {
    var s := Print(t, floats);
    LeafStarts(t, floats);
    Advance(text, pos, s, rest);
    SkipNothing(text, pos);
    match t
    case Null =>
      ReadWord(text, pos, NULL, rest);
      WordsDiffer(text, pos);
    case Bool(b) =>
      ReadWord(text, pos, s, rest);
      if !b {
        WordsDiffer(text, pos);
      }
    case Int(n) =>
      NearestIsExact(n);
      ScanDecimal(scan, n, rest);
      DecimalStarts(n, rest);
    case Text(chars) =>
      ReadString(text, pos, chars, rest);
  }

  // ----- arrays and objects -----

  lemma EndOf(text: seq<byte>, pos: nat, front: seq<byte>, rest: seq<byte>)
    requires Reads(text, pos, front + rest)
    ensures |text| - |rest| == pos + |front| <= |text|
  {}

  /** The step over the comma that may stand before these tokens: the cursor is then before the next of them. */
  lemma OverComma(text: seq<byte>, pos: nat, gaps: seq<seq<byte>>, more: bool, tokens: seq<seq<byte>>, rest: seq<byte>)
      returns (q: nat, gaps': seq<seq<byte>>)
    requires tokens != [] && Plain(tokens[0]) && tokens[0][0] != 44
    requires Gaps(gaps, |tokens| + if more then 1 else 0)
    requires Reads(text, pos, Woven(gaps, (if more then [[44]] else []) + tokens) + rest)
    ensures AfterComma(text, pos) == Skip(text, q) && q <= |text|
    ensures Gaps(gaps', |tokens|) && Reads(text, q, Woven(gaps', tokens) + rest)
  {
    hide Woven, Skip, AllBlank;
    if more {
      assert ([[44]] + tokens)[1..] == tokens;
      var p := NextToken(text, pos, gaps, [[44]] + tokens, rest);
      q, gaps' := p + 1, gaps[1..];
    } else {
      assert [] + tokens == tokens;
      var p := NextToken(text, pos, gaps, tokens, rest);
      q, gaps' := pos, gaps;
    }
  }

  /** The step over a colon. */
  lemma OverColon(text: seq<byte>, pos: nat, gaps: seq<seq<byte>>, tokens: seq<seq<byte>>, rest: seq<byte>)
      returns (q: nat)
    requires Gaps(gaps, |tokens| + 1)
    requires Reads(text, pos, Woven(gaps, [[58]] + tokens) + rest)
    ensures AfterColon(text, pos) == Skip(text, q) && q <= |text|
    ensures Gaps(gaps[1..], |tokens|) && Reads(text, q, Woven(gaps[1..], tokens) + rest)
  {
    hide Woven, Skip, AllBlank;
    assert ([[58]] + tokens)[1..] == tokens;
    var p := NextToken(text, pos, gaps, [[58]] + tokens, rest);
    q := p + 1;
  }

  /** A key that is not there yet goes to the end. */
  lemma {:induction false} SetNew(entries: seq<Member>, e: Member)
    requires forall i | 0 <= i < |entries| :: !SameKey(entries[i].key, e.key)
    ensures SetMember(entries, e.key, e.value) == entries + [e]
  {
    if entries != [] {
      forall i | 0 <= i < |entries[1..]|
        ensures !SameKey(entries[1..][i].key, e.key)
      {
        assert entries[1..][i] == entries[i + 1];
      }
      SetNew(entries[1..], e);
    }
  }

  lemma MergedParts(t: Tree)
    ensures t.List? ==> Merged(t) == List(MergedItems(t.items))
    ensures t.Dict? ==> Merged(t) == Dict(MergedEntries([], t.entries))
  {}

  lemma NothingMerged(done: seq<Member>)
    ensures MergedItems([]) == [] && MergedEntries(done, []) == done
  {}

  lemma MergedRest(items: seq<Tree>, done: seq<Member>, entries: seq<Member>)
    ensures items != [] ==> MergedItems(items) == [Merged(items[0])] + MergedItems(items[1..])
    ensures entries != [] ==> MergedEntry(entries[0]) == Member(Merged(entries[0].key), Merged(entries[0].value))
    ensures entries != [] ==>
      MergedEntries(SetMember(done, Merged(entries[0].key), Merged(entries[0].value)), entries[1..]) == MergedEntries(done, entries)
  {}

  /** Any text of a tree, whatever the white space before its tokens, is read as the tree with its repeated keys
      merged, by any parse with enough steps, and the cursor stands right behind the last token. */
  lemma {:induction false} TreeComesBack(scan: Scanner, t: Tree, floats: Bits -> seq<byte>, gaps: seq<seq<byte>>,
                                         text: seq<byte>, pos: nat, rest: seq<byte>, fuel: nat)
    requires Scans(scan) && Readable(t) && fuel >= Need(t) && Gaps(gaps, |Tokens(t, floats)|)
    requires Reads(text, pos, Woven(gaps, Tokens(t, floats)) + rest) && Ends(rest)
    ensures ParseValue(scan, text, pos, fuel) == Done(Merged(t), |text| - |rest|)
    decreases t, 1
  {
    match t
    case List(_) => ListComesBack(scan, t, floats, gaps, text, pos, rest, fuel);
    case Dict(_) => DictComesBack(scan, t, floats, gaps, text, pos, rest, fuel);
    case _ => SpacedLeafComesBack(scan, t, floats, gaps, text, pos, rest, fuel);
  }

  lemma SpacedLeafComesBack(scan: Scanner, t: Tree, floats: Bits -> seq<byte>, gaps: seq<seq<byte>>,
                            text: seq<byte>, pos: nat, rest: seq<byte>, fuel: nat)
    requires Scans(scan) && Readable(t) && !t.List? && !t.Dict? && fuel > 0 && Gaps(gaps, |Tokens(t, floats)|)
    requires Reads(text, pos, Woven(gaps, Tokens(t, floats)) + rest) && Ends(rest)
    ensures ParseValue(scan, text, pos, fuel) == Done(Merged(t), |text| - |rest|)
  {
    hide Print, Readable, Ends, ParseValue, Reads, Skip, Bounded, ReadsDecimals;
    LeafToken(t, floats);
    CleanHasNoFloats(t);
    TokensStart(t, floats);
    var p := NextToken(text, pos, gaps, Tokens(t, floats), rest);
    assert [] + rest == rest;
    LeafComesBack(scan, t, floats, text, p, rest, fuel);
    EndOf(text, p, Print(t, floats), rest);
    EndOf(text, pos, Woven(gaps, Tokens(t, floats)), rest);
    FromGap(scan, text, pos, fuel);
  }

  lemma CleanHasNoFloats(t: Tree)
    requires Readable(t)
    ensures NoFloats(t)
  {}

  lemma ListComesBack(scan: Scanner, t: Tree, floats: Bits -> seq<byte>, gaps: seq<seq<byte>>,
                      text: seq<byte>, pos: nat, rest: seq<byte>, fuel: nat)
    requires Scans(scan) && Readable(t) && fuel >= Need(t) && t.List? && Gaps(gaps, |Tokens(t, floats)|)
    requires Reads(text, pos, Woven(gaps, Tokens(t, floats)) + rest) && Ends(rest)
    ensures ParseValue(scan, text, pos, fuel) == Done(Merged(t), |text| - |rest|)
    decreases t, 0
  {
    hide ReadableItems, ReadableEntries, Readable, Tokens, ItemTokens, EntryTokens, EntriesTokens, Woven, Need, NeedItems, NeedEntry,
      NeedEntries, Ends, AllBlank, ParseValue, ParseItems, ParseEntries, Reads, AfterComma, AfterColon, Skip, Bounded, ReadsDecimals,
      DistinctKeys, SetMember, Merged, MergedItems, MergedEntries;
    NeedParts(t);
    ListParts(t, floats);
    var tail := ItemTokens(t.items, floats) + [[93]];
    assert ([[91]] + tail)[1..] == tail;
    var p := NextToken(text, pos, gaps, [[91]] + tail, rest);
    OpenBracket(scan, text, pos, p, fuel);
    ItemsComeBack(scan, [], t.items, floats, gaps[1..], text, p + 1, rest, fuel - 1);
    MergedParts(t);
    assert [] + MergedItems(t.items) == MergedItems(t.items);
  }

  lemma DictComesBack(scan: Scanner, t: Tree, floats: Bits -> seq<byte>, gaps: seq<seq<byte>>,
                      text: seq<byte>, pos: nat, rest: seq<byte>, fuel: nat)
    requires Scans(scan) && Readable(t) && fuel >= Need(t) && t.Dict? && Gaps(gaps, |Tokens(t, floats)|)
    requires Reads(text, pos, Woven(gaps, Tokens(t, floats)) + rest) && Ends(rest)
    ensures ParseValue(scan, text, pos, fuel) == Done(Merged(t), |text| - |rest|)
    decreases t, 0
  {
    hide ReadableItems, ReadableEntries, Readable, Tokens, ItemTokens, EntryTokens, EntriesTokens, Woven, Need, NeedItems, NeedEntry,
      NeedEntries, Ends, AllBlank, ParseValue, ParseItems, ParseEntries, Reads, AfterComma, AfterColon, Skip, Bounded, ReadsDecimals,
      DistinctKeys, SetMember, Merged, MergedItems, MergedEntries;
    NeedParts(t);
    DictParts(t, floats);
    var tail := EntriesTokens(t.entries, floats) + [[125]];
    assert ([[123]] + tail)[1..] == tail;
    var p := NextToken(text, pos, gaps, [[123]] + tail, rest);
    OpenBracket(scan, text, pos, p, fuel);
    MergedParts(t);
    EntriesComeBack(scan, [], t.entries, floats, gaps[1..], text, p + 1, rest, fuel - 1);
  }

  lemma ListParts(t: Tree, floats: Bits -> seq<byte>)
    requires t.List? && Readable(t)
    ensures Tokens(t, floats) == [[91]] + (ItemTokens(t.items, floats) + [[93]]) && Plain([91])
    ensures ReadableItems(t.items)
  {}

  lemma DictParts(t: Tree, floats: Bits -> seq<byte>)
    requires t.Dict? && Readable(t)
    ensures Tokens(t, floats) == [[123]] + (EntriesTokens(t.entries, floats) + [[125]]) && Plain([123])
    ensures ReadableEntries(t.entries)
  {}

  lemma OpenBracket(scan: Scanner, text: seq<byte>, pos: nat, p: nat, fuel: nat)
    requires pos <= |text| && p == Skip(text, pos) && p < |text| && fuel > 0 && Bounded(scan)
    ensures text[p] == 91 ==> ParseValue(scan, text, pos, fuel) == ParseItems(scan, text, Skip(text, p + 1), [], fuel - 1)
    ensures text[p] == 123 ==> ParseValue(scan, text, pos, fuel) == ParseEntries(scan, text, Skip(text, p + 1), [], fuel - 1)
  {
    hide Skip, ParseItems, ParseEntries;
  }

  lemma ItemsEnd(scan: Scanner, text: seq<byte>, pos: nat, done: seq<Tree>, rest: seq<byte>, fuel: nat)
    requires Scans(scan) && fuel > 0 && Reads(text, pos, [93] + rest)
    ensures ParseItems(scan, text, pos, done, fuel) == Done(List(done), |text| - |rest|)
  {
    assert text[pos..][0] == 93;
  }

  lemma ItemsStep(scan: Scanner, text: seq<byte>, pos: nat, done: seq<Tree>, v: Tree, p: nat, fuel: nat)
    requires Scans(scan) && fuel > 0 && pos < |text| && text[pos] != 93
    requires ParseValue(scan, text, pos, fuel - 1) == Done(v, p)
    ensures p <= |text|
    ensures ParseItems(scan, text, pos, done, fuel) == ParseItems(scan, text, AfterComma(text, p), done + [v], fuel - 1)
  {
    hide ParseValue, Bounded, ReadsDecimals;
  }

  lemma EntriesEnd(scan: Scanner, text: seq<byte>, pos: nat, done: seq<Member>, rest: seq<byte>, fuel: nat)
    requires Scans(scan) && fuel > 0 && Reads(text, pos, [125] + rest)
    ensures ParseEntries(scan, text, pos, done, fuel) == Done(Dict(done), |text| - |rest|)
  {
    assert text[pos..][0] == 125;
  }

  lemma EntriesStep(scan: Scanner, text: seq<byte>, pos: nat, done: seq<Member>, e: Member, p: nat, q: nat, fuel: nat)
    requires Scans(scan) && fuel > 0 && pos < |text| && text[pos] != 125 && p <= |text|
    requires ParseValue(scan, text, pos, fuel - 1) == Done(e.key, p)
    requires ParseValue(scan, text, AfterColon(text, p), fuel - 1) == Done(e.value, q)
    ensures q <= |text|
    ensures ParseEntries(scan, text, pos, done, fuel)
            == ParseEntries(scan, text, AfterComma(text, q), SetMember(done, e.key, e.value), fuel - 1)
  {
    hide ParseValue, Bounded, ReadsDecimals, SetMember;
  }

  lemma {:induction false} ItemsComeBack(scan: Scanner, done: seq<Tree>, items: seq<Tree>, floats: Bits -> seq<byte>,
                                         gaps: seq<seq<byte>>, text: seq<byte>, pos: nat, rest: seq<byte>, fuel: nat)
    requires Scans(scan) && fuel >= NeedItems(items) && ReadableItems(items)
    requires Gaps(gaps, |ItemTokens(items, floats)| + 1)
    requires Reads(text, pos, Woven(gaps, ItemTokens(items, floats) + [[93]]) + rest) && pos <= |text|
    ensures ParseItems(scan, text, Skip(text, pos), done, fuel) == Done(List(done + MergedItems(items)), |text| - |rest|)
    decreases items, 1
  {
    hide ReadableItems, ReadableEntries, Readable, Tokens, ItemTokens, EntryTokens, EntriesTokens, Woven, Need, NeedItems, NeedEntry,
      NeedEntries, Ends, AllBlank, ParseValue, ParseItems, ParseEntries, Reads, AfterComma, AfterColon, Skip, Bounded, ReadsDecimals,
      DistinctKeys, SetMember, Merged, MergedItems, MergedEntries;
    NeedRest(items, []);
    if items == [] {
      NothingMerged([]);
      assert done + [] == done;
      NoTokens(floats);
      CloseNext(93, gaps, text, pos, rest);
      ItemsEnd(scan, text, Skip(text, pos), done, rest, fuel);
    } else {
      ReadableRest(items, []);
      var g, gaps1, after := FirstItem(items, floats, gaps, text, pos, rest);
      TreeComesBack(scan, items[0], floats, g, text, pos, after, fuel - 1);
      FromGap(scan, text, pos, fuel - 1);
      var r := |text| - |after|;
      ItemsStep(scan, text, Skip(text, pos), done, Merged(items[0]), r, fuel);
      var q, gaps2 := OverComma(text, r, gaps1, |items| > 1, ItemTokens(items[1..], floats) + [[93]], rest);
      ItemsComeBack(scan, done + [Merged(items[0])], items[1..], floats, gaps2, text, q, rest, fuel - 1);
      MergedRest(items, [], []);
      assert (done + [Merged(items[0])]) + MergedItems(items[1..]) == done + MergedItems(items);
    }
  }

  /** The closing bracket behind its gap. */
  lemma CloseNext(close: byte, gaps: seq<seq<byte>>, text: seq<byte>, pos: nat, rest: seq<byte>)
    requires !Blank(close) && Gaps(gaps, 1) && Reads(text, pos, Woven(gaps, [[close]]) + rest)
    ensures Reads(text, Skip(text, pos), [close] + rest)
  {
    hide Skip, Reads, AllBlank;
    var _ := NextToken(text, pos, gaps, [[close]], rest);
    assert [] + rest == rest;
  }

  lemma NoTokens(floats: Bits -> seq<byte>)
    ensures ItemTokens([], floats) + [[93]] == [[93]] && |ItemTokens([], floats)| == 0
    ensures EntriesTokens([], floats) + [[125]] == [[125]] && |EntriesTokens([], floats)| == 0
  {}

  /** The text of a first value and of what comes behind it. */
  lemma FirstValue(first: seq<seq<byte>>, others: seq<seq<byte>>, gaps: seq<seq<byte>>, text: seq<byte>, pos: nat, rest: seq<byte>)
      returns (g: seq<seq<byte>>, gaps1: seq<seq<byte>>, after: seq<byte>)
    requires first != [] && Plain(first[0]) && others != [] && Gaps(gaps, |first| + |others|)
    requires others[0] == [44] || others[0] == [58] || others[0] == [93] || others[0] == [125]
    requires Reads(text, pos, Woven(gaps, first + others) + rest)
    ensures Gaps(g, |first|) && Gaps(gaps1, |others|) && after == Woven(gaps1, others) + rest
    ensures Reads(text, pos, Woven(g, first) + after) && Ends(after)
    ensures |after| <= |text| && Reads(text, |text| - |after|, after)
    ensures Skip(text, pos) < |text| && text[Skip(text, pos)] == first[0][0]
  {
    hide Woven, Skip, Ends;
    g, gaps1 := gaps[..|first|], gaps[|first|..];
    GapsSplit(gaps, |first| + |others|, |first|);
    WovenSplit(gaps, first, others);
    after := Woven(gaps1, others) + rest;
    Regroup(Woven(g, first), Woven(gaps1, others), rest, []);
    WovenEnds(gaps1, others, rest);
    var _ := NextToken(text, pos, g, first, after);
    EndOf(text, pos, Woven(g, first), after);
    Advance(text, pos, Woven(g, first), after);
  }

  lemma FirstItem(items: seq<Tree>, floats: Bits -> seq<byte>, gaps: seq<seq<byte>>, text: seq<byte>, pos: nat, rest: seq<byte>)
      returns (g: seq<seq<byte>>, gaps1: seq<seq<byte>>, after: seq<byte>)
    requires items != [] && ReadableItems(items) && Gaps(gaps, |ItemTokens(items, floats)| + 1)
    requires Reads(text, pos, Woven(gaps, ItemTokens(items, floats) + [[93]]) + rest)
    ensures Gaps(g, |Tokens(items[0], floats)|)
    ensures Reads(text, pos, Woven(g, Tokens(items[0], floats)) + after) && Ends(after)
    ensures Skip(text, pos) < |text| && text[Skip(text, pos)] != 93 && |after| <= |text|
    ensures var others := (if |items| > 1 then [[44]] else []) + (ItemTokens(items[1..], floats) + [[93]]);
      && Gaps(gaps1, |others|) && Reads(text, |text| - |after|, Woven(gaps1, others) + rest)
    ensures var tail := ItemTokens(items[1..], floats) + [[93]]; tail != [] && Plain(tail[0]) && tail[0][0] != 44
  {
    hide Readable, Woven, Skip, Tokens, Reads, Ends, AllBlank;
    assert Readable(items[0]);
    CleanHasNoFloats(items[0]);
    TokensStart(items[0], floats);
    var others := (if |items| > 1 then [[44]] else []) + (ItemTokens(items[1..], floats) + [[93]]);
    assert ItemTokens(items, floats) + [[93]] == Tokens(items[0], floats) + others;
    if |items| > 1 {
      assert items[1] in items;
      CleanHasNoFloats(items[1]);
      TokensStart(items[1], floats);
    }
    g, gaps1, after := FirstValue(Tokens(items[0], floats), others, gaps, text, pos, rest);
  }

  lemma FirstEntry(entries: seq<Member>, floats: Bits -> seq<byte>, gaps: seq<seq<byte>>, text: seq<byte>, pos: nat, rest: seq<byte>)
      returns (g: seq<seq<byte>>, gaps1: seq<seq<byte>>, after: seq<byte>)
    requires entries != [] && ReadableEntries(entries) && Gaps(gaps, |EntriesTokens(entries, floats)| + 1)
    requires Reads(text, pos, Woven(gaps, EntriesTokens(entries, floats) + [[125]]) + rest)
    ensures Gaps(g, |EntryTokens(entries[0], floats)|)
    ensures Reads(text, pos, Woven(g, EntryTokens(entries[0], floats)) + after) && Ends(after)
    ensures Skip(text, pos) < |text| && text[Skip(text, pos)] != 125 && |after| <= |text|
    ensures var others := (if |entries| > 1 then [[44]] else []) + (EntriesTokens(entries[1..], floats) + [[125]]);
      && Gaps(gaps1, |others|) && Reads(text, |text| - |after|, Woven(gaps1, others) + rest)
    ensures var tail := EntriesTokens(entries[1..], floats) + [[125]]; tail != [] && Plain(tail[0]) && tail[0][0] != 44
  {
    hide Readable, Woven, Skip, Tokens, Reads, Ends, AllBlank;
    assert Readable(entries[0].key);
    CleanHasNoFloats(entries[0].key);
    TokensStart(entries[0].key, floats);
    var others := (if |entries| > 1 then [[44]] else []) + (EntriesTokens(entries[1..], floats) + [[125]]);
    assert EntriesTokens(entries, floats) + [[125]] == EntryTokens(entries[0], floats) + others;
    if |entries| > 1 {
      assert entries[1] in entries;
      CleanHasNoFloats(entries[1].key);
      TokensStart(entries[1].key, floats);
    }
    g, gaps1, after := FirstValue(EntryTokens(entries[0], floats), others, gaps, text, pos, rest);
  }

  /** A key, its colon and its value. */
  lemma {:induction false} EntryComesBack(scan: Scanner, e: Member, floats: Bits -> seq<byte>, gaps: seq<seq<byte>>,
                                          text: seq<byte>, pos: nat, after: seq<byte>, fuel: nat) returns (p: nat)
    requires Scans(scan) && Readable(e.key) && Readable(e.value) && fuel >= NeedEntry(e)
    requires Gaps(gaps, |EntryTokens(e, floats)|) && pos <= |text|
    requires Reads(text, pos, Woven(gaps, EntryTokens(e, floats)) + after) && Ends(after)
    ensures p <= |text| && ParseValue(scan, text, pos, fuel) == Done(Merged(e.key), p)
    ensures ParseValue(scan, text, AfterColon(text, p), fuel) == Done(Merged(e.value), |text| - |after|)
    decreases e
  {
    hide ReadableItems, ReadableEntries, Readable, Tokens, ItemTokens, EntryTokens, EntriesTokens, Woven, Need, NeedItems, NeedEntry,
      NeedEntries, Ends, AllBlank, ParseValue, ParseItems, ParseEntries, Reads, AfterComma, AfterColon, Skip, Bounded, ReadsDecimals,
      DistinctKeys, SetMember, Merged, MergedItems, MergedEntries;
    EntryParts(e, floats);
    var g, gaps1, more := FirstValue(Tokens(e.key, floats), [[58]] + Tokens(e.value, floats), gaps, text, pos, after);
    TreeComesBack(scan, e.key, floats, g, text, pos, more, fuel);
    p := |text| - |more|;
    var q := OverColon(text, p, gaps1, Tokens(e.value, floats), after);
    TreeComesBack(scan, e.value, floats, gaps1[1..], text, q, after, fuel);
    FromGap(scan, text, q, fuel);
  }

  lemma EntryParts(e: Member, floats: Bits -> seq<byte>)
    requires Readable(e.key)
    ensures EntryTokens(e, floats) == Tokens(e.key, floats) + ([[58]] + Tokens(e.value, floats))
    ensures Tokens(e.key, floats) != [] && Plain(Tokens(e.key, floats)[0])
    ensures NeedEntry(e) >= Need(e.key) && NeedEntry(e) >= Need(e.value)
  {
    CleanHasNoFloats(e.key);
    TokensStart(e.key, floats);
  }

  lemma {:induction false} EntriesComeBack(scan: Scanner, done: seq<Member>, entries: seq<Member>, floats: Bits -> seq<byte>,
                                           gaps: seq<seq<byte>>, text: seq<byte>, pos: nat, rest: seq<byte>, fuel: nat)
    requires Scans(scan) && fuel >= NeedEntries(entries) && ReadableEntries(entries)
    requires Gaps(gaps, |EntriesTokens(entries, floats)| + 1)
    requires Reads(text, pos, Woven(gaps, EntriesTokens(entries, floats) + [[125]]) + rest) && pos <= |text|
    ensures ParseEntries(scan, text, Skip(text, pos), done, fuel) == Done(Dict(MergedEntries(done, entries)), |text| - |rest|)
    decreases entries, 1
  {
    hide ReadableItems, ReadableEntries, Readable, Tokens, ItemTokens, EntryTokens, EntriesTokens, Woven, Need, NeedItems, NeedEntry,
      NeedEntries, Ends, AllBlank, ParseValue, ParseItems, ParseEntries, Reads, AfterComma, AfterColon, Skip, Bounded, ReadsDecimals,
      DistinctKeys, SetMember, Merged, MergedItems, MergedEntries;
    NeedRest([], entries);
    if entries == [] {
      NothingMerged(done);
      NoTokens(floats);
      CloseNext(125, gaps, text, pos, rest);
      EntriesEnd(scan, text, Skip(text, pos), done, rest, fuel);
    } else {
      ReadableRest([], entries);
      var e := entries[0];
      var g, gaps1, after := FirstEntry(entries, floats, gaps, text, pos, rest);
      var p := EntryComesBack(scan, e, floats, g, text, pos, after, fuel - 1);
      FromGap(scan, text, pos, fuel - 1);
      var r := |text| - |after|;
      MergedRest([], done, entries);
      EntriesStep(scan, text, Skip(text, pos), done, MergedEntry(e), p, r, fuel);
      var q, gaps2 := OverComma(text, r, gaps1, |entries| > 1, EntriesTokens(entries[1..], floats) + [[125]], rest);
      EntriesComeBack(scan, SetMember(done, Merged(e.key), Merged(e.value)), entries[1..], floats, gaps2, text, q, rest, fuel - 1);
    }
  }

  lemma NewKey(done: seq<Member>, entries: seq<Member>)
    requires entries != [] && DistinctKeys(done + entries)
    ensures SetMember(done, entries[0].key, entries[0].value) == done + [entries[0]]
  {
    var all := done + entries;
    forall i | 0 <= i < |done|
      ensures !SameKey(done[i].key, entries[0].key)
    {
      assert all[i] == done[i] && all[|done|] == entries[0];
    }
    SetNew(done, entries[0]);
    assert Member(entries[0].key, entries[0].value) == entries[0];
  }

  /** A tree that has each key once is not changed by merging. */
  lemma {:induction false} MergedIsItself(t: Tree)
    requires WellFormed(t)
    ensures Merged(t) == t
    decreases t, 1
  {
    match t
    case List(items) => MergedItemsAreThemselves(items);
    case Dict(entries) =>
      assert [] + entries == entries;
      MergedEntriesAreThemselves([], entries);
    case _ =>
  }

  lemma {:induction false} MergedItemsAreThemselves(items: seq<Tree>)
    requires forall i | i in items :: WellFormed(i)
    ensures MergedItems(items) == items
    decreases items
  {
    hide WellFormed, Merged;
    if items != [] {
      MergedIsItself(items[0]);
      MergedItemsAreThemselves(items[1..]);
    }
  }

  lemma {:induction false} MergedEntryIsItself(e: Member)
    requires WellFormed(e.key) && WellFormed(e.value)
    ensures MergedEntry(e) == e
    decreases e
  {
    MergedIsItself(e.key);
    MergedIsItself(e.value);
  }

  lemma {:induction false} MergedEntriesAreThemselves(done: seq<Member>, entries: seq<Member>)
    requires (forall e | e in entries :: WellFormed(e.key) && WellFormed(e.value)) && DistinctKeys(done + entries)
    ensures MergedEntries(done, entries) == done + entries
    decreases entries
  {
    hide WellFormed, MergedEntry, DistinctKeys, SetMember;
    if entries == [] {
      assert done + entries == done;
    } else {
      MergedEntryIsItself(entries[0]);
      NewKey(done, entries);
      assert (done + [entries[0]]) + entries[1..] == done + entries;
      MergedEntriesAreThemselves(done + [entries[0]], entries[1..]);
    }
  }

  // ----- repeated keys -----

  /** The value of a key, if there is one. */
  function Lookup(entries: seq<Member>, key: Tree): seq<Tree> {
    if entries == [] then []
    else if SameKey(entries[0].key, key) then [entries[0].value] else Lookup(entries[1..], key)
  }

  function Keys(entries: seq<Member>): seq<Tree> {
    if entries == [] then [] else [entries[0].key] + Keys(entries[1..])
  }

  lemma SameKeyMoves(a: Tree, b: Tree, c: Tree)
    requires SameKey(a, b)
    ensures SameKey(a, c) <==> SameKey(b, c)
  {}

  lemma SameKeyTurns(a: Tree, b: Tree, c: Tree)
    requires !SameKey(a, b) && SameKey(a, c)
    ensures !SameKey(b, c)
  {}

  /** map_set binds its key and no other, and adds a key at the end only when it is new. */
  lemma {:induction false} SetMemberBinds(entries: seq<Member>, key: Tree, value: Tree, other: Tree)
    ensures Lookup(SetMember(entries, key, value), other) == if SameKey(key, other) then [value] else Lookup(entries, other)
    ensures Keys(SetMember(entries, key, value)) == Keys(entries) + (if Lookup(entries, key) == [] then [key] else [])
  {
    hide SameKey;
    if entries == [] {
      assert SetMember(entries, key, value)[1..] == [];
    } else if SameKey(entries[0].key, key) {
      SameKeyMoves(entries[0].key, key, other);
      assert SetMember(entries, key, value)[1..] == entries[1..];
    } else {
      SetMemberBinds(entries[1..], key, value, other);
      assert SetMember(entries, key, value)[1..] == SetMember(entries[1..], key, value);
      if SameKey(entries[0].key, other) {
        SameKeyTurns(entries[0].key, key, other);
      }
    }
  }

  /** The last value that a list of entries gives to a key. */
  function LastValue(entries: seq<Member>, key: Tree): seq<Tree> {
    if entries == [] then []
    else if LastValue(entries[1..], key) != [] then LastValue(entries[1..], key)
    else if SameKey(entries[0].key, key) then [Merged(entries[0].value)] else []
  }

  lemma KeyIsItself(a: Tree, key: Tree)
    ensures SameKey(Merged(a), key) == SameKey(a, key)
  {}

  /** Of several entries with one key the last value counts. */
  lemma {:induction false} LastValueCounts(done: seq<Member>, entries: seq<Member>, key: Tree)
    ensures Lookup(MergedEntries(done, entries), key)
         == if LastValue(entries, key) != [] then LastValue(entries, key) else Lookup(done, key)
    decreases |entries|
  {
    hide Merged, SameKey, SetMember, Lookup;
    if entries != [] {
      var e := MergedEntry(entries[0]);
      SetMemberBinds(done, e.key, e.value, key);
      KeyIsItself(entries[0].key, key);
      LastValueCounts(SetMember(done, e.key, e.value), entries[1..], key);
    }
  }

  // ----- what the parser can return at all -----

  predicate Kept(t: Tree) {
    Clean(t) && WellFormed(t)
  }

  predicate KeptItems(items: seq<Tree>) {
    forall i | i in items :: Kept(i)
  }

  predicate KeptEntries(entries: seq<Member>) {
    DistinctKeys(entries) && forall e | e in entries :: Kept(e.key) && Kept(e.value)
  }

  lemma KeptParts(items: seq<Tree>, entries: seq<Member>)
    ensures KeptItems(items) ==> Kept(List(items))
    ensures KeptEntries(entries) ==> Kept(Dict(entries))
  {}

  /** No entry has this key. */
  predicate Misses(entries: seq<Member>, key: Tree) {
    forall e | e in entries :: !SameKey(key, e.key)
  }

  lemma DistinctRest(first: Member, rest: seq<Member>)
    ensures DistinctKeys([first] + rest) <==> Misses(rest, first.key) && DistinctKeys(rest)
  {
    var all := [first] + rest;
    if DistinctKeys(all) {
      forall e | e in rest
        ensures !SameKey(first.key, e.key)
      {
        var k :| 0 <= k < |rest| && rest[k] == e;
        assert all[0] == first && all[k + 1] == e;
      }
      forall i, j | 0 <= i < j < |rest|
        ensures !SameKey(rest[i].key, rest[j].key)
      {
        assert all[i + 1] == rest[i] && all[j + 1] == rest[j];
      }
    }
    if Misses(rest, first.key) && DistinctKeys(rest) {
      forall i, j | 0 <= i < j < |all|
        ensures !SameKey(all[i].key, all[j].key)
      {
        assert all[j] == rest[j - 1] && rest[j - 1] in rest;
        assert i > 0 ==> all[i] == rest[i - 1];
      }
    }
  }

  /** map_set keeps each key once. */
  lemma {:induction false} SetMemberKeepsKeys(entries: seq<Member>, key: Tree, value: Tree)
    requires DistinctKeys(entries)
    ensures DistinctKeys(SetMember(entries, key, value))
    ensures forall other | Misses(entries, other) && !SameKey(other, key) :: Misses(SetMember(entries, key, value), other)
  {
    if entries != [] {
      var first, rest := entries[0], entries[1..];
      assert entries == [first] + rest;
      DistinctRest(first, rest);
      hide DistinctKeys;
      if SameKey(first.key, key) {
        DistinctRest(Member(first.key, value), rest);
      } else {
        SetMemberKeepsKeys(rest, key, value);
        DistinctRest(first, SetMember(rest, key, value));
        forall other | Misses(entries, other) && !SameKey(other, key)
          ensures Misses(SetMember(entries, key, value), other)
        {
          assert Misses(rest, other) && first in entries;
        }
      }
    }
  }

  lemma {:induction false} SetMemberKeeps(entries: seq<Member>, key: Tree, value: Tree)
    requires KeptEntries(entries) && Kept(key) && Kept(value)
    ensures KeptEntries(SetMember(entries, key, value))
  {
    SetMemberKeepsKeys(entries, key, value);
    MembersAreKept(entries, key, value);
  }

  lemma {:induction false} MembersAreKept(entries: seq<Member>, key: Tree, value: Tree)
    requires (forall e | e in entries :: Kept(e.key) && Kept(e.value)) && Kept(key) && Kept(value)
    ensures forall e | e in SetMember(entries, key, value) :: Kept(e.key) && Kept(e.value)
  {
    hide Kept, SameKey;
    if entries != [] {
      assert entries[0] in entries;
      MembersAreKept(entries[1..], key, value);
    }
  }

  /** Whatever the text: strings come without quotes and zero bytes, ints are ints that a double holds,
      and maps have each key once. */
  lemma {:induction false} ParsedIsKept(scan: Scanner, text: seq<byte>, pos: nat, fuel: nat)
    requires IsStrtod(scan) && pos <= |text| && 0 !in text
    ensures var r := ParseValue(scan, text, pos, fuel); r.Done? ==> Kept(r.t)
    decreases fuel
  {
    hide ReadsDecimals, Kept, ParseText, ParseItems, ParseEntries, Skip, StartsWith, IsDigit;
    LeavesAreKept();
    if fuel > 0 {
      var p := Skip(text, pos);
      if p < |text| {
        var c := text[p];
        if c == QUOTE {
          ParsedTextIsKept(text, p);
        } else if c == OPEN_LIST {
          ParsedItemsAreKept(scan, text, Skip(text, p + 1), [], fuel - 1);
        } else if c == OPEN_DICT {
          ParsedEntriesAreKept(scan, text, Skip(text, p + 1), [], fuel - 1);
        } else {
          NumberIsKept(scan, text[p..]);
        }
      }
    }
  }

  lemma LeavesAreKept()
    ensures Kept(Null) && Kept(Bool(true)) && Kept(Bool(false))
  {}

  lemma NumberIsKept(scan: Scanner, text: seq<byte>)
    requires IsStrtod(scan)
    ensures Kept(FromDouble(scan(text).0))
  {
    hide ReadsDecimals, Representable;
  }

  lemma ParsedTextIsKept(text: seq<byte>, pos: nat)
    requires pos < |text| && 0 !in text
    ensures Kept(ParseText(text, pos).t)
  {
    var end := StringEnd(text, pos + 1);
    assert forall c | c in text[pos + 1..end] :: c in text;
  }

  lemma {:induction false} ParsedItemsAreKept(scan: Scanner, text: seq<byte>, pos: nat, items: seq<Tree>, fuel: nat)
    requires IsStrtod(scan) && pos <= |text| && 0 !in text && KeptItems(items)
    ensures var r := ParseItems(scan, text, pos, items, fuel); r.Done? ==> Kept(r.t)
    decreases fuel
  {
    hide Kept, ParseValue, ReadsDecimals, AfterComma;
    KeptParts(items, []);
    if fuel > 0 && pos < |text| && text[pos] != CLOSE_LIST {
      ParsedIsKept(scan, text, pos, fuel - 1);
      var v := ParseValue(scan, text, pos, fuel - 1);
      if v.Done? {
        ParsedItemsAreKept(scan, text, AfterComma(text, v.pos), items + [v.t], fuel - 1);
      }
    }
  }

  lemma {:induction false} ParsedEntriesAreKept(scan: Scanner, text: seq<byte>, pos: nat, entries: seq<Member>, fuel: nat)
    requires IsStrtod(scan) && pos <= |text| && 0 !in text && KeptEntries(entries)
    ensures var r := ParseEntries(scan, text, pos, entries, fuel); r.Done? ==> Kept(r.t)
    decreases fuel
  {
    hide Kept, KeptEntries, ParseValue, ReadsDecimals, AfterComma, AfterColon, SetMember;
    KeptParts([], entries);
    if fuel > 0 && pos < |text| && text[pos] != CLOSE_DICT {
      ParsedIsKept(scan, text, pos, fuel - 1);
      var k := ParseValue(scan, text, pos, fuel - 1);
      if k.Done? {
        ParsedIsKept(scan, text, AfterColon(text, k.pos), fuel - 1);
        var v := ParseValue(scan, text, AfterColon(text, k.pos), fuel - 1);
        if v.Done? {
          SetMemberKeeps(entries, k.t, v.t);
          ParsedEntriesAreKept(scan, text, AfterComma(text, v.pos), SetMember(entries, k.t, v.t), fuel - 1);
        }
      }
    }
  }

  // ----- printed text is a C string -----

  lemma {:induction false} PrintHasNoNul(t: Tree, floats: Bits -> seq<byte>)
    ensures 0 !in Print(t, floats)
    decreases t, 1
  {
    match t
    case List(items) => ItemsHaveNoNul(items, floats);
    case Dict(entries) => EntriesHaveNoNul(entries, floats);
    case Int(n) => assert forall c | c in Digits(Magnitude(n)) :: IsDigit(c);
    case _ =>
  }

  lemma {:induction false} ItemsHaveNoNul(items: seq<Tree>, floats: Bits -> seq<byte>)
    ensures 0 !in PrintItems(items, floats)
    decreases items
  {
    hide Print;
    if items != [] {
      PrintHasNoNul(items[0], floats);
      ItemsHaveNoNul(items[1..], floats);
    }
  }

  lemma {:induction false} EntryHasNoNul(e: Member, floats: Bits -> seq<byte>)
    ensures 0 !in PrintEntry(e, floats)
    decreases e
  {
    hide Print;
    PrintHasNoNul(e.key, floats);
    PrintHasNoNul(e.value, floats);
  }

  lemma {:induction false} EntriesHaveNoNul(entries: seq<Member>, floats: Bits -> seq<byte>)
    ensures 0 !in PrintEntries(entries, floats)
    decreases entries
  {
    hide PrintEntry;
    if entries != [] {
      EntryHasNoNul(entries[0], floats);
      EntriesHaveNoNul(entries[1..], floats);
    }
  }

  // ----- the round trip -----

  /** native_json_parse on the output of native_json_stringify gives the value back. */
  ghost predicate RoundTrips(scan: Scanner, t: Tree, floats: Bits -> seq<byte>)
    requires Bounded(scan)
  {
    exists fuel: nat :: JsonParse(scan, Print(t, floats), fuel) == Ok(t)
  }

  /** json_parse accepts every text of a clean tree with any white space before its tokens. Text behind the last
      token is ignored, except that null must be the end of the text. */
  lemma SpacedTextIsRead(scan: Scanner, t: Tree, floats: Bits -> seq<byte>, gaps: seq<seq<byte>>, rest: seq<byte>, fuel: nat)
    requires IsStrtod(scan) && Readable(t) && fuel >= Need(t) && Ends(rest)
    requires Gaps(gaps, |Tokens(t, floats)|)
    ensures var text := Woven(gaps, Tokens(t, floats)) + rest;
      && ParseValue(scan, text, 0, fuel) == Done(Merged(t), |Woven(gaps, Tokens(t, floats))|)
      && JsonParse(scan, text, fuel) == if t.Null? && rest != [] then Err else Ok(Merged(t))
    ensures WellFormed(t) ==> Merged(t) == t
  {
    hide ReadsDecimals, Readable, Need, ParseValue, Tokens, Woven, AllBlank, Ends, WellFormed;
    var text := Woven(gaps, Tokens(t, floats)) + rest;
    assert Reads(text, 0, text);
    TreeComesBack(scan, t, floats, gaps, text, 0, rest, fuel);
    if WellFormed(t) {
      MergedIsItself(t);
    }
  }

  /** The bytes that a value can start with, but for the words true, false and null. */
  predicate StartsValue(c: byte) {
    c == 34 || c == 91 || c == 123 || c == 45 || 48 <= c <= 57
  }

  /** Text without a value at its start is an error; nothing but white space is read as null. */
  lemma NoValueIsAnError(scan: Scanner, gap: seq<byte>, rest: seq<byte>, fuel: nat)
    requires Bounded(scan) && AllBlank(gap) && fuel > 0
    requires rest != [] ==> !Blank(rest[0]) && !StartsValue(rest[0])
    requires !([116, 114, 117, 101] <= rest) && !([102, 97, 108, 115, 101] <= rest) && !([110, 117, 108, 108] <= rest)
    ensures JsonParse(scan, gap + rest, fuel) == if rest == [] then Ok(Null) else Err
  {
    hide Bounded, Skip, ParseItems, ParseEntries, ParseText;
    var text := gap + rest;
    assert Reads(text, 0, gap + rest);
    SkipGap(text, 0, gap, rest);
    NoWord(text, |gap|, rest, [116, 114, 117, 101]);
    NoWord(text, |gap|, rest, [102, 97, 108, 115, 101]);
    NoWord(text, |gap|, rest, [110, 117, 108, 108]);
  }

  lemma NoWord(text: seq<byte>, pos: nat, rest: seq<byte>, word: seq<byte>)
    requires Reads(text, pos, rest) && !(word <= rest)
    ensures !StartsWith(text, pos, word)
  {
    assert rest == text[pos..];
    assert pos + |word| <= |text| ==> rest[..|word|] == text[pos..pos + |word|];
  }

  /** A clean tree is read back from exactly its text, however many more steps are allowed. */
  lemma CleanTreesRoundTrip(scan: Scanner, t: Tree, floats: Bits -> seq<byte>, fuel: nat)
    requires IsStrtod(scan) && Printable(t) && fuel >= Need(t)
    ensures ParseValue(scan, Print(t, floats), 0, fuel) == Done(t, |Print(t, floats)|)
    ensures JsonParse(scan, Print(t, floats), fuel) == Ok(t)
  {
    hide ReadsDecimals, Print, Need, ParseValue, Tokens, Woven, NoGaps, Clean, NoFloats, WellFormed;
    PrintIsFlat(t, floats);
    NoGapsIsFlat(Tokens(t, floats));
    SpacedTextIsRead(scan, t, floats, NoGaps(|Tokens(t, floats)|), [], fuel);
    assert Print(t, floats) + [] == Print(t, floats);
  }

  /** A value without floats comes back exactly when it is clean: no string with a quote or a zero byte,
      no int that a double cannot hold. */
  lemma RoundTripsIffClean(scan: Scanner, t: Tree, floats: Bits -> seq<byte>)
    requires IsStrtod(scan) && NoFloats(t) && WellFormed(t)
    ensures RoundTrips(scan, t, floats) <==> Clean(t)
  {
    hide ReadsDecimals, Print, ParseValue;
    if Clean(t) {
      CleanTreesRoundTrip(scan, t, floats, Need(t));
      assert JsonParse(scan, Print(t, floats), Need(t)) == Ok(t);
    }
    if RoundTrips(scan, t, floats) {
      var fuel: nat :| JsonParse(scan, Print(t, floats), fuel) == Ok(t);
      PrintHasNoNul(t, floats);
      ParsedIsKept(scan, Print(t, floats), 0, fuel);
    }
  }

  /** Anything json_parse returns, whatever the text, is printed and read back as it is. */
  lemma ParsedComesBack(scan: Scanner, text: seq<byte>, fuel: nat, floats: Bits -> seq<byte>)
    requires IsStrtod(scan) && 0 !in text
    requires var r := JsonParse(scan, text, fuel); r.Ok? && NoFloats(r.t)
    ensures RoundTrips(scan, JsonParse(scan, text, fuel).t, floats)
  {
    ParsedIsKept(scan, text, 0, fuel);
    RoundTripsIffClean(scan, JsonParse(scan, text, fuel).t, floats);
  }

  /** More steps do not change an answer. */
  lemma {:induction false} AnswerStays(scan: Scanner, text: seq<byte>, pos: nat, fuel: nat, more: nat)
    requires Bounded(scan) && pos <= |text| && fuel <= more && ParseValue(scan, text, pos, fuel).Done?
    ensures ParseValue(scan, text, pos, more) == ParseValue(scan, text, pos, fuel)
    decreases fuel
  {
    hide Bounded, ParseItems, ParseEntries, ParseText, Skip, StartsWith, IsDigit;
    var p := Skip(text, pos);
    if p < |text| && text[p] == OPEN_LIST {
      ItemsStay(scan, text, Skip(text, p + 1), [], fuel - 1, more - 1);
    } else if p < |text| && text[p] == OPEN_DICT {
      EntriesStay(scan, text, Skip(text, p + 1), [], fuel - 1, more - 1);
    }
  }

  lemma {:induction false} ItemsStay(scan: Scanner, text: seq<byte>, pos: nat, items: seq<Tree>, fuel: nat, more: nat)
    requires Bounded(scan) && pos <= |text| && fuel <= more && ParseItems(scan, text, pos, items, fuel).Done?
    ensures ParseItems(scan, text, pos, items, more) == ParseItems(scan, text, pos, items, fuel)
    decreases fuel
  {
    hide ParseValue, AfterComma;
    if pos < |text| && text[pos] != CLOSE_LIST {
      AnswerStays(scan, text, pos, fuel - 1, more - 1);
      var v := ParseValue(scan, text, pos, fuel - 1);
      ItemsStay(scan, text, AfterComma(text, v.pos), items + [v.t], fuel - 1, more - 1);
    }
  }

  lemma {:induction false} EntriesStay(scan: Scanner, text: seq<byte>, pos: nat, entries: seq<Member>, fuel: nat, more: nat)
    requires Bounded(scan) && pos <= |text| && fuel <= more && ParseEntries(scan, text, pos, entries, fuel).Done?
    ensures ParseEntries(scan, text, pos, entries, more) == ParseEntries(scan, text, pos, entries, fuel)
    decreases fuel
  {
    hide ParseValue, AfterComma, AfterColon, SetMember;
    if pos < |text| && text[pos] != CLOSE_DICT {
      AnswerStays(scan, text, pos, fuel - 1, more - 1);
      var k := ParseValue(scan, text, pos, fuel - 1);
      AnswerStays(scan, text, AfterColon(text, k.pos), fuel - 1, more - 1);
      var v := ParseValue(scan, text, AfterColon(text, k.pos), fuel - 1);
      EntriesStay(scan, text, AfterComma(text, v.pos), SetMember(entries, k.t, v.t), fuel - 1, more - 1);
    }
  }

  /** Every int within 2^53 comes back, and the next one does not. */
  lemma IntsComeBack(scan: Scanner, n: int64, floats: Bits -> seq<byte>)
    requires IsStrtod(scan)
    ensures -EXACT <= n <= EXACT ==> RoundTrips(scan, Int(n), floats)
    ensures n == EXACT + 1 ==> !RoundTrips(scan, Int(n), floats)
  {
    RoundTripsIffClean(scan, Int(n), floats);
    hide RoundTrips, ReadsDecimals;
    if -EXACT <= n <= EXACT {
      SmallIsRepresentable(n);
    } else if n == EXACT + 1 {
      NextIsLost();
    }
  }

  lemma NextIsLost()
    ensures !Representable(EXACT + 1)
  {
    assert (EXACT + 1) / 2 == EXACT / 2;
    assert Ulp(EXACT / 2) == 1;
    assert Ulp(EXACT + 1) == 2;
  }

  // ----- such a strtod exists -----

  /** How many digits the text starts with. */
  function CountDigits(text: seq<byte>): (n: nat)
    ensures n <= |text| && forall i | 0 <= i < n :: IsDigit(text[i])
    ensures n < |text| ==> !IsDigit(text[n])
  {
    if text == [] || !IsDigit(text[0]) then 0
    else
      var n := CountDigits(text[1..]);
      assert forall i | 0 < i < n + 1 :: text[i] == text[1..][i - 1];
      n + 1
  }

  /** strtod on decimal ints alone. */
  function ScanInt(text: seq<byte>): (Double, nat) {
    var sign := if text != [] && text[0] == MINUS then 1 else 0;
    var n := CountDigits(text[sign..]);
    if n == 0 then (Whole(0), 0)
    else (Whole(Nearest(Signed(sign == 1, ValueOf(text[sign..sign + n])))), sign + n)
  }

  lemma {:induction false} DigitsStop(digits: seq<byte>, rest: seq<byte>)
    requires (forall c | c in digits :: IsDigit(c)) && Ends(rest)
    ensures CountDigits(digits + rest) == |digits|
  {
    if digits == [] {
      assert digits + rest == rest;
    } else {
      assert digits[0] in digits;
      assert (digits + rest)[1..] == digits[1..] + rest;
      DigitsStop(digits[1..], rest);
    }
  }

  lemma ScanIntReads(negative: bool, digits: seq<byte>, rest: seq<byte>)
    requires AllDigits(digits) && Ends(rest)
    ensures ReadsDecimal(ScanInt, negative, digits, rest)
  {
    var text := Sign(negative) + digits + rest;
    var sign := |Sign(negative)|;
    SignedText(negative, digits, rest);
    DigitsStop(digits, rest);
    hide Nearest, ValueOf, CountDigits, Sign, Ends;
    assert text[sign..sign + |digits|] == text[sign..][..|digits|] == digits;
    assert sign == 1 <==> negative;
    assert ScanInt(text) == (Whole(Nearest(Signed(negative, ValueOf(digits)))), sign + |digits|);
  }

  lemma SignedText(negative: bool, digits: seq<byte>, rest: seq<byte>)
    requires AllDigits(digits)
    ensures var text := Sign(negative) + digits + rest;
            text[0] == (if negative then MINUS else digits[0]) && digits[0] != MINUS
            && text[|Sign(negative)|..] == digits + rest
    ensures |Sign(negative)| == if negative then 1 else 0
  {
    assert digits[0] in digits;
  }

  lemma StrtodExists()
    ensures IsStrtod(ScanInt)
  {
    hide ReadsDecimal;
    forall negative: bool, digits: seq<byte>, rest: seq<byte> | AllDigits(digits) && Ends(rest)
      ensures ReadsDecimal(ScanInt, negative, digits, rest)
    {
      ScanIntReads(negative, digits, rest);
    }
    forall text: seq<byte>
      ensures ScanInt(text).1 <= |text| && ScanInt(text).0.Whole? && Representable(ScanInt(text).0.n)
    {
      SmallIsRepresentable(0);
      var sign := if text != [] && text[0] == MINUS then 1 else 0;
      var n := CountDigits(text[sign..]);
      NearestIsRepresentable(Signed(sign == 1, ValueOf(text[sign..sign + n])));
    }
  }
}
