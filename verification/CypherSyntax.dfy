/** The written query: its tokens, its grammar, and the reader that accepts exactly the grammar. */
module CypherSyntax {
  import opened Basics
  import opened CypherRead

  type Tokens = seq<string>

  const KEYWORDS := {"MATCH", "WHERE", "AND", "RETURN", "AS", "ORDER", "BY", "ASC", "DESC", "LIMIT", "COUNT",
                     "CONTAINS", "STARTS", "ENDS", "WITH"}

  function UpperChar(c: char): char {
    if 'a' <= c <= 'z' then ((c as int) - 32) as char else c
  }

  function Upper(t: string): string {
    seq(|t|, i requires 0 <= i < |t| => UpperChar(t[i]))
  }

  predicate IsLetter(c: char) {
    'a' <= c <= 'z' || 'A' <= c <= 'Z'
  }

  predicate IsNumeral(c: char) {
    '0' <= c <= '9'
  }

  predicate IsName(t: string) {
    1 <= |t| <= 32 && IsLetter(t[0]) && forall c | c in t :: IsLetter(c) || IsNumeral(c) || c == '_'
  }

  predicate FreeName(t: string) {
    IsName(t) && Upper(t) !in KEYWORDS
  }

  predicate IsLimit(t: string) {
    1 <= |t| <= 3 && forall c | c in t :: IsNumeral(c)
  }

  // ---- the grammar

  /** One place in a spelling: a word in any case, or a text as it stands. */
  datatype Mark = Word(upper: string) | Text(text: string)

  predicate Marked(t: string, m: Mark) {
    match m
    case Word(w) => Upper(t) == w
    case Text(x) => t == x
  }

  ghost predicate Spelled(ts: Tokens, ms: seq<Mark>) {
    |ts| == |ms| && forall i | 0 <= i < |ts| :: Marked(ts[i], ms[i])
  }

  datatype Spot = Spot(name: string, kind: string)

  datatype Step = Step(incoming: bool, relation: string, spot: Spot)

  datatype Term = Term(node: string, property: string, operator: Operator, parameter: string)

  datatype Item = Item(node: string, property: string, column: string)

  datatype Items = CountItem(column: string) | Places(items: seq<Item>)

  datatype Direction = Unsaid | Ascending | Descending

  datatype Ordering = Ordering(column: string, direction: Direction)

  datatype Surface = Surface(
    first: Spot, step: Option<Step>, terms: seq<Term>, items: Items, orderings: seq<Ordering>, limit: string)

  function SpotMarks(s: Spot): seq<Mark> {
    [Word("("), Text(s.name), Word(":"), Text(s.kind), Word(")")]
  }

  function StepMarks(s: Step): seq<Mark> {
    [Word(if s.incoming then "<-" else "-"), Word("["), Word(":"), Text(s.relation), Word("]"),
     Word(if s.incoming then "-" else "->")] + SpotMarks(s.spot)
  }

  function OperatorMarks(op: Operator): seq<Mark> {
    match op
    case Eq => [Word("=")]
    case Ne => [Word("<>")]
    case Lt => [Word("<")]
    case Le => [Word("<=")]
    case Gt => [Word(">")]
    case Ge => [Word(">=")]
    case Contains => [Word("CONTAINS")]
    case StartsWith => [Word("STARTS"), Word("WITH")]
    case EndsWith => [Word("ENDS"), Word("WITH")]
  }

  function TermMarks(t: Term): seq<Mark> {
    [Text(t.node), Word("."), Text(t.property)] + OperatorMarks(t.operator) + [Word("$"), Text(t.parameter)]
  }

  function ItemMarks(i: Item): seq<Mark> {
    [Text(i.node), Word("."), Text(i.property), Word("AS"), Text(i.column)]
  }

  function OrderingMarks(o: Ordering): seq<Mark> {
    [Text(o.column)]
    + match o.direction
      case Unsaid => []
      case Ascending => [Word("ASC")]
      case Descending => [Word("DESC")]
  }

  /** A list with a separator between its members. */
  function Joined(lists: seq<seq<Mark>>, separator: string): seq<Mark> {
    if lists == [] then []
    else if |lists| == 1 then lists[0]
    else lists[0] + [Word(separator)] + Joined(lists[1..], separator)
  }

  function StepPart(s: Option<Step>): seq<Mark> {
    if s.Some? then StepMarks(s.value) else []
  }

  function TermsPart(ts: seq<Term>): seq<Mark> {
    if ts == [] then [] else [Word("WHERE")] + Joined(Map(ts, TermMarks), "AND")
  }

  function ItemsPart(items: Items): seq<Mark> {
    match items
    case CountItem(c) => [Word("COUNT"), Word("("), Word("*"), Word(")"), Word("AS"), Text(c)]
    case Places(places) => Joined(Map(places, ItemMarks), ",")
  }

  function OrderPart(os: seq<Ordering>): seq<Mark> {
    if os == [] then [] else [Word("ORDER"), Word("BY")] + Joined(Map(os, OrderingMarks), ",")
  }

  function EndMarks(limit: string): seq<Mark> {
    [Word("LIMIT"), Text(limit)]
  }

  function TailMarks(s: Surface): seq<Mark> {
    [Word("RETURN")] + (ItemsPart(s.items) + (OrderPart(s.orderings) + EndMarks(s.limit)))
  }

  function Marks(s: Surface): seq<Mark> {
    [Word("MATCH")] + (SpotMarks(s.first) + (StepPart(s.step) + (TermsPart(s.terms) + TailMarks(s))))
  }

  predicate SpotNamed(s: Spot) {
    FreeName(s.name) && FreeName(s.kind)
  }

  predicate StepNamed(s: Step) {
    FreeName(s.relation) && SpotNamed(s.spot)
  }

  predicate TermNamed(t: Term) {
    FreeName(t.node) && IsName(t.property) && FreeName(t.parameter)
  }

  predicate ItemNamed(i: Item) {
    FreeName(i.node) && IsName(i.property) && FreeName(i.column)
  }

  predicate OrderingNamed(o: Ordering) {
    FreeName(o.column)
  }

  /** Names are names, and lists are within their bounds. */
  predicate Named(s: Surface) {
    && SpotNamed(s.first) && (s.step.Some? ==> StepNamed(s.step.value))
    && |s.terms| <= MAX_TERMS && (forall t | t in s.terms :: TermNamed(t))
    && (match s.items
        case CountItem(c) => FreeName(c)
        case Places(items) => 1 <= |items| <= MAX_TERMS && forall i | i in items :: ItemNamed(i))
    && |s.orderings| <= MAX_TERMS && (forall o | o in s.orderings :: OrderingNamed(o))
    && IsLimit(s.limit)
  }

  // ---- the reader

  predicate Peeks(ts: Tokens, word: string) {
    ts != [] && Upper(ts[0]) == word
  }

  /** What a fixed piece of syntax is made of. */
  datatype Shape = Kw(word: string) | Free | Any

  predicate Suits(t: string, s: Shape) {
    match s
    case Kw(w) => Upper(t) == w
    case Free => FreeName(t)
    case Any => IsName(t)
  }

  predicate Shaped(ts: Tokens, shape: seq<Shape>) {
    |shape| <= |ts| && forall i | 0 <= i < |shape| :: Suits(ts[i], shape[i])
  }

  const SPOT := [Kw("("), Free, Kw(":"), Free, Kw(")")]
  const ITEM := [Free, Kw("."), Any, Kw("AS"), Free]

  function ReadSpot(ts: Tokens): Option<(Spot, Tokens)> {
    if Shaped(ts, SPOT) then Some((Spot(ts[1], ts[3]), ts[5..])) else None
  }

  function StepShape(incoming: bool): seq<Shape> {
    [Kw(if incoming then "<-" else "-"), Kw("["), Kw(":"), Free, Kw("]"), Kw(if incoming then "-" else "->")]
  }

  /** A step is read when an arrow or a dash follows. */
  function ReadStep(ts: Tokens): Option<(Option<Step>, Tokens)> {
    if !Peeks(ts, "-") && !Peeks(ts, "<-") then Some((None, ts))
    else
      var incoming := Peeks(ts, "<-");
      if !Shaped(ts, StepShape(incoming)) then None
      else
        var spot := ReadSpot(ts[6..]);
        if spot.Some? then Some((Some(Step(incoming, ts[3], spot.value.0)), spot.value.1)) else None
  }

  function ReadOperator(ts: Tokens): Option<(Operator, Tokens)> {
    if ts == [] then None
    else
      var t := Upper(ts[0]);
      if t == "=" then Some((Eq, ts[1..]))
      else if t == "<>" then Some((Ne, ts[1..]))
      else if t == "<" then Some((Lt, ts[1..]))
      else if t == "<=" then Some((Le, ts[1..]))
      else if t == ">" then Some((Gt, ts[1..]))
      else if t == ">=" then Some((Ge, ts[1..]))
      else if t == "CONTAINS" then Some((Contains, ts[1..]))
      else if t == "STARTS" && Peeks(ts[1..], "WITH") then Some((StartsWith, ts[2..]))
      else if t == "ENDS" && Peeks(ts[1..], "WITH") then Some((EndsWith, ts[2..]))
      else None
  }

  function ReadTerm(ts: Tokens): Option<(Term, Tokens)> {
    if !Shaped(ts, [Free, Kw("."), Any]) then None
    else
      var op := ReadOperator(ts[3..]);
      if op.None? || !Shaped(op.value.1, [Kw("$"), Free]) then None
      else Some((Term(ts[0], ts[2], op.value.0, op.value.1[1]), op.value.1[2..]))
  }

  function ReadItem(ts: Tokens): Option<(Item, Tokens)> {
    if Shaped(ts, ITEM) then Some((Item(ts[0], ts[2], ts[4]), ts[5..])) else None
  }

  function ReadOrdering(ts: Tokens): Option<(Ordering, Tokens)> {
    if !Shaped(ts, [Free]) then None
    else if Peeks(ts[1..], "ASC") then Some((Ordering(ts[0], Ascending), ts[2..]))
    else if Peeks(ts[1..], "DESC") then Some((Ordering(ts[0], Descending), ts[2..]))
    else Some((Ordering(ts[0], Unsaid), ts[1..]))
  }

  type Reader<!T> = Tokens -> Option<(T, Tokens)>

  /** Members until no separator follows, sixteen at most. */
  function ReadList<T>(read: Reader<T>, separator: string, ts: Tokens, room: nat): (r: Option<(seq<T>, Tokens)>)
    ensures r.Some? ==> r.value.0 != []
    decreases room
  {
    if room == 0 || read(ts).None? then None
    else
      var (x, rest) := read(ts).value;
      if !Peeks(rest, separator) then Some(([x], rest))
      else
        var more := ReadList(read, separator, rest[1..], room - 1);
        if more.Some? then Some(([x] + more.value.0, more.value.1)) else None
  }

  function ReadTerms(ts: Tokens): Option<(seq<Term>, Tokens)> {
    if Peeks(ts, "WHERE") then ReadList(ReadTerm, "AND", ts[1..], MAX_TERMS) else Some(([], ts))
  }

  const COUNTED := [Kw("COUNT"), Kw("("), Kw("*"), Kw(")"), Kw("AS"), Free]

  function ReadItems(ts: Tokens): Option<(Items, Tokens)> {
    if Peeks(ts, "COUNT") then
      if Shaped(ts, COUNTED) then Some((CountItem(ts[5]), ts[6..])) else None
    else
      var l := ReadList(ReadItem, ",", ts, MAX_TERMS);
      if l.Some? then Some((Places(l.value.0), l.value.1)) else None
  }

  function ReadOrder(ts: Tokens): Option<(seq<Ordering>, Tokens)> {
    if !Peeks(ts, "ORDER") then Some(([], ts))
    else if !Shaped(ts, [Kw("ORDER"), Kw("BY")]) then None
    else ReadList(ReadOrdering, ",", ts[2..], MAX_TERMS)
  }

  function ReadEnd(ts: Tokens): Option<string> {
    if |ts| == 2 && Peeks(ts, "LIMIT") && IsLimit(ts[1]) then Some(ts[1]) else None
  }

  function ReadTail(first: Spot, step: Option<Step>, terms: seq<Term>, ts: Tokens): Option<Surface> {
    if !Peeks(ts, "RETURN") then None
    else
      var items := ReadItems(ts[1..]);
      if items.None? then None
      else
        var order := ReadOrder(items.value.1);
        if order.None? then None
        else
          var limit := ReadEnd(order.value.1);
          if limit.None? then None
          else Some(Surface(first, step, terms, items.value.0, order.value.0, limit.value))
  }

  function ReadSurface(ts: Tokens): Option<Surface> {
    if !Peeks(ts, "MATCH") then None
    else
      var first := ReadSpot(ts[1..]);
      if first.None? then None
      else
        var step := ReadStep(first.value.1);
        if step.None? then None
        else
          var terms := ReadTerms(step.value.1);
          if terms.None? then None else ReadTail(first.value.0, step.value.0, terms.value.0, terms.value.1)
  }
}
