/** Writing a query: every query of the closed language has a text, and its text is read back as that query. */
module CypherWrite {
  import opened Basics
  import opened CypherRead
  import opened CypherSyntax
  import opened CypherTokens
  import opened CypherFront

  // ---- names

  /** A name made of a prefix and a letter. */
  function Name(prefix: char, i: nat): string
    requires i < 26
  {
    [prefix, (('a' as int) + i) as char]
  }

  function NodeName(i: nat): string {
    if i == 0 then "na" else "nb"
  }

  function PropertyText(p: Property): string {
    match p
    case Id => "id"
    case KindName => "kind"
    case Title => "title"
    case Description => "description"
    case Status => "status"
    case CreatedAt => "created_at"
    case UpdatedAt => "updated_at"
    case Version => "version"
    case Priority => "priority"
    case Archived => "archived"
  }

  function Digits(n: nat): string {
    if n < 10 then [(('0' as int) + n) as char] else Digits(n / 10) + [(('0' as int) + n % 10) as char]
  }

  const FIRST_LETTERS := {'M', 'W', 'A', 'R', 'O', 'B', 'D', 'L', 'C', 'S', 'E'}

  lemma NotKeyword(t: string)
    requires t != [] && UpperChar(t[0]) !in FIRST_LETTERS
    ensures Upper(t) !in KEYWORDS
  {
    assert Upper(t)[0] == UpperChar(t[0]);
  }

  lemma NameFree(prefix: char, i: nat)
    requires prefix in {'n', 'k', 'p'} && i < 26
    ensures FreeName(Name(prefix, i)) && IsName(Name(prefix, i))
  {
    NotKeyword(Name(prefix, i));
  }

  lemma NodeNameFree(i: nat)
    ensures FreeName(NodeName(i))
  {
    assert NodeName(i) == Name('n', if i == 0 then 0 else 1);
    NameFree('n', if i == 0 then 0 else 1);
  }

  lemma KindFree(k: string)
    requires PublicKind(k)
    ensures FreeName(k)
  {
    NotKeyword(k);
  }

  lemma RelationFree(k: string)
    requires PublicRelation(k)
    ensures FreeName(k)
  {
    if k == "HAS_CHILD" {
      NotKeyword(k);
    } else {
      assert |Upper(k)| == |k| && Upper(k)[1] == UpperChar(k[1]);
    }
  }

  lemma PropertyExact(p: Property)
    ensures PropertyNamed(PropertyText(p)) == Some(p) && IsName(PropertyText(p))
  {
  }

  lemma {:induction false} DigitsExact(n: nat)
    ensures Digits(n) != [] && (forall c | c in Digits(n) :: IsNumeral(c)) && Decimal(Digits(n)) == n
    ensures n < 1000 ==> |Digits(n)| <= (if n < 10 then 1 else if n < 100 then 2 else 3)
  {
    var t := Digits(n);
    if n < 10 {
      assert t[..0] == [];
    } else {
      DigitsExact(n / 10);
      assert t[..|t| - 1] == Digits(n / 10);
    }
  }

  // ---- the surface of a query

  /** Every operator suits the type of its property. */
  predicate Suited(q: Query) {
    forall p | p in q.predicates :: OperatorSuits(p.operator, TypeOf(p.property))
  }

  function TermFor(q: Query, i: nat): Term
    requires i < |q.predicates| <= MAX_TERMS
  {
    var p := q.predicates[i];
    Term(NodeName(p.node), PropertyText(p.property), p.operator, Name('p', i))
  }

  function ItemsFor(r: Returned): Items
    requires r.Columns? ==> |r.columns| <= MAX_TERMS
  {
    match r
    case Count => CountItem(Name('k', 0))
    case Columns(cs) =>
      Places(seq(|cs|, i requires 0 <= i < |cs| =>
        Item(NodeName(cs[i].node), PropertyText(cs[i].property), Name('k', i))))
  }

  function OrderingFor(k: Key): Ordering
    requires k.column < MAX_TERMS
  {
    Ordering(Name('k', k.column), if k.descending then Descending else Unsaid)
  }

  function SurfaceOf(q: Query): Surface
    requires q.Valid()
  {
    Surface(
      Spot(NodeName(0), q.kind),
      if q.hop.Some? then Some(Step(q.hop.value.incoming, q.hop.value.relation, Spot(NodeName(1), q.hop.value.kind)))
      else None,
      seq(|q.predicates|, i requires 0 <= i < |q.predicates| => TermFor(q, i)),
      ItemsFor(q.returned),
      seq(|q.order|, i requires 0 <= i < |q.order| => assert q.order[i] in q.order; OrderingFor(q.order[i])),
      Digits(q.limit))
  }

  function FirstParameters(q: Query, n: nat): Parameters
    requires n <= |q.predicates| <= MAX_TERMS
  {
    if n == 0 then map[] else FirstParameters(q, n - 1)[Name('p', n - 1) := q.predicates[n - 1].value]
  }

  function ParametersOf(q: Query): Parameters
    requires |q.predicates| <= MAX_TERMS
  {
    FirstParameters(q, |q.predicates|)
  }

  lemma NamesDiffer(prefix: char, i: nat, j: nat)
    requires i < 26 && j < 26 && i != j
    ensures Name(prefix, i) != Name(prefix, j)
  {
    assert Name(prefix, i)[1] != Name(prefix, j)[1];
  }

  lemma {:induction false} ParameterAt(q: Query, n: nat, i: nat)
    requires i < n <= |q.predicates| <= MAX_TERMS
    ensures Name('p', i) in FirstParameters(q, n) && FirstParameters(q, n)[Name('p', i)] == q.predicates[i].value
  {
    if i < n - 1 {
      ParameterAt(q, n - 1, i);
      NamesDiffer('p', i, n - 1);
    }
  }

  lemma {:induction false} ParameterNames(q: Query, n: nat, x: string)
    requires n <= |q.predicates| <= MAX_TERMS && x in FirstParameters(q, n)
    ensures exists i: nat | i < n :: x == Name('p', i)
  {
    if x != Name('p', n - 1) {
      ParameterNames(q, n - 1, x);
    }
  }

  lemma NodeExact(s: Surface, q: Query, node: nat)
    requires q.Valid() && s == SurfaceOf(q) && node < q.Nodes()
    ensures NodeNamed(s, NodeName(node)) == Some(node)
  {
    assert NodeName(0)[1] == 'a' && NodeName(1)[1] == 'b';
  }

  // ---- what is written is read

  lemma TermsKnown(q: Query)
    requires q.Valid() && Suited(q)
    ensures var s, ps := SurfaceOf(q), ParametersOf(q);
      (forall t | t in s.terms :: TermKnown(s, ps, t)) && (set t | t in s.terms :: t.parameter) == ps.Keys
  {
    var s, ps := SurfaceOf(q), ParametersOf(q);
    hide PropertyNamed, OperatorSuits, HasType, ItemsFor, Digits;
    forall t | t in s.terms ensures TermKnown(s, ps, t) && t.parameter in ps {
      var i: nat :| i < |s.terms| && s.terms[i] == t;
      TermAt(q, i);
    }
    forall x | x in ps ensures x in (set t | t in s.terms :: t.parameter) {
      ParameterNames(q, |q.predicates|, x);
      var i: nat :| i < |q.predicates| && x == Name('p', i);
      assert s.terms[i] in s.terms && s.terms[i].parameter == x;
    }
  }

  lemma TermAt(q: Query, i: nat)
    requires q.Valid() && Suited(q) && i < |q.predicates|
    ensures var s, ps := SurfaceOf(q), ParametersOf(q);
      s.terms[i].parameter in ps && TermKnown(s, ps, s.terms[i]) && TermOf(s, ps, s.terms[i]) == q.predicates[i]
  {
    var p := q.predicates[i];
    assert p in q.predicates;
    hide PropertyNamed, OperatorSuits, HasType, ItemsFor, Digits;
    NodeExact(SurfaceOf(q), q, p.node);
    PropertyExact(p.property);
    ParameterAt(q, |q.predicates|, i);
  }

  lemma ColumnAt(q: Query, i: nat)
    requires q.Valid() && q.returned.Columns? && i < |q.returned.columns|
    ensures var s, c := SurfaceOf(q), q.returned.columns[i];
      && s.items.Places? && i < |s.items.items|
      && PlaceKnown(s, s.items.items[i].node, s.items.items[i].property)
      && NodeNamed(s, s.items.items[i].node) == Some(c.node)
      && PropertyNamed(s.items.items[i].property) == Some(c.property)
  {
    var c := q.returned.columns[i];
    assert c in q.returned.columns;
    hide PropertyNamed, Digits;
    NodeExact(SurfaceOf(q), q, c.node);
    PropertyExact(c.property);
  }

  lemma PlacesKnown(q: Query)
    requires q.Valid()
    ensures var s := SurfaceOf(q);
      s.items.Places? ==> forall i | i in s.items.items :: PlaceKnown(s, i.node, i.property)
  {
    var s := SurfaceOf(q);
    hide PlaceKnown, Digits;
    if s.items.Places? {
      forall x | x in s.items.items ensures PlaceKnown(s, x.node, x.property) {
        var i: nat :| i < |s.items.items| && s.items.items[i] == x;
        ColumnAt(q, i);
      }
    }
  }

  lemma ColumnsNamed(q: Query)
    requires q.Valid()
    ensures var names := ColumnNames(SurfaceOf(q).items);
      |names| == q.Width() && forall i | 0 <= i < |names| :: names[i] == Name('k', i)
  {
    hide Digits, PropertyText, NodeName;
  }

  lemma ColumnsDiffer(q: Query)
    requires q.Valid()
    ensures var names := ColumnNames(SurfaceOf(q).items);
      forall i, j | 0 <= i < j < |names| :: names[i] != names[j]
  {
    hide SurfaceOf, ColumnNames, Name;
    ColumnsNamed(q);
    var names := ColumnNames(SurfaceOf(q).items);
    forall i, j | 0 <= i < j < |names| ensures names[i] != names[j] {
      assert i < q.Width() <= 26 && j < 26;
      NamesDiffer('k', i, j);
    }
  }

  lemma OrderAt(q: Query, i: nat)
    requires q.Valid() && i < |q.order|
    ensures var s := SurfaceOf(q); var names := ColumnNames(s.items);
      && i < |s.orderings| && s.orderings[i].column in names
      && ColumnNamed(names, s.orderings[i].column) == Some(q.order[i].column)
      && s.orderings[i].direction.Descending? == q.order[i].descending
  {
    var s := SurfaceOf(q);
    var names := ColumnNames(s.items);
    assert q.order[i] in q.order;
    assert s.orderings[i] == OrderingFor(q.order[i]);
    ColumnsNamed(q);
    ColumnsDiffer(q);
    hide SurfaceOf, ColumnNames, ColumnNamed, Query.Valid;
    assert names[q.order[i].column] == s.orderings[i].column;
  }

  lemma OrderKnown(q: Query)
    requires q.Valid()
    ensures var s := SurfaceOf(q); forall o | o in s.orderings :: o.column in ColumnNames(s.items)
  {
    var s := SurfaceOf(q);
    assert |s.orderings| == |q.order|;
    hide SurfaceOf, ColumnNames, ColumnNamed, Query.Valid;
    forall o | o in s.orderings ensures o.column in ColumnNames(s.items) {
      var i: nat :| i < |s.orderings| && s.orderings[i] == o;
      OrderAt(q, i);
    }
  }

  /** The pattern and the limit. */
  lemma FrameKnown(q: Query)
    requires q.Valid()
    ensures var s := SurfaceOf(q);
      && PublicKind(s.first.kind)
      && (s.step.Some? ==> PublicKind(s.step.value.spot.kind) && PublicRelation(s.step.value.relation)
                           && s.step.value.spot.name != s.first.name)
      && IsLimit(s.limit) && 1 <= Decimal(s.limit) <= MAX_ROWS
  {
    DigitsExact(q.limit);
    hide Digits, Decimal, ItemsFor, PublicKind, PublicRelation;
    assert NodeName(0)[1] != NodeName(1)[1];
  }

  lemma SurfaceKnown(q: Query)
    requires q.Valid() && Suited(q)
    ensures Known(SurfaceOf(q), ParametersOf(q))
  {
    FrameKnown(q);
    TermsKnown(q);
    PlacesKnown(q);
    ColumnsDiffer(q);
    OrderKnown(q);
    hide SurfaceOf, TermKnown, PlaceKnown, ColumnNames, ParametersOf, Digits, Decimal, Query.Valid, Suited, IsLimit;
    hide PublicKind, PublicRelation;
  }

  /** The surface of a query stands for that query. */
  lemma SurfaceBack(q: Query)
    requires q.Valid() && Suited(q)
    ensures Known(SurfaceOf(q), ParametersOf(q)) && QueryOf(SurfaceOf(q), ParametersOf(q)) == q
  {
    var s, ps := SurfaceOf(q), ParametersOf(q);
    SurfaceKnown(q);
    DigitsExact(q.limit);
    assert s.limit == Digits(q.limit) && |s.terms| == |q.predicates| && |s.orderings| == |q.order|;
    var r := QueryOf(s, ps);
    assert r.kind == q.kind && r.hop == q.hop && r.limit == q.limit;
    hide SurfaceOf, Known, ParametersOf, Query.Valid, PropertyNamed, ColumnNames, ColumnNamed, Decimal;
    assert r.predicates == q.predicates by {
      forall i: nat | i < |q.predicates| ensures r.predicates[i] == q.predicates[i] {
        TermAt(q, i);
      }
    }
    assert r.order == q.order by {
      forall i: nat | i < |q.order| ensures r.order[i] == q.order[i] {
        OrderAt(q, i);
      }
    }
    ReturnedBack(q);
  }

  lemma ReturnedBack(q: Query)
    requires q.Valid() && Known(SurfaceOf(q), ParametersOf(q))
    ensures QueryOf(SurfaceOf(q), ParametersOf(q)).returned == q.returned
  {
    var s, ps := SurfaceOf(q), ParametersOf(q);
    if q.returned.Columns? {
      assert s.items.Places? && |s.items.items| == |q.returned.columns|;
      var r := QueryOf(s, ps).returned.columns;
      hide SurfaceOf, Known, ParametersOf, Query.Valid, PropertyNamed;
      forall i: nat | i < |r| ensures r[i] == q.returned.columns[i] {
        ColumnAt(q, i);
      }
      assert r == q.returned.columns;
    }
  }

  lemma SurfaceNamed(q: Query)
    requires q.Valid()
    ensures Named(SurfaceOf(q))
  {
    var s := SurfaceOf(q);
    KindFree(q.kind);
    NodeNameFree(0);
    NodeNameFree(1);
    if q.hop.Some? {
      KindFree(q.hop.value.kind);
      RelationFree(q.hop.value.relation);
    }
    DigitsExact(q.limit);
    hide FreeName, IsName, Digits, NodeName, PropertyText, Name, PublicKind, PublicRelation;
    forall t | t in s.terms ensures TermNamed(t) {
      var i: nat :| i < |s.terms| && s.terms[i] == t;
      NodeNameFree(q.predicates[i].node);
      PropertyExact(q.predicates[i].property);
      NameFree('p', i);
    }
    forall o | o in s.orderings ensures OrderingNamed(o) {
      var i: nat :| i < |s.orderings| && s.orderings[i] == o;
      assert q.order[i] in q.order;
      NameFree('k', q.order[i].column);
    }
    NameFree('k', 0);
    if q.returned.Columns? {
      forall x | x in s.items.items ensures ItemNamed(x) {
        var i: nat :| i < |s.items.items| && s.items.items[i] == x;
        NodeNameFree(q.returned.columns[i].node);
        PropertyExact(q.returned.columns[i].property);
        NameFree('k', i);
      }
    }
  }

  // ---- the text of a query

  function TokenFor(m: Mark): string {
    match m
    case Word(w) => w
    case Text(t) => t
  }

  /** A mark that can be written as it stands, in a few characters. */
  predicate Neat(m: Mark) {
    IsToken(TokenFor(m)) && |TokenFor(m)| <= 11 && (m.Word? ==> Upper(m.upper) == m.upper)
  }

  predicate AllNeat(ms: seq<Mark>) {
    forall m | m in ms :: Neat(m)
  }

  lemma NeatJoins(a: seq<Mark>, b: seq<Mark>)
    requires AllNeat(a) && AllNeat(b)
    ensures AllNeat(a + b)
  {
    hide Neat;
  }

  const SYMBOLS := {"(", ")", ":", "[", "]", ".", "$", ",", "*", "-", "->", "<-", "=", "<>", "<", "<=", ">", ">="}

  lemma SymbolNeat(w: string)
    requires w in SYMBOLS
    ensures Neat(Word(w))
  {
    SymbolStays(w);
  }

  lemma SymbolStays(w: string)
    requires w in SYMBOLS
    ensures Upper(w) == w
  {
    assert forall c | c in w :: !('a' <= c <= 'z');
  }

  lemma WordNeat(w: string)
    requires w in KEYWORDS
    ensures Neat(Word(w))
  {
    assert |w| <= 8;
    assert forall i | 0 <= i < |w| :: 'A' <= w[i] <= 'Z';
    assert Upper(w) == w;
  }

  lemma NameNeat(t: string)
    requires IsName(t) && |t| <= 11
    ensures Neat(Text(t))
  {
  }

  lemma SpotNeat(s: Spot)
    requires SpotNamed(s) && |s.name| <= 11 && |s.kind| <= 11
    ensures AllNeat(SpotMarks(s))
  {
    hide IsName, Neat;
    NameNeat(s.name);
    NameNeat(s.kind);
    SymbolNeat("(");
    SymbolNeat(":");
    SymbolNeat(")");
  }

  lemma StepNeat(s: Step)
    requires StepNamed(s) && |s.relation| <= 11 && |s.spot.name| <= 11 && |s.spot.kind| <= 11
    ensures AllNeat(StepMarks(s))
  {
    hide IsName, Neat, SpotMarks;
    NameNeat(s.relation);
    SpotNeat(s.spot);
    SymbolNeat("<-");
    SymbolNeat("-");
    SymbolNeat("->");
    SymbolNeat("[");
    SymbolNeat(":");
    SymbolNeat("]");
  }

  lemma OperatorNeat(op: Operator)
    ensures AllNeat(OperatorMarks(op)) && |OperatorMarks(op)| <= 2
  {
    hide Neat;
    SymbolNeat("=");
    SymbolNeat("<>");
    SymbolNeat("<");
    SymbolNeat("<=");
    SymbolNeat(">");
    SymbolNeat(">=");
    WordNeat("CONTAINS");
    WordNeat("STARTS");
    WordNeat("ENDS");
    WordNeat("WITH");
  }

  lemma TermNeat(t: Term)
    requires TermNamed(t) && |t.node| <= 11 && |t.property| <= 11 && |t.parameter| <= 11
    ensures AllNeat(TermMarks(t)) && |TermMarks(t)| <= 7
  {
    hide IsName, Neat, OperatorMarks;
    NameNeat(t.node);
    NameNeat(t.property);
    NameNeat(t.parameter);
    SymbolNeat(".");
    SymbolNeat("$");
    OperatorNeat(t.operator);
  }

  lemma ItemNeat(i: Item)
    requires ItemNamed(i) && |i.node| <= 11 && |i.property| <= 11 && |i.column| <= 11
    ensures AllNeat(ItemMarks(i)) && |ItemMarks(i)| <= 5
  {
    hide IsName, Neat;
    NameNeat(i.node);
    NameNeat(i.property);
    NameNeat(i.column);
    SymbolNeat(".");
    WordNeat("AS");
  }

  lemma OrderingNeat(o: Ordering)
    requires OrderingNamed(o) && |o.column| <= 11
    ensures AllNeat(OrderingMarks(o)) && |OrderingMarks(o)| <= 2
  {
    hide IsName, Neat;
    NameNeat(o.column);
    WordNeat("ASC");
    WordNeat("DESC");
  }

  lemma {:induction false} JoinedShort(lists: seq<seq<Mark>>, separator: string, n: nat)
    requires forall l | l in lists :: |l| <= n
    ensures |Joined(lists, separator)| <= (n + 1) * |lists|
  {
    if lists != [] {
      assert lists[0] in lists;
      JoinedShort(lists[1..], separator, n);
      OneTimes(n + 1, |lists| - 1);
    }
  }

  lemma OneTimes(n: nat, k: nat)
    ensures n * (k + 1) == n * k + n
  {
  }

  lemma {:induction false} JoinedAllNeat(lists: seq<seq<Mark>>, separator: string)
    requires Neat(Word(separator)) && forall l | l in lists :: AllNeat(l)
    ensures AllNeat(Joined(lists, separator))
  {
    hide Neat, AllNeat;
    if lists == [] {
      NoneNeat();
    } else {
      assert lists[0] in lists;
      if |lists| > 1 {
        JoinedAllNeat(lists[1..], separator);
        OneNeat(Word(separator));
        NeatJoins(lists[0], [Word(separator)]);
        NeatJoins(lists[0] + [Word(separator)], Joined(lists[1..], separator));
      }
    }
  }

  lemma JoinedNeat(lists: seq<seq<Mark>>, separator: string, n: nat)
    requires Neat(Word(separator)) && forall l | l in lists :: AllNeat(l) && |l| <= n
    ensures AllNeat(Joined(lists, separator)) && |Joined(lists, separator)| <= (n + 1) * |lists|
  {
    hide Neat, AllNeat, Joined;
    JoinedAllNeat(lists, separator);
    JoinedShort(lists, separator, n);
  }

  lemma NoneNeat()
    ensures AllNeat([])
  {
  }

  lemma OneNeat(m: Mark)
    requires Neat(m)
    ensures AllNeat([m])
  {
    hide Neat;
  }

  // ---- tokens with blanks between them

  function TextFor(ts: Tokens): string {
    if ts == [] then "" else ts[0] + " " + TextFor(ts[1..])
  }

  /** A blank ends a token. */
  lemma TokenEnds(t: string, rest: string)
    requires IsToken(t)
    ensures Longest(t + " " + rest, |t|)
  {
    var s := t + " " + rest;
    assert s[..|t|] == t && s[|t|] == ' ';
    forall m | |t| < m <= |s| ensures !IsToken(s[..m]) {
      BlankNoToken(s[..m], |t|);
    }
  }

  lemma BlankNoToken(t: string, i: nat)
    requires i < |t| && t[i] == ' ' && |t| > 1
    ensures !IsToken(t)
  {
    assert t[i] in t;
    if |t| == 2 {
      assert i == 0 || i == 1;
    }
  }

  lemma NoBlank(t: string)
    requires IsToken(t)
    ensures t != [] && !IsBlank(t[0]) && forall c | c in t :: 32 < c as int < 128
  {
    forall c | c in t ensures 32 < c as int < 128 {
      if t in PAIRS {
        assert c in {'-', '>', '<', '='};
      }
    }
    assert t[0] in t;
  }

  lemma {:induction false} TextSplits(ts: Tokens)
    requires forall t | t in ts :: IsToken(t)
    ensures Splits(TextFor(ts), ts)
  {
    if ts != [] {
      var t, rest := ts[0], TextFor(ts[1..]);
      assert t in ts;
      TextSplits(ts[1..]);
      var s := t + " " + rest;
      NoBlank(t);
      hide IsToken;
      TokenEnds(t, rest);
      assert s[|t|..] == " " + rest && (" " + rest)[1..] == rest;
      assert Splits(" " + rest, ts[1..]);
      assert s[0] == t[0] && s[..|t|] == t;
    }
  }

  lemma {:induction false} TextPlain(ts: Tokens)
    requires forall t | t in ts :: IsToken(t) && |t| <= 11
    ensures |TextFor(ts)| <= 12 * |ts| && forall c | c in TextFor(ts) :: 32 <= c as int < 128
  {
    if ts != [] {
      assert ts[0] in ts;
      NoBlank(ts[0]);
      TextPlain(ts[1..]);
    }
  }

  // ---- the whole text

  lemma ShortNames(q: Query)
    requires q.Valid()
    ensures |q.kind| <= 11 && (q.hop.Some? ==> |q.hop.value.kind| <= 11 && |q.hop.value.relation| <= 11)
  {
  }

  lemma ShortProperty(p: Property)
    ensures |PropertyText(p)| <= 11
  {
  }

  lemma TermShort(q: Query, i: nat)
    requires q.Valid() && i < |q.predicates|
    ensures var s := SurfaceOf(q);
      && |s.terms| == |q.predicates| && TermNamed(s.terms[i])
      && |s.terms[i].node| <= 11 && |s.terms[i].property| <= 11 && |s.terms[i].parameter| <= 11
  {
    SurfaceNamed(q);
    ShortProperty(q.predicates[i].property);
    assert SurfaceOf(q).terms[i] in SurfaceOf(q).terms;
    hide FreeName, IsName, PropertyText, Digits;
  }

  lemma TermListNeat(ts: seq<Term>)
    requires |ts| <= MAX_TERMS
    requires forall i | 0 <= i < |ts| ::
      TermNamed(ts[i]) && |ts[i].node| <= 11 && |ts[i].property| <= 11 && |ts[i].parameter| <= 11
    ensures AllNeat(TermsPart(ts)) && |TermsPart(ts)| <= 129
  {
    hide Neat, AllNeat, TermMarks, TermNamed;
    var lists := Map(ts, TermMarks);
    forall l | l in lists ensures AllNeat(l) && |l| <= 7 {
      var i: nat :| i < |lists| && lists[i] == l;
      TermNeat(ts[i]);
    }
    TermWords();
    JoinedNeat(lists, "AND", 7);
    NoneNeat();
    NeatJoins([Word("WHERE")], Joined(lists, "AND"));
  }

  lemma TermWords()
    ensures AllNeat([Word("WHERE")]) && Neat(Word("AND"))
  {
    hide Neat;
    WordNeat("WHERE");
    WordNeat("AND");
  }

  lemma TermsNeat(q: Query)
    requires q.Valid()
    ensures AllNeat(TermsPart(SurfaceOf(q).terms)) && |TermsPart(SurfaceOf(q).terms)| <= 129
  {
    assert |SurfaceOf(q).terms| == |q.predicates| <= MAX_TERMS;
    hide SurfaceOf, AllNeat, TermsPart, TermNamed;
    forall i: nat | i < |q.predicates| ensures
      var t := SurfaceOf(q).terms[i];
      TermNamed(t) && |t.node| <= 11 && |t.property| <= 11 && |t.parameter| <= 11
    {
      TermShort(q, i);
    }
    TermListNeat(SurfaceOf(q).terms);
  }

  lemma ItemShort(q: Query, i: nat)
    requires q.Valid() && q.returned.Columns? && i < |q.returned.columns|
    ensures var s := SurfaceOf(q);
      && s.items.Places? && i < |s.items.items| && ItemNamed(s.items.items[i])
      && |s.items.items[i].node| <= 11 && |s.items.items[i].property| <= 11 && |s.items.items[i].column| <= 11
  {
    SurfaceNamed(q);
    ShortProperty(q.returned.columns[i].property);
    assert SurfaceOf(q).items.items[i] in SurfaceOf(q).items.items;
    hide FreeName, IsName, PropertyText, Digits;
  }

  lemma PlacesNeat(items: seq<Item>)
    requires |items| <= MAX_TERMS
    requires forall i | 0 <= i < |items| ::
      ItemNamed(items[i]) && |items[i].node| <= 11 && |items[i].property| <= 11 && |items[i].column| <= 11
    ensures AllNeat(ItemsPart(Places(items))) && |ItemsPart(Places(items))| <= 96
  {
    hide Neat, AllNeat, ItemMarks, ItemNamed;
    var lists := Map(items, ItemMarks);
    forall l | l in lists ensures AllNeat(l) && |l| <= 5 {
      var i: nat :| i < |lists| && lists[i] == l;
      ItemNeat(items[i]);
    }
    SymbolNeat(",");
    JoinedNeat(lists, ",", 5);
  }

  lemma CountNeat(c: string)
    requires IsName(c) && |c| <= 11
    ensures AllNeat(ItemsPart(CountItem(c))) && |ItemsPart(CountItem(c))| <= 96
  {
    hide Neat;
    NameNeat(c);
    WordNeat("COUNT");
    SymbolNeat("(");
    SymbolNeat("*");
    SymbolNeat(")");
    WordNeat("AS");
  }

  lemma ItemsNeat(q: Query)
    requires q.Valid()
    ensures AllNeat(ItemsPart(SurfaceOf(q).items)) && |ItemsPart(SurfaceOf(q).items)| <= 96
  {
    hide AllNeat, ItemsPart, ItemNamed, Name;
    if q.returned.Columns? {
      ItemsThere(q);
      hide SurfaceOf;
      forall i: nat | i < |q.returned.columns| ensures
        var x := SurfaceOf(q).items.items[i];
        ItemNamed(x) && |x.node| <= 11 && |x.property| <= 11 && |x.column| <= 11
      {
        ItemShort(q, i);
      }
      PlacesNeat(SurfaceOf(q).items.items);
    } else {
      NameFree('k', 0);
      NameShort('k', 0);
      CountNeat(Name('k', 0));
    }
  }

  lemma NameShort(prefix: char, i: nat)
    requires i < 26
    ensures |Name(prefix, i)| <= 11
  {
  }

  lemma ItemsThere(q: Query)
    requires q.Valid() && q.returned.Columns?
    ensures SurfaceOf(q).items.Places? && |SurfaceOf(q).items.items| == |q.returned.columns| <= MAX_TERMS
  {
    hide Name, NodeName, PropertyText, Digits;
  }

  lemma OrderingShort(q: Query, i: nat)
    requires q.Valid() && i < |q.order|
    ensures var s := SurfaceOf(q);
      |s.orderings| == |q.order| && OrderingNamed(s.orderings[i]) && |s.orderings[i].column| <= 11
  {
    SurfaceNamed(q);
    assert q.order[i] in q.order && SurfaceOf(q).orderings[i] in SurfaceOf(q).orderings;
    hide FreeName, Digits;
  }

  lemma OrderingsNeat(os: seq<Ordering>)
    requires |os| <= MAX_TERMS && forall i | 0 <= i < |os| :: OrderingNamed(os[i]) && |os[i].column| <= 11
    ensures AllNeat(OrderPart(os)) && |OrderPart(os)| <= 50
  {
    hide Neat, AllNeat, OrderingMarks, OrderingNamed;
    var lists := Map(os, OrderingMarks);
    forall l | l in lists ensures AllNeat(l) && |l| <= 2 {
      var i: nat :| i < |lists| && lists[i] == l;
      OrderingNeat(os[i]);
    }
    SymbolNeat(",");
    JoinedNeat(lists, ",", 2);
    NoneNeat();
    OrderWords();
    NeatJoins([Word("ORDER"), Word("BY")], Joined(lists, ","));
  }

  lemma OrderWords()
    ensures AllNeat([Word("ORDER"), Word("BY")])
  {
    hide Neat;
    WordNeat("ORDER");
    WordNeat("BY");
  }

  lemma OrderNeat(q: Query)
    requires q.Valid()
    ensures AllNeat(OrderPart(SurfaceOf(q).orderings)) && |OrderPart(SurfaceOf(q).orderings)| <= 50
  {
    assert |SurfaceOf(q).orderings| == |q.order| <= MAX_TERMS;
    hide SurfaceOf, AllNeat, OrderPart, OrderingNamed;
    forall i: nat | i < |q.order|
      ensures OrderingNamed(SurfaceOf(q).orderings[i]) && |SurfaceOf(q).orderings[i].column| <= 11
    {
      OrderingShort(q, i);
    }
    OrderingsNeat(SurfaceOf(q).orderings);
  }

  lemma LimitNeat(q: Query)
    requires q.Valid()
    ensures AllNeat(EndMarks(SurfaceOf(q).limit))
  {
    DigitsExact(q.limit);
    hide Digits;
    WordNeat("LIMIT");
    assert Neat(Text(Digits(q.limit)));
    hide Neat;
  }

  lemma StepPartNeat(q: Query)
    requires q.Valid()
    ensures AllNeat(StepPart(SurfaceOf(q).step)) && |StepPart(SurfaceOf(q).step)| <= 11
  {
    SurfaceNamed(q);
    ShortNames(q);
    hide Neat, FreeName, Digits;
    NoneNeat();
    if q.hop.Some? {
      StepNeat(SurfaceOf(q).step.value);
    }
  }

  lemma MarksNeat(q: Query)
    requires q.Valid()
    ensures AllNeat(Marks(SurfaceOf(q))) && |Marks(SurfaceOf(q))| <= 300
  {
    var s := SurfaceOf(q);
    SurfaceNamed(q);
    ShortNames(q);
    assert s.first == Spot(NodeName(0), q.kind);
    SpotNeat(s.first);
    StepPartNeat(q);
    TermsNeat(q);
    ItemsNeat(q);
    OrderNeat(q);
    LimitNeat(q);
    WordNeat("MATCH");
    WordNeat("RETURN");
    hide SurfaceOf, Neat, AllNeat, StepPart, TermsPart, ItemsPart, OrderPart, Query.Valid, Named;
    OneNeat(Word("MATCH"));
    OneNeat(Word("RETURN"));
    NeatJoins(OrderPart(s.orderings), EndMarks(s.limit));
    NeatJoins(ItemsPart(s.items), OrderPart(s.orderings) + EndMarks(s.limit));
    NeatJoins([Word("RETURN")], ItemsPart(s.items) + (OrderPart(s.orderings) + EndMarks(s.limit)));
    NeatJoins(TermsPart(s.terms), TailMarks(s));
    NeatJoins(StepPart(s.step), TermsPart(s.terms) + TailMarks(s));
    NeatJoins(SpotMarks(s.first), StepPart(s.step) + (TermsPart(s.terms) + TailMarks(s)));
    NeatJoins([Word("MATCH")], SpotMarks(s.first) + (StepPart(s.step) + (TermsPart(s.terms) + TailMarks(s))));
  }

  lemma NeatSpelled(ms: seq<Mark>)
    requires AllNeat(ms)
    ensures var ts := Map(ms, TokenFor); Spelled(ts, ms) && forall t | t in ts :: IsToken(t) && |t| <= 11
  {
    var ts := Map(ms, TokenFor);
    hide IsToken, Upper;
    forall i | 0 <= i < |ms| ensures Marked(ts[i], ms[i]) && IsToken(ts[i]) && |ts[i]| <= 11 {
      assert ms[i] in ms;
    }
  }

  function TextOf(q: Query): string
    requires q.Valid()
  {
    TextFor(Map(Marks(SurfaceOf(q)), TokenFor))
  }

  /** The text of a query is read back as that query. */
  lemma WrittenReads(q: Query)
    requires q.Valid() && Suited(q)
    ensures ReadText(TextOf(q), ParametersOf(q)) == Some(q)
  {
    assert |q.predicates| <= MAX_TERMS;
    hide SurfaceOf, ParametersOf, Marks, Named, Known, QueryOf, Splits, Spelled, IsToken, Query.Valid;
    hide Suited, ReadText, AllNeat;
    var s, ps := SurfaceOf(q), ParametersOf(q);
    MarksNeat(q);
    MarksThere(s);
    SurfaceNamed(q);
    SurfaceBack(q);
    MarksWritten(Marks(s));
    assert Written(TextOf(q), Map(Marks(s), TokenFor), s, ps, q);
    TextAcceptedExactly(TextOf(q), ps, q);
  }

  lemma MarksWritten(ms: seq<Mark>)
    requires AllNeat(ms) && ms != [] && |ms| <= 300
    ensures var ts := Map(ms, TokenFor);
      Spelled(ts, ms) && Splits(TextFor(ts), ts) && Plain(TextFor(ts)) && |ts| <= MAX_TOKENS
  {
    hide AllNeat, Spelled, Splits, IsToken, TextFor;
    var ts := Map(ms, TokenFor);
    NeatSpelled(ms);
    TextSplits(ts);
    TextPlain(ts);
    TextThere(ts);
  }

  lemma MarksThere(s: Surface)
    ensures Marks(s) != []
  {
  }

  lemma TextThere(ts: Tokens)
    requires ts != []
    ensures TextFor(ts) != []
  {
  }

  lemma KnownSuited(s: Surface, ps: Parameters)
    requires Known(s, ps)
    ensures Suited(QueryOf(s, ps))
  {
    var q := QueryOf(s, ps);
    hide PropertyNamed, Decimal, IsLimit, HasType, OperatorSuits, PublicKind, PublicRelation, ColumnNames, ColumnNamed;
    forall p | p in q.predicates ensures OperatorSuits(p.operator, TypeOf(p.property)) {
      var i: nat :| i < |s.terms| && p == q.predicates[i];
      assert s.terms[i] in s.terms;
      assert p == TermOf(s, ps, s.terms[i]);
    }
  }

  /** The queries that some text is read as are exactly the valid ones whose operators suit their properties. */
  lemma ReadableExactly(q: Query)
    ensures (exists text: string, ps: Parameters :: ReadText(text, ps) == Some(q)) <==> q.Valid() && Suited(q)
  {
    hide ReadText, Query.Valid, Suited, Known, QueryOf, Named, Splits, Spelled, Plain, Marks;
    if text: string, ps: Parameters :| ReadText(text, ps) == Some(q) {
      TextAcceptedExactly(text, ps, q);
      var ts: Tokens, s: Surface :| Written(text, ts, s, ps, q);
      KnownSuited(s, ps);
    }
    if q.Valid() && Suited(q) {
      WrittenReads(q);
    }
  }

  /** No parameter that is passed is left unused: each value occurs in a predicate of the query. */
  lemma NothingUnused(text: string, ps: Parameters, q: Query, x: string)
    requires ReadText(text, ps) == Some(q) && x in ps
    ensures exists p | p in q.predicates :: p.value == ps[x]
  {
    hide ReadText, Query.Valid, Known, QueryOf, Named, Splits, Spelled, Plain, Marks;
    TextAcceptedExactly(text, ps, q);
    var ts: Tokens, s: Surface :| Written(text, ts, s, ps, q);
    KnownUses(s, ps, x);
  }

  lemma KnownUses(s: Surface, ps: Parameters, x: string)
    requires Known(s, ps) && x in ps
    ensures exists p | p in QueryOf(s, ps).predicates :: p.value == ps[x]
  {
    var q := QueryOf(s, ps);
    hide PropertyNamed, Decimal, IsLimit, HasType, OperatorSuits, PublicKind, PublicRelation, ColumnNames, ColumnNamed;
    assert x in (set t | t in s.terms :: t.parameter);
    var t :| t in s.terms && t.parameter == x;
    var i: nat :| i < |s.terms| && s.terms[i] == t;
    assert q.predicates[i] == TermOf(s, ps, t) && q.predicates[i] in q.predicates;
  }
}
