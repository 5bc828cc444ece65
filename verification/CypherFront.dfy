/** From a text and its parameters to a query of the closed language, or to a refusal. */
module CypherFront {
  import opened Basics
  import opened CypherRead
  import opened CypherSyntax
  import opened CypherSyntaxExact
  import opened CypherMeaning
  import opened CypherTokens

  type Parameters = map<string, Value>

  function PropertyNamed(name: string): Option<Property> {
    if name == "id" then Some(Id)
    else if name == "kind" then Some(KindName)
    else if name == "title" then Some(Title)
    else if name == "description" then Some(Description)
    else if name == "status" then Some(Status)
    else if name == "created_at" then Some(CreatedAt)
    else if name == "updated_at" then Some(UpdatedAt)
    else if name == "version" then Some(Version)
    else if name == "priority" then Some(Priority)
    else if name == "archived" then Some(Archived)
    else None
  }

  /** The node that a name stands for. */
  function NodeNamed(s: Surface, name: string): Option<nat> {
    if name == s.first.name then Some(0)
    else if s.step.Some? && name == s.step.value.spot.name then Some(1)
    else None
  }

  predicate OperatorSuits(op: Operator, t: Type) {
    && (t.BooleanType? ==> op in {Eq, Ne})
    && (op in {Contains, StartsWith, EndsWith} ==> t.StringType?)
  }

  predicate PlaceKnown(s: Surface, node: string, property: string) {
    NodeNamed(s, node).Some? && PropertyNamed(property).Some?
  }

  predicate TermKnown(s: Surface, ps: Parameters, t: Term) {
    && PlaceKnown(s, t.node, t.property)
    && var of := TypeOf(PropertyNamed(t.property).value);
       OperatorSuits(t.operator, of) && t.parameter in ps && HasType(ps[t.parameter], of)
  }

  function TermOf(s: Surface, ps: Parameters, t: Term): Predicate
    requires TermKnown(s, ps, t)
  {
    Predicate(NodeNamed(s, t.node).value, PropertyNamed(t.property).value, t.operator, ps[t.parameter])
  }

  function ColumnNames(items: Items): seq<string> {
    match items
    case CountItem(c) => [c]
    case Places(places) => Map(places, (i: Item) => i.column)
  }

  /** The first column of a name. */
  function ColumnNamed(columns: seq<string>, name: string): (i: Option<nat>)
    ensures i.Some? ==> i.value < |columns| && columns[i.value] == name
    ensures i.None? ==> name !in columns
  {
    if columns == [] then None
    else if columns[0] == name then Some(0)
    else var i := ColumnNamed(columns[1..], name); if i.Some? then Some(i.value + 1) else None
  }

  function Decimal(t: string): nat
    requires forall c | c in t :: IsNumeral(c)
  {
    if t == [] then 0
    else assert IsNumeral(t[|t| - 1]); Decimal(t[..|t| - 1]) * 10 + (t[|t| - 1] as int - '0' as int)
  }

  /** Everything that the compiler asks of the names in a query. */
  predicate Known(s: Surface, ps: Parameters) {
    && PublicKind(s.first.kind)
    && (s.step.Some? ==> PublicKind(s.step.value.spot.kind) && PublicRelation(s.step.value.relation)
                         && s.step.value.spot.name != s.first.name)
    && (forall t | t in s.terms :: TermKnown(s, ps, t))
    && (set t | t in s.terms :: t.parameter) == ps.Keys
    && (s.items.Places? ==> forall i | i in s.items.items :: PlaceKnown(s, i.node, i.property))
    && (forall i, j | 0 <= i < j < |ColumnNames(s.items)| :: ColumnNames(s.items)[i] != ColumnNames(s.items)[j])
    && (forall o | o in s.orderings :: o.column in ColumnNames(s.items))
    && IsLimit(s.limit) && 1 <= Decimal(s.limit) <= MAX_ROWS
  }

  function QueryOf(s: Surface, ps: Parameters): Query
    requires Known(s, ps)
  {
    Query(
      s.first.kind,
      if s.step.Some? then Some(Hop(s.step.value.incoming, s.step.value.relation, s.step.value.spot.kind)) else None,
      seq(|s.terms|, i requires 0 <= i < |s.terms| => assert s.terms[i] in s.terms; TermOf(s, ps, s.terms[i])),
      match s.items
      case CountItem(_) => Count
      case Places(places) =>
        Columns(seq(|places|, i requires 0 <= i < |places| =>
          assert places[i] in places;
          Column(NodeNamed(s, places[i].node).value, PropertyNamed(places[i].property).value))),
      seq(|s.orderings|, i requires 0 <= i < |s.orderings| =>
        assert s.orderings[i] in s.orderings;
        Key(ColumnNamed(ColumnNames(s.items), s.orderings[i].column).value, s.orderings[i].direction.Descending?)),
      Decimal(s.limit))
  }

  function ReadQuery(ts: Tokens, ps: Parameters): Option<Query> {
    var s := ReadSurface(ts);
    if s.Some? && Known(s.value, ps) then Some(QueryOf(s.value, ps)) else None
  }

  lemma TermsValid(s: Surface, ps: Parameters, q: Query)
    requires Known(s, ps) && q == QueryOf(s, ps)
    ensures forall p | p in q.predicates :: p.node < q.Nodes() && HasType(p.value, TypeOf(p.property))
  {
    hide PropertyNamed, Decimal, IsLimit, HasType, OperatorSuits, PublicKind, PublicRelation, ColumnNames, ColumnNamed;
    forall p | p in q.predicates ensures p.node < q.Nodes() && HasType(p.value, TypeOf(p.property)) {
      var i :| 0 <= i < |s.terms| && p == q.predicates[i];
      assert s.terms[i] in s.terms;
      assert p == TermOf(s, ps, s.terms[i]);
    }
  }

  lemma ColumnsValid(s: Surface, ps: Parameters, q: Query)
    requires Named(s) && Known(s, ps) && q == QueryOf(s, ps)
    ensures 1 <= q.Width() <= MAX_TERMS
    ensures q.returned.Columns? ==> forall c | c in q.returned.columns :: c.node < q.Nodes()
  {
    hide PropertyNamed, Decimal, IsLimit, TermKnown, PublicKind, PublicRelation, ColumnNames, ColumnNamed, FreeName;
    if q.returned.Columns? {
      forall c | c in q.returned.columns ensures c.node < q.Nodes() {
        var i :| 0 <= i < |q.returned.columns| && q.returned.columns[i] == c;
        assert s.items.items[i] in s.items.items;
      }
    }
  }

  lemma OrderValid(s: Surface, ps: Parameters, q: Query)
    requires Known(s, ps) && q == QueryOf(s, ps)
    ensures forall k | k in q.order :: k.column < q.Width()
  {
    hide PropertyNamed, Decimal, IsLimit, TermKnown, PublicKind, PublicRelation, ColumnNamed, PlaceKnown;
    forall k | k in q.order ensures k.column < q.Width() {
      var i :| 0 <= i < |s.orderings| && q.order[i] == k;
      assert s.orderings[i] in s.orderings;
    }
  }

  lemma QueryValid(s: Surface, ps: Parameters)
    requires Named(s) && Known(s, ps)
    ensures QueryOf(s, ps).Valid()
  {
    hide PropertyNamed, IsLimit, TermKnown, PublicKind, PublicRelation, ColumnNamed, ColumnNames, PlaceKnown, HasType;
    hide FreeName, IsName;
    TermsValid(s, ps, QueryOf(s, ps));
    ColumnsValid(s, ps, QueryOf(s, ps));
    OrderValid(s, ps, QueryOf(s, ps));
  }

  /** What a list reads when `xs` of it have been read. */
  function After<T>(xs: seq<T>, r: Option<(seq<T>, Tokens)>): Option<(seq<T>, Tokens)> {
    if r.Some? then Some((xs + r.value.0, r.value.1)) else None
  }

  lemma AfterMore<T>(xs: seq<T>, x: T, r: Option<(seq<T>, Tokens)>)
    ensures After(xs, After([x], r)) == After(xs + [x], r)
  {
    if r.Some? {
      assert xs + ([x] + r.value.0) == (xs + [x]) + r.value.0;
    }
  }

  lemma AfterNone<T>(r: Option<(seq<T>, Tokens)>)
    ensures After([], r) == r
  {
    if r.Some? {
      assert [] + r.value.0 == r.value.0;
    }
  }

  /** The loop over the terms, the columns or the orderings of a query. */
  method ReadEach<T>(read: Reader<T>, separator: string, tokens: Tokens) returns (r: Option<(seq<T>, Tokens)>)
    ensures r == ReadList(read, separator, tokens, MAX_TERMS)
  {
    hide Upper;
    var xs: seq<T>, rest := [], tokens;
    AfterNone(ReadList(read, separator, tokens, MAX_TERMS));
    while true
      invariant |xs| <= MAX_TERMS
      invariant ReadList(read, separator, tokens, MAX_TERMS)
             == After(xs, ReadList(read, separator, rest, MAX_TERMS - |xs|))
      decreases MAX_TERMS - |xs|
    {
      if |xs| == MAX_TERMS { return None; }
      var one := read(rest);
      if one.None? { return None; }
      var (x, next) := one.value;
      if !Peeks(next, separator) { return Some((xs + [x], next)); }
      AfterMore(xs, x, ReadList(read, separator, next[1..], MAX_TERMS - |xs| - 1));
      xs, rest := xs + [x], next[1..];
    }
  }

  /**
   Tokens are accepted if and only if they spell a query of the grammar whose names are all known, and
   what is accepted is a valid query of the closed language.
   */
  lemma AcceptedExactly(ts: Tokens, ps: Parameters, q: Query)
    ensures ReadQuery(ts, ps) == Some(q) <==>
            exists s: Surface :: Named(s) && Spelled(ts, Marks(s)) && Known(s, ps) && QueryOf(s, ps) == q
    ensures ReadQuery(ts, ps) == Some(q) ==> q.Valid()
  {
    hide ReadSurface, Named, Marks, Known, QueryOf, Query.Valid, Spelled;
    if ReadQuery(ts, ps) == Some(q) {
      SurfaceExact(ts, ReadSurface(ts).value);
      QueryValid(ReadSurface(ts).value, ps);
    }
    if s: Surface :| Named(s) && Spelled(ts, Marks(s)) && Known(s, ps) && QueryOf(s, ps) == q {
      SurfaceExact(ts, s);
    }
  }

  function ReadText(text: string, ps: Parameters): Option<Query> {
    var ts := TokensOf(text);
    if ts.Some? then ReadQuery(ts.value, ps) else None
  }

  /** What a text has to be: a split into tokens that spell a known query. */
  ghost predicate Written(text: string, ts: Tokens, s: Surface, ps: Parameters, q: Query) {
    && Plain(text) && |ts| <= MAX_TOKENS && Splits(text, ts)
    && Named(s) && Spelled(ts, Marks(s)) && Known(s, ps) && QueryOf(s, ps) == q
  }

  /** A text is accepted if and only if it is written as a query of the closed language. */
  lemma TextAcceptedExactly(text: string, ps: Parameters, q: Query)
    ensures ReadText(text, ps) == Some(q) <==> exists ts: Tokens, s: Surface :: Written(text, ts, s, ps, q)
    ensures ReadText(text, ps) == Some(q) ==> q.Valid()
  {
    hide ReadQuery, Named, Marks, Known, QueryOf, Query.Valid, Spelled, Splits, Plain, TokensOf;
    if ReadText(text, ps) == Some(q) {
      var ts := TokensOf(text).value;
      TokensExact(text, ts);
      AcceptedExactly(ts, ps, q);
      var s: Surface :| Named(s) && Spelled(ts, Marks(s)) && Known(s, ps) && QueryOf(s, ps) == q;
      assert Written(text, ts, s, ps, q);
    }
    if ts: Tokens, s: Surface :| Written(text, ts, s, ps, q) {
      TokensExact(text, ts);
      AcceptedExactly(ts, ps, q);
    }
  }

  /** From text to rows: an accepted query returns its own rows from canonical nodes with tame values. */
  lemma AcceptedMeaning(text: string, ps: Parameters, q: Query, g: Graph)
    requires ReadText(text, ps) == Some(q) && q.returned.Columns? && Canonical(g)
    requires forall b | b in Matches(q, g) :: Tame(q.returned.columns, b)
    ensures DropAll(Execute(Compile(q), g), q.Width()) == Meaning(q, g)
  {
    hide ReadText, Query.Valid, Canonical, Matches, Tame, Execute, Compile, Meaning, DropAll;
    TextAcceptedExactly(text, ps, q);
    MeaningPreserved(q, g);
  }
}
