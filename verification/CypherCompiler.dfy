/** The compiler as it works: one pass that binds parameters and fills the lists of the statement. */
module CypherCompiler {
  import opened CypherRead
  import opened CypherMeaning

  class Compiler {
    var parameters: seq<Value>

    constructor ()
      ensures parameters == []
    {
      parameters := [];
    }

    /** Names the next parameter. */
    method Bind(v: Value) returns (e: Expression)
      modifies this
      ensures parameters == old(parameters) + [v] && e == Parameter(|old(parameters)|)
    {
      e := Parameter(|parameters|);
      parameters := parameters + [v];
    }

    method Terms(ps: seq<Predicate>) returns (conditions: seq<Expression>)
      requires parameters == []
      modifies this
      ensures conditions == Conditions(ps) && parameters == PredicateValues(ps)
    {
      conditions := [];
      for i := 0 to |ps|
        invariant |conditions| == i && conditions == Conditions(ps)[..i]
        invariant parameters == PredicateValues(ps)[..i]
      {
        var p := Bind(ps[i].value);
        conditions := conditions + [Comparison(ps[i].operator, Access(ps[i].node, ps[i].property), p)];
      }
    }

    method Kinds(q: Query) returns (guards: seq<Expression>)
      requires |parameters| == |q.predicates|
      modifies this
      ensures guards == Guards(q) && parameters == old(parameters) + KindValues(q)
    {
      guards := [];
      for j := 0 to q.Nodes()
        invariant guards == Guards(q)[..2 * j] && parameters == old(parameters) + KindValues(q)[..j]
      {
        var kind := Bind(Str(q.KindOf(j)));
        guards := guards + [Comparison(Eq, LabelCount(j), Literal(Int(1))), Comparison(Eq, Access(j, KindName), kind)];
      }
    }

    /** One column: its guarded projection, and a bound and a flag if it is a string. */
    method Guard(c: Column) returns (projected: Expression, large: seq<Expression>)
      modifies this
      ensures projected == Guarded(c, |old(parameters)|)
      ensures large == if TypeOf(c.property).StringType? then [TooLarge(c, |old(parameters)|)] else []
      ensures parameters == old(parameters) + if TypeOf(c.property).StringType? then [Int(MAX_STRING)] else []
    {
      var x := Access(c.node, c.property);
      var valid := IsTyped(x, TypeOf(c.property));
      if TypeOf(c.property).StringType? {
        var bound := Bind(Int(MAX_STRING));
        large := [Case(valid, Comparison(Gt, Size(x), bound), Literal(Bool(false)))];
        projected := Case(valid, Case(Comparison(Le, Size(x), bound), x, Literal(Null)), Literal(Null));
      } else {
        large := [];
        projected := Case(valid, x, Literal(Null));
      }
    }

    /** Three lists grow together: guarded projections, invalid flags and large flags. */
    method Project(columns: seq<Column>, ghost base: nat)
      returns (projections: seq<Projection>, invalid: seq<Expression>, large: seq<Expression>)
      requires |parameters| == base
      modifies this
      ensures projections == Projections(columns, base) && invalid == InvalidFlags(columns)
      ensures large == LargeFlags(columns, |columns|, base)
      ensures |parameters| == BoundIndex(columns, |columns|, base) && |parameters| >= base
      ensures parameters == old(parameters) + Bounds(|parameters| - base)
    {
      hide Guarded, TooLarge, TypeOf, Projections, InvalidFlags, LargeFlags, BoundIndex, Bounds, Typed;
      projections, invalid, large := [], [], [];
      NoColumns(columns, base);
      for i := 0 to |columns|
        invariant Lists(columns, i, base, projections, invalid, large)
        invariant parameters == old(parameters) + Bounds(BoundCount(columns, i, base))
        invariant |parameters| == BoundIndex(columns, i, base) && |parameters| >= base
      {
        hide Lists;
        NextBound(columns, i, base);
        var projected, flags := Guard(columns[i]);
        NextLists(columns, i, base, projections, invalid, large);
        projections := projections + [Projection.Project(projected)];
        invalid := invalid + [Not(Typed(columns[i]))];
        large := large + flags;
      }
      AllLists(columns, base, projections, invalid, large);
    }

    method CompileQuery(q: Query) returns (st: Statement)
      requires parameters == []
      modifies this
      ensures st == Compile(q)
    {
      hide BoundIndex, Projections, InvalidFlags, LargeFlags, Conditions, Guards, KindValues, PredicateValues;
      KindCount(q);
      var columns := if q.returned.Count? then [] else q.returned.columns;
      var conditions := Terms(q.predicates);
      var guards := Kinds(q);
      var projections, invalid, large := Project(columns, Base(q));
      if q.returned.Count? { projections := [CountRows]; }
      var limit := Bind(Int(q.limit));
      st := Statement(q.kind, q.hop, conditions + guards,
                      projections + [Projection.Project(Either(invalid)), Projection.Project(Either(large))],
                      q.order, limit, parameters);
    }
  }

  lemma KindCount(q: Query)
    ensures |KindValues(q)| == q.Nodes() && |PredicateValues(q.predicates)| == |q.predicates|
  {
  }

  /** How many bounds the first `i` columns need. */
  function BoundCount(columns: seq<Column>, i: nat, base: nat): nat
    requires i <= |columns|
  {
    var n := BoundIndex(columns, i, base) - base;
    if n > 0 then n else 0
  }

  ghost predicate Lists(columns: seq<Column>, i: nat, base: nat, projections: seq<Projection>,
                        invalid: seq<Expression>, large: seq<Expression>)
    requires i <= |columns|
  {
    && projections == Projections(columns, base)[..i] && invalid == InvalidFlags(columns)[..i]
    && large == LargeFlags(columns, i, base)
  }

  lemma NoColumns(columns: seq<Column>, base: nat)
    ensures Lists(columns, 0, base, [], [], []) && BoundIndex(columns, 0, base) == base
    ensures Bounds(BoundCount(columns, 0, base)) == []
  {
  }

  lemma NextBound(columns: seq<Column>, i: nat, base: nat)
    requires i < |columns|
    ensures BoundIndex(columns, i + 1, base)
         == BoundIndex(columns, i, base) + if TypeOf(columns[i].property).StringType? then 1 else 0
    ensures Bounds(BoundCount(columns, i + 1, base))
         == Bounds(BoundCount(columns, i, base))
            + if TypeOf(columns[i].property).StringType? then [Int(MAX_STRING)] else []
  {
    BoundsGrow(columns, i, i, base);
  }

  lemma NextLists(columns: seq<Column>, i: nat, base: nat, projections: seq<Projection>,
                  invalid: seq<Expression>, large: seq<Expression>)
    requires i < |columns| && Lists(columns, i, base, projections, invalid, large)
    ensures var k := BoundIndex(columns, i, base);
      Lists(columns, i + 1, base, projections + [Project(Guarded(columns[i], k))], invalid + [Not(Typed(columns[i]))],
            large + if TypeOf(columns[i].property).StringType? then [TooLarge(columns[i], k)] else [])
  {
    hide Guarded, BoundIndex, TooLarge, Typed, TypeOf;
  }

  lemma AllLists(columns: seq<Column>, base: nat, projections: seq<Projection>, invalid: seq<Expression>,
                 large: seq<Expression>)
    requires Lists(columns, |columns|, base, projections, invalid, large)
    ensures projections == Projections(columns, base) && invalid == InvalidFlags(columns)
    ensures large == LargeFlags(columns, |columns|, base)
  {
    hide LargeFlags, Guarded, Typed;
  }
}
