/** The compiled statement gives the rows of the query, and its flags tell when it cannot. */
module CypherMeaning {
  import opened Basics
  import opened CypherRead

  // ---- lists

  lemma {:induction false} FilterAgrees<T>(xs: seq<T>, f: T -> bool, h: T -> bool)
    requires forall x | x in xs :: f(x) == h(x)
    ensures Filter(xs, f) == Filter(xs, h)
  {
    if xs != [] {
      FilterAgrees(xs[1..], f, h);
    }
  }

  function Both<T>(f: T -> bool, h: T -> bool): T -> bool {
    (x: T) => f(x) && h(x)
  }

  lemma {:induction false} FilterTwice<T>(xs: seq<T>, f: T -> bool, h: T -> bool)
    ensures Filter(Filter(xs, f), h) == Filter(xs, Both(f, h))
  {
    if xs != [] {
      FilterTwice(xs[1..], f, h);
      var rest := Filter(xs[1..], f);
      if f(xs[0]) {
        assert ([xs[0]] + rest)[1..] == rest;
      } else {
        assert Filter(xs, f) == [] + rest == rest;
      }
    }
  }

  lemma {:induction false} FilterAll<T>(xs: seq<T>, f: T -> bool)
    requires forall x | x in xs :: f(x)
    ensures Filter(xs, f) == xs
  {
    if xs != [] {
      FilterAll(xs[1..], f);
    }
  }

  lemma {:induction false} FilterMembers<T>(xs: seq<T>, f: T -> bool)
    ensures forall x | x in Filter(xs, f) :: x in xs && f(x)
  {
    if xs != [] {
      FilterMembers(xs[1..], f);
    }
  }

  // ---- sorting looks at the keys only

  function Drop(row: Row, n: nat): Row {
    if |row| <= n then row else row[..n]
  }

  function DropAll(rows: seq<Row>, n: nat): seq<Row> {
    Map(rows, (row: Row) => Drop(row, n))
  }

  ghost predicate KeysBelow(keys: seq<Key>, n: nat) {
    forall k | k in keys :: k.column < n
  }

  lemma {:induction false} BeforeDropped(a: Row, b: Row, keys: seq<Key>, n: nat)
    requires KeysBelow(keys, n) && |a| >= n && |b| >= n
    ensures RowBefore(Drop(a, n), Drop(b, n), keys) == RowBefore(a, b, keys)
  {
    if keys != [] {
      assert keys[0] in keys;
      BeforeDropped(a, b, keys[1..], n);
    }
  }

  ghost predicate Wide(rows: seq<Row>, n: nat) {
    forall row | row in rows :: |row| >= n
  }

  lemma {:induction false} InsertDropped(row: Row, rows: seq<Row>, keys: seq<Key>, n: nat)
    requires KeysBelow(keys, n) && |row| >= n && Wide(rows, n)
    ensures DropAll(Insert(row, rows, keys), n) == Insert(Drop(row, n), DropAll(rows, n), keys)
    ensures Wide(Insert(row, rows, keys), n)
  {
    if rows != [] {
      assert rows[0] in rows;
      BeforeDropped(rows[0], row, keys, n);
      InsertDropped(row, rows[1..], keys, n);
      assert DropAll(rows, n)[1..] == DropAll(rows[1..], n);
    }
  }

  lemma {:induction false} SortDropped(rows: seq<Row>, keys: seq<Key>, n: nat)
    requires KeysBelow(keys, n) && Wide(rows, n)
    ensures DropAll(Sort(rows, keys), n) == Sort(DropAll(rows, n), keys)
    ensures Wide(Sort(rows, keys), n)
  {
    if rows != [] {
      SortDropped(rows[1..], keys, n);
      assert rows[0] in rows;
      InsertDropped(rows[0], Sort(rows[1..], keys), keys, n);
      assert DropAll(rows, n)[1..] == DropAll(rows[1..], n);
    }
  }

  lemma TakeDropped(rows: seq<Row>, k: nat, n: nat)
    ensures DropAll(Take(rows, k), n) == Take(DropAll(rows, n), k)
  {
  }

  /** Sorting and cutting commute with dropping the columns after the first `n`. */
  lemma ArrangeDropped(rows: seq<Row>, keys: seq<Key>, k: nat, n: nat)
    requires KeysBelow(keys, n) && Wide(rows, n)
    ensures DropAll(Take(Sort(rows, keys), k), n) == Take(Sort(DropAll(rows, n), keys), k)
  {
    SortDropped(rows, keys, n);
    TakeDropped(Sort(rows, keys), k, n);
  }

  // ---- parameters

  function ColumnsOf(q: Query): seq<Column> {
    if q.returned.Count? then [] else q.returned.columns
  }

  function Base(q: Query): nat {
    |q.predicates| + q.Nodes()
  }

  function Strings(q: Query): nat {
    var n := BoundIndex(ColumnsOf(q), |ColumnsOf(q)|, Base(q)) - Base(q);
    if n > 0 then n else 0
  }

  lemma {:induction false} BoundsGrow(columns: seq<Column>, i: nat, j: nat, base: nat)
    requires i <= j <= |columns|
    ensures base <= BoundIndex(columns, i, base) <= BoundIndex(columns, j, base)
    ensures i < j && TypeOf(columns[i].property).StringType? ==>
              BoundIndex(columns, i, base) < BoundIndex(columns, j, base)
    decreases j
  {
    if i < j {
      BoundsGrow(columns, i, j - 1, base);
    } else if i > 0 {
      BoundsGrow(columns, i - 1, i - 1, base);
    }
  }

  lemma ParameterList(q: Query)
    ensures Compile(q).parameters
         == PredicateValues(q.predicates) + KindValues(q) + Bounds(Strings(q)) + [Int(q.limit)]
    ensures |PredicateValues(q.predicates)| == |q.predicates| && |KindValues(q)| == q.Nodes()
    ensures Base(q) + Strings(q) == BoundIndex(ColumnsOf(q), |ColumnsOf(q)|, Base(q))
  {
    BoundsGrow(ColumnsOf(q), 0, |ColumnsOf(q)|, Base(q));
  }

  lemma PredicateParameter(q: Query, i: nat)
    requires i < |q.predicates|
    ensures i < |Compile(q).parameters| && Compile(q).parameters[i] == q.predicates[i].value
  {
    ParameterList(q);
    hide Compile;
  }

  lemma KindParameter(q: Query, j: nat)
    requires j < q.Nodes()
    ensures |q.predicates| + j < |Compile(q).parameters|
    ensures Compile(q).parameters[|q.predicates| + j] == Str(q.KindOf(j))
  {
    ParameterList(q);
    hide Compile;
  }

  lemma BoundParameter(q: Query, i: nat)
    requires i < |ColumnsOf(q)| && TypeOf(ColumnsOf(q)[i].property).StringType?
    ensures var k := BoundIndex(ColumnsOf(q), i, Base(q));
      k < |Compile(q).parameters| && Compile(q).parameters[k] == Int(MAX_STRING)
  {
    ParameterList(q);
    BoundsGrow(ColumnsOf(q), i, |ColumnsOf(q)|, Base(q));
    var k := BoundIndex(ColumnsOf(q), i, Base(q));
    var vs := Bounds(Strings(q));
    hide Compile;
    assert Compile(q).parameters[k] == vs[k - Base(q)];
    assert vs[k - Base(q)] in vs;
  }

  lemma LastParameter(q: Query)
    ensures Base(q) + Strings(q) < |Compile(q).parameters|
    ensures Compile(q).parameters[Base(q) + Strings(q)] == Int(q.limit)
  {
    ParameterList(q);
    hide Compile;
  }

  lemma CompiledLimit(q: Query)
    ensures Compile(q).limit == Parameter(BoundIndex(ColumnsOf(q), |ColumnsOf(q)|, Base(q)))
  {
    hide BoundIndex;
  }

  lemma LimitParameter(q: Query)
    ensures LimitOf(Compile(q)) == q.limit
  {
    hide Compile, Base, Strings, BoundIndex;
    CompiledLimit(q);
    ParameterList(q);
    LastParameter(q);
  }

  // ---- conditions

  /** A node with its label alone, and a kind that says so. */
  predicate StrictNode(n: Node, kind: string) {
    |n.labels| == 1 && n.Get(KindName) == Str(kind)
  }

  predicate Strict(q: Query, b: Binding) {
    |b| == q.Nodes() && forall j | 0 <= j < q.Nodes() :: StrictNode(b[j], q.KindOf(j))
  }

  lemma ConditionValue(q: Query, b: Binding, i: nat)
    requires q.Valid() && |b| == q.Nodes() && i < |q.predicates|
    ensures Eval(Condition(q.predicates[i], i), b, Compile(q).parameters) == Bool(true) <==> Holds(q.predicates[i], b)
  {
    PredicateParameter(q, i);
    assert q.predicates[i] in q.predicates;
    hide Compile, Compare;
  }

  lemma PredicatesHold(q: Query, b: Binding)
    requires q.Valid() && |b| == q.Nodes()
    ensures Satisfied(Conditions(q.predicates), b, Compile(q).parameters) <==> HoldAll(q.predicates, b)
  {
    hide Compile, Eval, Holds, Query.Valid;
    var ps := Compile(q).parameters;
    var es := Conditions(q.predicates);
    forall i | 0 <= i < |es| ensures Eval(es[i], b, ps) == Bool(true) <==> Holds(q.predicates[i], b) {
      ConditionValue(q, b, i);
    }
    if Satisfied(es, b, ps) {
      forall p | p in q.predicates ensures Holds(p, b) {
        var i :| 0 <= i < |q.predicates| && q.predicates[i] == p;
        assert es[i] in es;
      }
    }
    if HoldAll(q.predicates, b) {
      forall e | e in es ensures Eval(e, b, ps) == Bool(true) {
        var i :| 0 <= i < |es| && es[i] == e;
        assert q.predicates[i] in q.predicates;
      }
    }
  }

  lemma GuardPair(q: Query, b: Binding, j: nat)
    requires |b| == q.Nodes() && j < q.Nodes()
    ensures var ps := Compile(q).parameters;
      Eval(Comparison(Eq, LabelCount(j), Literal(Int(1))), b, ps) == Bool(true)
      && Eval(Comparison(Eq, Access(j, KindName), Parameter(|q.predicates| + j)), b, ps) == Bool(true)
      <==> StrictNode(b[j], q.KindOf(j))
  {
    KindParameter(q, j);
    hide Compile;
  }

  lemma SatisfiedBoth(a: seq<Expression>, c: seq<Expression>, b: Binding, ps: seq<Value>)
    ensures Satisfied(a + c, b, ps) <==> Satisfied(a, b, ps) && Satisfied(c, b, ps)
  {
    hide Eval;
    assert forall e | e in a :: e in a + c;
    assert forall e | e in c :: e in a + c;
  }

  lemma SatisfiedPair(x: Expression, y: Expression, b: Binding, ps: seq<Value>)
    ensures Satisfied([x, y], b, ps) <==> Eval(x, b, ps) == Bool(true) && Eval(y, b, ps) == Bool(true)
  {
    hide Eval;
    assert x in [x, y] && y in [x, y];
  }

  function GuardsOf(j: nat, k: nat): seq<Expression> {
    [Comparison(Eq, LabelCount(j), Literal(Int(1))), Comparison(Eq, Access(j, KindName), Parameter(k))]
  }

  lemma GuardsHold(q: Query, b: Binding)
    requires |b| == q.Nodes()
    ensures Satisfied(Guards(q), b, Compile(q).parameters) <==> Strict(q, b)
  {
    var ps, n := Compile(q).parameters, |q.predicates|;
    hide Compile, Eval, StrictNode, Satisfied;
    GuardPair(q, b, 0);
    SatisfiedPair(GuardsOf(0, n)[0], GuardsOf(0, n)[1], b, ps);
    if q.hop.Some? {
      GuardPair(q, b, 1);
      SatisfiedPair(GuardsOf(1, n + 1)[0], GuardsOf(1, n + 1)[1], b, ps);
      assert Guards(q) == GuardsOf(0, n) + GuardsOf(1, n + 1);
      SatisfiedBoth(GuardsOf(0, n), GuardsOf(1, n + 1), b, ps);
      assert Strict(q, b) <==> StrictNode(b[0], q.KindOf(0)) && StrictNode(b[1], q.KindOf(1));
    } else {
      assert Guards(q) == GuardsOf(0, n);
      assert Strict(q, b) <==> StrictNode(b[0], q.KindOf(0));
    }
  }

  lemma BoundLength(q: Query, g: Graph)
    ensures forall b | b in Bindings(g, q.kind, q.hop) :: |b| == q.Nodes()
  {
    if q.hop.None? {
      FilterMembers(Map(g.nodes, BindNode), Fitting([q.kind]));
    } else {
      var h := q.hop.value;
      FilterMembers(Map(Filter(g.relationships, Related(h.relation)), Hopping(h.incoming)), Fitting([q.kind, h.kind]));
    }
  }

  function Stricter(q: Query): Binding -> bool {
    (b: Binding) => Strict(q, b)
  }

  /** The matches whose nodes are strict. */
  function StrictMatches(q: Query, g: Graph): seq<Binding> {
    Filter(Matches(q, g), Stricter(q))
  }

  lemma SatisfiedStrict(q: Query, b: Binding)
    requires q.Valid() && |b| == q.Nodes()
    ensures Satisfied(Compile(q).conditions, b, Compile(q).parameters)
        <==> HoldAll(q.predicates, b) && Strict(q, b)
  {
    assert Compile(q).conditions == Conditions(q.predicates) + Guards(q);
    hide Compile, Satisfied, HoldAll, Strict;
    SatisfiedBoth(Conditions(q.predicates), Guards(q), b, Compile(q).parameters);
    PredicatesHold(q, b);
    GuardsHold(q, b);
  }

  lemma CompiledPattern(q: Query)
    ensures Compile(q).kind == q.kind && Compile(q).hop == q.hop && Compile(q).order == q.order
  {
  }

  /** On any graph the statement finds exactly the strict matches of the query. */
  lemma FoundStrict(q: Query, g: Graph)
    requires q.Valid()
    ensures Found(Compile(q), g) == StrictMatches(q, g)
  {
    var st := Compile(q);
    var bs := Bindings(g, q.kind, q.hop);
    CompiledPattern(q);
    BoundLength(q, g);
    hide Compile, Satisfied, HoldAll, Strict, Bindings, Filter;
    forall b | b in bs
      ensures Satisfying(st.conditions, st.parameters)(b) == Both(Holding(q.predicates), Stricter(q))(b)
    {
      SatisfiedStrict(q, b);
    }
    FilterAgrees(bs, Satisfying(st.conditions, st.parameters), Both(Holding(q.predicates), Stricter(q)));
    FilterTwice(bs, Holding(q.predicates), Stricter(q));
  }

  // ---- cells and flags

  predicate WellTyped(c: Column, b: Binding) {
    HasType(Cell(c, b), TypeOf(c.property))
  }

  predicate TooLong(c: Column, b: Binding) {
    Cell(c, b).Str? && TypeOf(c.property).StringType? && |Cell(c, b).text| > MAX_STRING
  }

  /** What a guarded projection lets through. */
  function Shown(c: Column, b: Binding): Value {
    if WellTyped(c, b) && !TooLong(c, b) then Cell(c, b) else Null
  }

  lemma ShownNull(c: Column, b: Binding)
    ensures Shown(c, b) == Null <==> !WellTyped(c, b) || TooLong(c, b)
  {
  }

  lemma GuardedValue(c: Column, k: nat, b: Binding, ps: seq<Value>)
    requires TypeOf(c.property).StringType? ==> k < |ps| && ps[k] == Int(MAX_STRING)
    ensures Eval(Guarded(c, k), b, ps) == Shown(c, b)
  {
    var x := Access(c.node, c.property);
    assert Eval(x, b, ps) == Cell(c, b);
    assert Eval(Typed(c), b, ps) == Bool(WellTyped(c, b));
    if TypeOf(c.property).StringType? && WellTyped(c, b) {
      assert Eval(Size(x), b, ps) == Int(|Cell(c, b).text|);
      var fits := Comparison(Le, Size(x), Parameter(k));
      assert Eval(fits, b, ps) == Bool(|Cell(c, b).text| <= MAX_STRING);
      assert Eval(Case(fits, x, Literal(Null)), b, ps) == Shown(c, b);
    }
  }

  lemma TooLargeValue(c: Column, k: nat, b: Binding, ps: seq<Value>)
    requires TypeOf(c.property).StringType? && k < |ps| && ps[k] == Int(MAX_STRING)
    ensures Eval(TooLarge(c, k), b, ps) == Bool(TooLong(c, b))
  {
    var x := Access(c.node, c.property);
    assert Eval(x, b, ps) == Cell(c, b);
    assert Eval(Typed(c), b, ps) == Bool(WellTyped(c, b));
    if WellTyped(c, b) {
      assert Eval(Size(x), b, ps) == Int(|Cell(c, b).text|);
      assert Eval(Comparison(Gt, Size(x), Parameter(k)), b, ps) == Bool(|Cell(c, b).text| > MAX_STRING);
    }
  }

  ghost predicate AnyInvalid(columns: seq<Column>, b: Binding) {
    exists i | 0 <= i < |columns| :: !WellTyped(columns[i], b)
  }

  ghost predicate AnyLarge(columns: seq<Column>, n: nat, b: Binding)
    requires n <= |columns|
  {
    exists i | 0 <= i < n :: TooLong(columns[i], b)
  }

  lemma InvalidValue(columns: seq<Column>, b: Binding, ps: seq<Value>)
    ensures Eval(Either(InvalidFlags(columns)), b, ps) == Bool(AnyInvalid(columns, b))
  {
    var es := InvalidFlags(columns);
    forall i | 0 <= i < |es| ensures Eval(es[i], b, ps) == Bool(!WellTyped(columns[i], b)) {
      assert Eval(Typed(columns[i]), b, ps) == Bool(WellTyped(columns[i], b));
    }
    if es != [] {
      var vs := EvalEach(es, b, ps);
      assert Eval(Or(es), b, ps) == OrValues(vs);
      hide Eval, WellTyped;
      if i :| 0 <= i < |columns| && !WellTyped(columns[i], b) {
        assert vs[i] == Bool(true);
      }
    }
  }

  /** The bounds that the columns are compared with. */
  ghost predicate Bounded(columns: seq<Column>, n: nat, base: nat, ps: seq<Value>)
    requires n <= |columns|
  {
    forall i | 0 <= i < n && TypeOf(columns[i].property).StringType? ::
      var k := BoundIndex(columns, i, base); k < |ps| && ps[k] == Int(MAX_STRING)
  }

  lemma {:induction false} LargeValues(columns: seq<Column>, n: nat, base: nat, b: Binding, ps: seq<Value>)
    requires n <= |columns| && Bounded(columns, n, base, ps)
    ensures var vs := EvalEach(LargeFlags(columns, n, base), b, ps);
      (forall v | v in vs :: v.Bool?) && (Bool(true) in vs <==> AnyLarge(columns, n, b))
    decreases n
  {
    if n > 0 {
      LargeValues(columns, n - 1, base, b, ps);
      var before := LargeFlags(columns, n - 1, base);
      var vs := EvalEach(before, b, ps);
      if TypeOf(columns[n - 1].property).StringType? {
        var k := BoundIndex(columns, n - 1, base);
        TooLargeValue(columns[n - 1], k, b, ps);
        hide Eval, TooLong;
        assert EvalEach(LargeFlags(columns, n, base), b, ps) == vs + [Bool(TooLong(columns[n - 1], b))];
      } else {
        assert LargeFlags(columns, n, base) == before;
        assert !TooLong(columns[n - 1], b);
      }
    }
  }

  lemma LargeValue(columns: seq<Column>, base: nat, b: Binding, ps: seq<Value>)
    requires Bounded(columns, |columns|, base, ps)
    ensures Eval(Either(LargeFlags(columns, |columns|, base)), b, ps) == Bool(AnyLarge(columns, |columns|, b))
  {
    var es := LargeFlags(columns, |columns|, base);
    LargeValues(columns, |columns|, base, b, ps);
    if es != [] {
      assert Eval(Or(es), b, ps) == OrValues(EvalEach(es, b, ps));
    } else {
      assert EvalEach(es, b, ps) == [];
    }
  }

  /** The row of a binding in the compiled statement. */
  ghost predicate RowIs(row: Row, columns: seq<Column>, b: Binding) {
    && |row| == |columns| + 2
    && (forall i | 0 <= i < |columns| :: row[i] == Shown(columns[i], b))
    && row[|columns|] == Bool(AnyInvalid(columns, b))
    && row[|columns| + 1] == Bool(AnyLarge(columns, |columns|, b))
  }

  lemma CompiledColumns(q: Query)
    requires q.returned.Columns?
    ensures var columns := q.returned.columns;
      Compile(q).projections == Projections(columns, Base(q))
        + [Project(Either(InvalidFlags(columns))), Project(Either(LargeFlags(columns, |columns|, Base(q))))]
  {
  }

  lemma CompiledBounded(q: Query)
    requires q.returned.Columns?
    ensures Bounded(q.returned.columns, |q.returned.columns|, Base(q), Compile(q).parameters)
  {
    var columns := q.returned.columns;
    hide Compile;
    forall i | 0 <= i < |columns| && TypeOf(columns[i].property).StringType?
      ensures var k := BoundIndex(columns, i, Base(q));
        k < |Compile(q).parameters| && Compile(q).parameters[k] == Int(MAX_STRING)
    {
      BoundParameter(q, i);
    }
  }

  lemma CompiledRow(q: Query, b: Binding)
    requires q.returned.Columns?
    ensures RowIs(ProjectRow(Compile(q).projections, Compile(q).parameters, b, 0), q.returned.columns, b)
  {
    var columns := q.returned.columns;
    var st := Compile(q);
    var row := ProjectRow(st.projections, st.parameters, b, 0);
    CompiledColumns(q);
    CompiledBounded(q);
    hide Compile, Eval, Guarded, Either, InvalidFlags, LargeFlags, Shown, AnyInvalid, AnyLarge, Base;
    forall i | 0 <= i < |columns| ensures row[i] == Shown(columns[i], b) {
      assert st.projections[i] == Project(Guarded(columns[i], BoundIndex(columns, i, Base(q))));
      GuardedValue(columns[i], BoundIndex(columns, i, Base(q)), b, st.parameters);
    }
    InvalidValue(columns, b, st.parameters);
    LargeValue(columns, Base(q), b, st.parameters);
    assert st.projections[|columns|] == Project(Either(InvalidFlags(columns)));
    assert st.projections[|columns| + 1] == Project(Either(LargeFlags(columns, |columns|, Base(q))));
  }

  /** A row has a blank cell if and only if one of its flags is raised. */
  lemma BlankIffFlagged(columns: seq<Column>, b: Binding, row: Row)
    requires RowIs(row, columns, b)
    ensures (exists i | 0 <= i < |columns| :: row[i] == Null)
            <==> row[|columns|] == Bool(true) || row[|columns| + 1] == Bool(true)
  {
    forall i | 0 <= i < |columns| ensures row[i] == Null <==> !WellTyped(columns[i], b) || TooLong(columns[i], b) {
      ShownNull(columns[i], b);
    }
    hide WellTyped, TooLong, Shown;
    if i :| 0 <= i < |columns| && row[i] == Null {
      assert !WellTyped(columns[i], b) || TooLong(columns[i], b);
    }
    if AnyInvalid(columns, b) {
      var i :| 0 <= i < |columns| && !WellTyped(columns[i], b);
      assert row[i] == Null;
    }
    if AnyLarge(columns, |columns|, b) {
      var i :| 0 <= i < |columns| && TooLong(columns[i], b);
      assert row[i] == Null;
    }
  }

  // ---- whole results

  /** Every cell of the row is missing, or of its type and within the bound. */
  ghost predicate Tame(columns: seq<Column>, b: Binding) {
    forall i | 0 <= i < |columns| ::
      Cell(columns[i], b) == Null || (WellTyped(columns[i], b) && !TooLong(columns[i], b))
  }

  lemma DroppedRow(row: Row, columns: seq<Column>, b: Binding)
    requires RowIs(row, columns, b) && Tame(columns, b)
    ensures Drop(row, |columns|) == RowOf(columns, b)
  {
    hide WellTyped, TooLong, AnyInvalid, AnyLarge;
  }

  lemma NotAggregate(q: Query)
    requires q.returned.Columns?
    ensures !Aggregates(Compile(q))
  {
    CompiledColumns(q);
    hide Compile, Either;
  }

  lemma ExecuteColumns(q: Query, g: Graph)
    requires q.Valid() && q.returned.Columns?
    ensures Execute(Compile(q), g)
         == Take(Sort(Map(StrictMatches(q, g), Projecting(Compile(q).projections, Compile(q).parameters)), q.order),
                 q.limit)
  {
    hide Compile, StrictMatches, Found, Sort, Take, LimitOf, Query.Valid;
    NotAggregate(q);
    FoundStrict(q, g);
    LimitParameter(q);
    CompiledPattern(q);
  }

  lemma DroppedRows(q: Query, bs: seq<Binding>)
    requires q.returned.Columns? && forall b | b in bs :: Tame(q.returned.columns, b)
    ensures var rows := Map(bs, Projecting(Compile(q).projections, Compile(q).parameters));
      Wide(rows, |q.returned.columns|) && DropAll(rows, |q.returned.columns|) == Map(bs, Rows(q.returned.columns))
  {
    var rows := Map(bs, Projecting(Compile(q).projections, Compile(q).parameters));
    hide Compile, Tame, RowIs, Map;
    forall i | 0 <= i < |bs|
      ensures |rows[i]| >= |q.returned.columns|
              && Drop(rows[i], |q.returned.columns|) == RowOf(q.returned.columns, bs[i])
    {
      CompiledRow(q, bs[i]);
      DroppedRow(rows[i], q.returned.columns, bs[i]);
      RowWidth(rows[i], q.returned.columns, bs[i]);
    }
    hide Drop, RowOf;
    assert DropAll(rows, |q.returned.columns|) == Map(bs, Rows(q.returned.columns));
  }

  lemma RowWidth(row: Row, columns: seq<Column>, b: Binding)
    requires RowIs(row, columns, b)
    ensures |row| == |columns| + 2
  {
  }

  lemma OrderBelow(q: Query)
    requires q.Valid()
    ensures KeysBelow(q.order, q.Width()) && q.limit >= 1
  {
  }

  /** On any graph: the query's rows over its strict matches, as long as these rows are tame. */
  lemma StrictMeaning(q: Query, g: Graph)
    requires q.Valid() && q.returned.Columns?
    requires forall b | b in StrictMatches(q, g) :: Tame(q.returned.columns, b)
    ensures DropAll(Execute(Compile(q), g), q.Width())
         == Take(Sort(Map(StrictMatches(q, g), Rows(q.returned.columns)), q.order), q.limit)
  {
    hide Compile, StrictMatches, Execute, Sort, Take, Tame, DropAll, Map, Query.Valid, KeysBelow, Wide;
    ExecuteColumns(q, g);
    DroppedRows(q, StrictMatches(q, g));
    OrderBelow(q);
    ArrangeDropped(Map(StrictMatches(q, g), Projecting(Compile(q).projections, Compile(q).parameters)), q.order,
                   q.limit, q.Width());
  }

  // ---- canonical graphs

  predicate CanonicalNode(n: Node) {
    |n.labels| == 1 && forall l | l in n.labels :: n.Get(KindName) == Str(l)
  }

  ghost predicate Canonical(g: Graph) {
    && (forall n | n in g.nodes :: CanonicalNode(n))
    && (forall r | r in g.relationships :: CanonicalNode(r.from) && CanonicalNode(r.to))
  }

  lemma BoundCanonical(q: Query, g: Graph)
    requires Canonical(g)
    ensures forall b | b in Bindings(g, q.kind, q.hop) :: Strict(q, b)
  {
    hide CanonicalNode;
    forall b | b in Bindings(g, q.kind, q.hop) ensures Strict(q, b) {
      if q.hop.None? {
        FilterMembers(Map(g.nodes, BindNode), Fitting([q.kind]));
        assert b[0] in g.nodes;
        FitsStrict(q, b);
      } else {
        var h := q.hop.value;
        var rs := Filter(g.relationships, Related(h.relation));
        FilterMembers(g.relationships, Related(h.relation));
        FilterMembers(Map(rs, Hopping(h.incoming)), Fitting([q.kind, h.kind]));
        var i :| 0 <= i < |rs| && Map(rs, Hopping(h.incoming))[i] == b;
        assert rs[i] in rs;
        FitsStrict(q, b);
      }
    }
  }

  lemma FitsStrict(q: Query, b: Binding)
    requires |b| == q.Nodes() && (forall j | 0 <= j < |b| :: CanonicalNode(b[j]) && q.KindOf(j) in b[j].labels)
    ensures Strict(q, b)
  {
  }

  lemma CanonicalMatches(q: Query, g: Graph)
    requires Canonical(g)
    ensures StrictMatches(q, g) == Matches(q, g)
  {
    hide Strict, Canonical, Bindings, HoldAll;
    BoundCanonical(q, g);
    FilterMembers(Bindings(g, q.kind, q.hop), Holding(q.predicates));
    FilterAll(Matches(q, g), Stricter(q));
  }

  /** On canonical nodes with tame rows, the compiled query without its flags is the query. */
  lemma MeaningPreserved(q: Query, g: Graph)
    requires q.Valid() && q.returned.Columns? && Canonical(g)
    requires forall b | b in Matches(q, g) :: Tame(q.returned.columns, b)
    ensures DropAll(Execute(Compile(q), g), q.Width()) == Meaning(q, g)
  {
    hide Compile, StrictMatches, Matches, Execute, Sort, Take, Tame, DropAll, Map, Canonical, Query.Valid;
    CanonicalMatches(q, g);
    StrictMeaning(q, g);
  }

  // ---- counting

  lemma CompiledCount(q: Query)
    requires q.returned.Count?
    ensures Compile(q).projections
         == [CountRows, Project(Literal(Bool(false))), Project(Literal(Bool(false)))]
  {
  }

  lemma {:induction false} SortOne(row: Row, keys: seq<Key>)
    ensures Sort([row], keys) == [row]
  {
    assert Sort([row][1..], keys) == [];
  }

  lemma ExecuteCount(q: Query, g: Graph)
    requires q.Valid() && q.returned.Count?
    ensures Execute(Compile(q), g)
         == if StrictMatches(q, g) == [] then []
            else [[Int(|StrictMatches(q, g)|), Bool(false), Bool(false)]]
  {
    var st := Compile(q);
    CompiledCount(q);
    FoundStrict(q, g);
    LimitParameter(q);
    CompiledPattern(q);
    OrderBelow(q);
    hide Compile, StrictMatches, Found, LimitOf, Query.Valid, Sort;
    assert CountRows in st.projections;
    var found := Found(st, g);
    if found != [] {
      var row := ProjectRow(st.projections, st.parameters, found[0], |found|);
      assert row == [Int(|found|), Bool(false), Bool(false)];
      SortOne(row, st.order);
    } else {
      SortNone(st.order);
    }
  }

  lemma SortNone(keys: seq<Key>)
    ensures Sort([], keys) == []
  {
  }

  lemma CountRow(q: Query, g: Graph)
    requires q.Valid() && q.returned.Count?
    ensures Meaning(q, g) == [[Int(|Matches(q, g)|)]]
  {
    OrderBelow(q);
    SortOne([Int(|Matches(q, g)|)], q.order);
    hide Query.Valid, Matches, Sort;
  }

  /**
   A count is preserved if and only if there is something to count: the constant flags beside it
   are grouping keys, and without a match there is no group and so no row.
   */
  lemma CountPreservedExactly(q: Query, g: Graph)
    requires q.Valid() && q.returned.Count? && Canonical(g)
    ensures DropAll(Execute(Compile(q), g), 1) == Meaning(q, g) <==> Matches(q, g) != []
  {
    hide Compile, StrictMatches, Matches, Execute, Meaning, Canonical, Query.Valid;
    CanonicalMatches(q, g);
    ExecuteCount(q, g);
    CountRow(q, g);
    var rows := Execute(Compile(q), g);
    if Matches(q, g) != [] {
      assert rows[0][..1] == [Int(|Matches(q, g)|)];
      assert DropAll(rows, 1)[0] == Drop(rows[0], 1);
      assert DropAll(rows, 1) == [[Int(|Matches(q, g)|)]];
    } else {
      assert |DropAll(rows, 1)| == 0;
    }
  }

  /** No nodes at all: the query asks for a zero, and the statement returns no row. */
  lemma EmptyCountLost()
    ensures exists q: Query, g: Graph ::
      q.Valid() && q.returned.Count? && Canonical(g) && DropAll(Execute(Compile(q), g), 1) != Meaning(q, g)
  {
    var q := Query("Task", None, [], Count, [], 10);
    var g := Graph([], []);
    assert Map(g.nodes, BindNode) == [];
    assert Matches(q, g) == [];
    assert q.Valid();
    CountPreservedExactly(q, g);
  }

  // ---- every returned row tells the truth about itself

  lemma {:induction false} InsertMembers(row: Row, rows: seq<Row>, keys: seq<Key>)
    ensures forall r | r in Insert(row, rows, keys) :: r == row || r in rows
  {
    if rows != [] {
      InsertMembers(row, rows[1..], keys);
    }
  }

  lemma {:induction false} SortMembers(rows: seq<Row>, keys: seq<Key>)
    ensures forall r | r in Sort(rows, keys) :: r in rows
  {
    if rows != [] {
      SortMembers(rows[1..], keys);
      InsertMembers(rows[0], Sort(rows[1..], keys), keys);
    }
  }

  /** On any graph, a returned row has a blank cell if and only if a flag of it is raised. */
  lemma FlagsTellTheTruth(q: Query, g: Graph, row: Row)
    requires q.Valid() && q.returned.Columns? && row in Execute(Compile(q), g)
    ensures |row| == q.Width() + 2
    ensures (exists i | 0 <= i < q.Width() :: row[i] == Null)
            <==> row[q.Width()] == Bool(true) || row[q.Width() + 1] == Bool(true)
  {
    hide Compile, Execute, StrictMatches, Query.Valid, RowIs;
    var b := ReturnedRow(q, g, row);
    RowWidth(row, q.returned.columns, b);
    BlankIffFlagged(q.returned.columns, b, row);
  }

  lemma ReturnedRow(q: Query, g: Graph, row: Row) returns (b: Binding)
    requires q.Valid() && q.returned.Columns? && row in Execute(Compile(q), g)
    ensures RowIs(row, q.returned.columns, b)
  {
    var bs := StrictMatches(q, g);
    var rows := Map(bs, Projecting(Compile(q).projections, Compile(q).parameters));
    hide Compile, Execute, StrictMatches, Sort, Query.Valid, RowIs, Map;
    ExecuteColumns(q, g);
    SortMembers(rows, q.order);
    assert row in rows;
    var i :| 0 <= i < |rows| && rows[i] == row;
    CompiledRow(q, bs[i]);
    b := bs[i];
  }

  // ---- the reader of the result

  datatype Delivery = Delivered(rows: seq<Row>) | ResultTooLarge | ResultInvalid

  ghost predicate Unflagged(row: Row, n: nat) {
    |row| == n + 2 && row[n] == Bool(false) && row[n + 1] == Bool(false)
  }

  lemma DropMore(rows: seq<Row>, r: Row, n: nat)
    ensures DropAll(rows + [r], n) == DropAll(rows, n) + [Drop(r, n)]
  {
    var a, b := DropAll(rows + [r], n), DropAll(rows, n) + [Drop(r, n)];
    assert |a| == |b|;
    assert forall i | 0 <= i < |a| :: a[i] == b[i];
  }

  /** Rows are passed on without their flags, and the first raised flag refuses them all. */
  method Deliver(records: seq<Row>, n: nat) returns (d: Delivery)
    requires forall r | r in records :: |r| == n + 2
    ensures d.Delivered? <==> forall r | r in records :: Unflagged(r, n)
    ensures d.Delivered? ==> d.rows == DropAll(records, n)
  {
    var rows := [];
    for i := 0 to |records|
      invariant rows == DropAll(records[..i], n) && forall r | r in records[..i] :: Unflagged(r, n)
    {
      var r := records[i];
      if r[n + 1] != Bool(false) { return ResultTooLarge; }
      if r[n] != Bool(false) { return ResultInvalid; }
      assert records[..i + 1] == records[..i] + [r];
      DropMore(records[..i], r, n);
      rows := rows + [r[..n]];
    }
    assert records[..|records|] == records;
    return Delivered(rows);
  }
}
