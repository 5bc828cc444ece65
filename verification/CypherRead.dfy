/**
 The closed read language: what a query means, what it is compiled to, and what the compiled
 statement means. Both run over the same graph of nodes and relationships.
 */
module CypherRead {
  import opened Basics

  // ---- the graph

  datatype Value = Null | Str(text: string) | Int(number: int) | Bool(flag: bool) | Foreign(tag: nat)

  datatype Type = StringType | IntegerType | BooleanType

  datatype Property =
    | Id | KindName | Title | Description | Status | CreatedAt | UpdatedAt | Version | Priority | Archived

  function TypeOf(p: Property): Type {
    match p
    case Version => IntegerType
    case Priority => IntegerType
    case Archived => BooleanType
    case _ => StringType
  }

  datatype Node = Node(labels: set<string>, properties: map<Property, Value>) {
    function Get(p: Property): Value {
      if p in properties then properties[p] else Null
    }
  }

  datatype Relationship = Relationship(kind: string, from: Node, to: Node)

  datatype Graph = Graph(nodes: seq<Node>, relationships: seq<Relationship>)

  const MAX_STRING := 16384
  const MAX_TERMS := 16
  const MAX_ROWS := 100

  predicate PublicKind(k: string) {
    k in {"Proposal", "Initiative", "Project", "Issue", "Task"}
  }

  predicate PublicRelation(k: string) {
    k in {"HAS_CHILD", "DEPENDS_ON", "BLOCKS"}
  }

  // ---- operators, with null for unknown

  datatype Operator = Eq | Ne | Lt | Le | Gt | Ge | Contains | StartsWith | EndsWith

  predicate Ordered(op: Operator, less: bool, equal: bool)
    requires op in {Lt, Le, Gt, Ge}
  {
    match op
    case Lt => less
    case Le => less || equal
    case Gt => !less && !equal
    case Ge => !less
  }

  function Truth(b: bool): Value {
    Bool(b)
  }

  function Compare(op: Operator, a: Value, b: Value): Value {
    if a.Null? || b.Null? then Null
    else
      match op
      case Eq => Truth(a == b)
      case Ne => Truth(a != b)
      case Contains => if a.Str? && b.Str? then Truth(Occurs(a.text, b.text)) else Null
      case StartsWith => if a.Str? && b.Str? then Truth(b.text <= a.text) else Null
      case EndsWith =>
        if a.Str? && b.Str? then Truth(|b.text| <= |a.text| && a.text[|a.text| - |b.text|..] == b.text) else Null
      case _ =>
        if a.Str? && b.Str? then Truth(Ordered(op, Precedes(a.text, b.text), a == b))
        else if a.Int? && b.Int? then Truth(Ordered(op, a.number < b.number, a == b))
        else Null
  }

  predicate Occurs(a: string, b: string) {
    b <= a || (a != [] && Occurs(a[1..], b))
  }

  predicate HasType(v: Value, t: Type) {
    match t
    case StringType => v.Str?
    case IntegerType => v.Int?
    case BooleanType => v.Bool?
  }

  // ---- queries

  datatype Hop = Hop(incoming: bool, relation: string, kind: string)

  /** `node` is 0 or 1: the first or the second node of the pattern. */
  datatype Predicate = Predicate(node: nat, property: Property, operator: Operator, value: Value)

  datatype Column = Column(node: nat, property: Property)

  datatype Returned = Count | Columns(columns: seq<Column>)

  datatype Key = Key(column: nat, descending: bool)

  datatype Query = Query(
    kind: string,
    hop: Option<Hop>,
    predicates: seq<Predicate>,
    returned: Returned,
    order: seq<Key>,
    limit: nat)
  {
    function Nodes(): nat {
      if hop.Some? then 2 else 1
    }

    function Width(): nat {
      if returned.Count? then 1 else |returned.columns|
    }

    predicate Valid() {
      && PublicKind(kind) && (hop.Some? ==> PublicKind(hop.value.kind) && PublicRelation(hop.value.relation))
      && |predicates| <= MAX_TERMS
      && (forall p | p in predicates :: p.node < Nodes() && HasType(p.value, TypeOf(p.property)))
      && 1 <= Width() <= MAX_TERMS
      && (returned.Columns? ==> forall c | c in returned.columns :: c.node < Nodes())
      && |order| <= MAX_TERMS && (forall k | k in order :: k.column < Width())
      && 1 <= limit <= MAX_ROWS
    }

    function KindOf(i: nat): string
      requires i < Nodes()
    {
      if i == 0 then kind else hop.value.kind
    }
  }

  // ---- the meaning of a query

  type Binding = seq<Node>
  type Row = seq<Value>

  function Filter<T>(xs: seq<T>, keep: T -> bool): seq<T> {
    if xs == [] then [] else (if keep(xs[0]) then [xs[0]] else []) + Filter(xs[1..], keep)
  }

  function Map<T, U>(xs: seq<T>, f: T -> U): (ys: seq<U>)
    ensures |ys| == |xs| && forall i | 0 <= i < |xs| :: ys[i] == f(xs[i])
  {
    if xs == [] then [] else [f(xs[0])] + Map(xs[1..], f)
  }

  function BindNode(n: Node): Binding {
    [n]
  }

  function BindHop(r: Relationship, incoming: bool): Binding {
    if incoming then [r.to, r.from] else [r.from, r.to]
  }

  predicate Fits(b: Binding, kinds: seq<string>) {
    |b| == |kinds| && forall i | 0 <= i < |kinds| :: kinds[i] in b[i].labels
  }

  function Fitting(kinds: seq<string>): Binding -> bool {
    (b: Binding) => Fits(b, kinds)
  }

  function Related(relation: string): Relationship -> bool {
    (r: Relationship) => r.kind == relation
  }

  function Hopping(incoming: bool): Relationship -> Binding {
    (r: Relationship) => BindHop(r, incoming)
  }

  /** The bindings of a pattern, in the order of the graph. */
  function Bindings(g: Graph, kind: string, hop: Option<Hop>): seq<Binding> {
    if hop.None? then Filter(Map(g.nodes, BindNode), Fitting([kind]))
    else
      Filter(Map(Filter(g.relationships, Related(hop.value.relation)), Hopping(hop.value.incoming)),
             Fitting([kind, hop.value.kind]))
  }

  predicate Holds(p: Predicate, b: Binding) {
    p.node < |b| && Compare(p.operator, b[p.node].Get(p.property), p.value) == Bool(true)
  }

  predicate HoldAll(ps: seq<Predicate>, b: Binding) {
    forall p | p in ps :: Holds(p, b)
  }

  function Holding(ps: seq<Predicate>): Binding -> bool {
    (b: Binding) => HoldAll(ps, b)
  }

  function Matches(q: Query, g: Graph): seq<Binding> {
    Filter(Bindings(g, q.kind, q.hop), Holding(q.predicates))
  }

  function Cell(c: Column, b: Binding): Value {
    if c.node < |b| then b[c.node].Get(c.property) else Null
  }

  function RowOf(columns: seq<Column>, b: Binding): (row: Row)
    ensures |row| == |columns| && forall i | 0 <= i < |columns| :: row[i] == Cell(columns[i], b)
  {
    seq(|columns|, i requires 0 <= i < |columns| => Cell(columns[i], b))
  }

  function Rows(columns: seq<Column>): Binding -> Row {
    (b: Binding) => RowOf(columns, b)
  }

  /** Ascending puts null last. */
  function Rank(v: Value): int {
    match v
    case Str(_) => 0
    case Bool(_) => 1
    case Int(_) => 2
    case Foreign(_) => 3
    case Null => 4
  }

  predicate ValueBefore(a: Value, b: Value) {
    if Rank(a) != Rank(b) then Rank(a) < Rank(b)
    else
      match a
      case Str(s) => Precedes(s, b.text)
      case Bool(x) => !x && b.flag
      case Int(n) => n < b.number
      case Foreign(t) => t < b.tag
      case Null => false
  }

  /** `a` comes strictly before `b` under the keys. */
  predicate RowBefore(a: Row, b: Row, keys: seq<Key>) {
    keys != []
    && var k := keys[0];
       k.column < |a| && k.column < |b|
       && (var x, y := a[k.column], b[k.column];
           if x == y then RowBefore(a, b, keys[1..])
           else if k.descending then ValueBefore(y, x)
           else ValueBefore(x, y))
  }

  function Insert(row: Row, rows: seq<Row>, keys: seq<Key>): seq<Row> {
    if rows == [] then [row]
    else if RowBefore(rows[0], row, keys) then [rows[0]] + Insert(row, rows[1..], keys)
    else [row] + rows
  }

  /** A stable sort. */
  function Sort(rows: seq<Row>, keys: seq<Key>): seq<Row> {
    if rows == [] then [] else Insert(rows[0], Sort(rows[1..], keys), keys)
  }

  function Take(rows: seq<Row>, n: nat): seq<Row> {
    if |rows| <= n then rows else rows[..n]
  }

  /** The rows that the query asks for. */
  function Meaning(q: Query, g: Graph): seq<Row> {
    var rows := if q.returned.Count? then [[Int(|Matches(q, g)|)]]
                else Map(Matches(q, g), Rows(q.returned.columns));
    Take(Sort(rows, q.order), q.limit)
  }

  // ---- the compiled statement

  datatype Expression =
    | Literal(value: Value)
    | Parameter(index: nat)
    | Access(node: nat, property: Property)
    | LabelCount(node: nat)
    | Comparison(operator: Operator, left: Expression, right: Expression)
    | IsTyped(operand: Expression, of: Type)
    | Not(operand: Expression)
    | Or(operands: seq<Expression>)
    | Size(operand: Expression)
    | Case(condition: Expression, whenTrue: Expression, otherwise: Expression)

  datatype Projection = CountRows | Project(expression: Expression)

  datatype Statement = Statement(
    kind: string,
    hop: Option<Hop>,
    conditions: seq<Expression>,
    projections: seq<Projection>,
    order: seq<Key>,
    limit: Expression,
    parameters: seq<Value>)

  function OrValues(vs: seq<Value>): Value {
    if Bool(true) in vs then Bool(true) else if Null in vs then Null else Bool(false)
  }

  function Eval(e: Expression, b: Binding, ps: seq<Value>): Value
    decreases e
  {
    match e
    case Literal(v) => v
    case Parameter(i) => if i < |ps| then ps[i] else Null
    case Access(n, p) => if n < |b| then b[n].Get(p) else Null
    case LabelCount(n) => if n < |b| then Int(|b[n].labels|) else Null
    case Comparison(op, l, r) => Compare(op, Eval(l, b, ps), Eval(r, b, ps))
    case IsTyped(x, t) => Bool(HasType(Eval(x, b, ps), t))
    case Not(x) => var v := Eval(x, b, ps); if v.Bool? then Bool(!v.flag) else Null
    case Or(xs) => OrValues(EvalEach(xs, b, ps))
    case Size(x) => var v := Eval(x, b, ps); if v.Str? then Int(|v.text|) else Null
    case Case(c, t, o) => if Eval(c, b, ps) == Bool(true) then Eval(t, b, ps) else Eval(o, b, ps)
  }

  function EvalEach(es: seq<Expression>, b: Binding, ps: seq<Value>): (vs: seq<Value>)
    ensures |vs| == |es| && forall i | 0 <= i < |es| :: vs[i] == Eval(es[i], b, ps)
    decreases es
  {
    if es == [] then [] else [Eval(es[0], b, ps)] + EvalEach(es[1..], b, ps)
  }

  predicate Satisfied(conditions: seq<Expression>, b: Binding, ps: seq<Value>) {
    forall e | e in conditions :: Eval(e, b, ps) == Bool(true)
  }

  function Satisfying(conditions: seq<Expression>, ps: seq<Value>): Binding -> bool {
    (b: Binding) => Satisfied(conditions, b, ps)
  }

  function Found(st: Statement, g: Graph): seq<Binding> {
    Filter(Bindings(g, st.kind, st.hop), Satisfying(st.conditions, st.parameters))
  }

  predicate Aggregates(st: Statement) {
    CountRows in st.projections
  }

  function Projected(p: Projection, b: Binding, count: nat, ps: seq<Value>): Value {
    match p
    case CountRows => Int(count)
    case Project(e) => Eval(e, b, ps)
  }

  function ProjectRow(ps: seq<Projection>, vs: seq<Value>, b: Binding, count: nat): (row: Row)
    ensures |row| == |ps| && forall i | 0 <= i < |ps| :: row[i] == Projected(ps[i], b, count, vs)
  {
    seq(|ps|, i requires 0 <= i < |ps| => Projected(ps[i], b, count, vs))
  }

  function Projecting(ps: seq<Projection>, vs: seq<Value>): Binding -> Row {
    (b: Binding) => ProjectRow(ps, vs, b, 0)
  }

  /** Projections beside a count are grouping keys; the compiled ones are constant, so there is one group at most. */
  function Groups(st: Statement, found: seq<Binding>): seq<Row> {
    if found == [] then [] else [ProjectRow(st.projections, st.parameters, found[0], |found|)]
  }

  function LimitOf(st: Statement): nat {
    var v := Eval(st.limit, [], st.parameters);
    if v.Int? && v.number >= 0 then v.number else 0
  }

  function Execute(st: Statement, g: Graph): seq<Row> {
    var found := Found(st, g);
    var rows := if Aggregates(st) then Groups(st, found)
                else Map(found, Projecting(st.projections, st.parameters));
    Take(Sort(rows, st.order), LimitOf(st))
  }

  // ---- the compiler

  function Condition(p: Predicate, i: nat): Expression {
    Comparison(p.operator, Access(p.node, p.property), Parameter(i))
  }

  function Conditions(ps: seq<Predicate>): (es: seq<Expression>)
    ensures |es| == |ps| && forall i | 0 <= i < |ps| :: es[i] == Condition(ps[i], i)
  {
    seq(|ps|, i requires 0 <= i < |ps| => Condition(ps[i], i))
  }

  function PredicateValues(ps: seq<Predicate>): seq<Value> {
    Map(ps, (p: Predicate) => p.value)
  }

  /** Every node must have its label alone, and say so in its kind. */
  function Guards(q: Query): seq<Expression> {
    var n := |q.predicates|;
    [Comparison(Eq, LabelCount(0), Literal(Int(1))), Comparison(Eq, Access(0, KindName), Parameter(n))]
    + if q.hop.None? then []
      else [Comparison(Eq, LabelCount(1), Literal(Int(1))), Comparison(Eq, Access(1, KindName), Parameter(n + 1))]
  }

  function KindValues(q: Query): seq<Value> {
    [Str(q.kind)] + if q.hop.None? then [] else [Str(q.hop.value.kind)]
  }

  function Typed(c: Column): Expression {
    IsTyped(Access(c.node, c.property), TypeOf(c.property))
  }

  /** The guarded projection of a column; a string is checked against the bound in parameter `k`. */
  function Guarded(c: Column, k: nat): Expression {
    var x := Access(c.node, c.property);
    if TypeOf(c.property).StringType? then
      Case(Typed(c), Case(Comparison(Le, Size(x), Parameter(k)), x, Literal(Null)), Literal(Null))
    else Case(Typed(c), x, Literal(Null))
  }

  function TooLarge(c: Column, k: nat): Expression {
    Case(Typed(c), Comparison(Gt, Size(Access(c.node, c.property)), Parameter(k)), Literal(Bool(false)))
  }

  /** The parameter that holds the bound of column `i`, when `base` are bound before the columns. */
  function BoundIndex(columns: seq<Column>, i: nat, base: nat): nat
    requires i <= |columns|
  {
    if i == 0 then base
    else BoundIndex(columns, i - 1, base) + if TypeOf(columns[i - 1].property).StringType? then 1 else 0
  }

  function Projections(columns: seq<Column>, base: nat): (ps: seq<Projection>)
    ensures |ps| == |columns|
    ensures forall i | 0 <= i < |columns| :: ps[i] == Project(Guarded(columns[i], BoundIndex(columns, i, base)))
  {
    seq(|columns|, i requires 0 <= i < |columns| => Project(Guarded(columns[i], BoundIndex(columns, i, base))))
  }

  function InvalidFlags(columns: seq<Column>): (es: seq<Expression>)
    ensures |es| == |columns| && forall i | 0 <= i < |columns| :: es[i] == Not(Typed(columns[i]))
  {
    seq(|columns|, i requires 0 <= i < |columns| => Not(Typed(columns[i])))
  }

  function LargeFlags(columns: seq<Column>, n: nat, base: nat): seq<Expression>
    requires n <= |columns|
  {
    if n == 0 then []
    else LargeFlags(columns, n - 1, base)
         + if TypeOf(columns[n - 1].property).StringType?
           then [TooLarge(columns[n - 1], BoundIndex(columns, n - 1, base))] else []
  }

  /** An empty disjunction is written as false. */
  function Either(es: seq<Expression>): Expression {
    if es == [] then Literal(Bool(false)) else Or(es)
  }

  function Bounds(n: nat): (vs: seq<Value>)
    ensures |vs| == n && forall v | v in vs :: v == Int(MAX_STRING)
  {
    seq(n, _ => Int(MAX_STRING))
  }

  function Compile(q: Query): Statement {
    var columns := if q.returned.Count? then [] else q.returned.columns;
    var base := |q.predicates| + q.Nodes();
    var strings := BoundIndex(columns, |columns|, base) - base;
    Statement(
      q.kind, q.hop,
      Conditions(q.predicates) + Guards(q),
      (if q.returned.Count? then [CountRows] else Projections(columns, base))
      + [Project(Either(InvalidFlags(columns))), Project(Either(LargeFlags(columns, |columns|, base)))],
      q.order,
      Parameter(BoundIndex(columns, |columns|, base)),
      PredicateValues(q.predicates) + KindValues(q) + Bounds(if strings > 0 then strings else 0) + [Int(q.limit)])
  }
}
