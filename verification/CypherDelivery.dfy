/** From the query to the rows that are handed out: when an answer without a flag is the right answer. */
module CypherDelivery {
  import opened Basics
  import opened CypherRead
  import opened CypherMeaning
  import opened CypherOrder

  predicate CleanCell(v: Value, t: Type) {
    HasType(v, t) && (v.Str? ==> |v.text| <= MAX_STRING)
  }

  predicate CleanRow(columns: seq<Column>, row: Row) {
    |row| == |columns| && forall i | 0 <= i < |columns| :: CleanCell(row[i], TypeOf(columns[i].property))
  }

  /** Every value is there, of its type and within the bound. */
  function Clean(columns: seq<Column>): Row -> bool {
    (row: Row) => CleanRow(columns, row)
  }

  function ShownRow(columns: seq<Column>, b: Binding): (row: Row)
    ensures |row| == |columns| && forall i | 0 <= i < |columns| :: row[i] == Shown(columns[i], b)
  {
    seq(|columns|, i requires 0 <= i < |columns| => Shown(columns[i], b))
  }

  function ShownRows(columns: seq<Column>): Binding -> Row {
    (b: Binding) => ShownRow(columns, b)
  }

  // ---- clean rows are shown as they are, and no other row is shown clean

  lemma ShownCell(c: Column, b: Binding)
    ensures CleanCell(Shown(c, b), TypeOf(c.property)) <==> CleanCell(Cell(c, b), TypeOf(c.property))
    ensures CleanCell(Cell(c, b), TypeOf(c.property)) ==> Shown(c, b) == Cell(c, b)
  {
  }

  lemma ShownClean(columns: seq<Column>, b: Binding)
    ensures CleanRow(columns, ShownRow(columns, b)) <==> CleanRow(columns, RowOf(columns, b))
    ensures CleanRow(columns, RowOf(columns, b)) ==> ShownRow(columns, b) == RowOf(columns, b)
  {
    hide CleanCell, Shown, Cell, TypeOf;
    forall i | 0 <= i < |columns|
      ensures CleanCell(Shown(columns[i], b), TypeOf(columns[i].property))
          <==> CleanCell(Cell(columns[i], b), TypeOf(columns[i].property))
      ensures CleanCell(Cell(columns[i], b), TypeOf(columns[i].property))
          ==> Shown(columns[i], b) == Cell(columns[i], b)
    {
      ShownCell(columns[i], b);
    }
  }

  lemma {:induction false} SameClean(columns: seq<Column>, bs: seq<Binding>)
    ensures Filter(Map(bs, ShownRows(columns)), Clean(columns)) == Filter(Map(bs, Rows(columns)), Clean(columns))
  {
    hide CleanRow, ShownRow, RowOf;
    if bs != [] {
      SameClean(columns, bs[1..]);
      ShownClean(columns, bs[0]);
      assert Map(bs, ShownRows(columns)) == [ShownRow(columns, bs[0])] + Map(bs[1..], ShownRows(columns));
      assert Map(bs, Rows(columns)) == [RowOf(columns, bs[0])] + Map(bs[1..], Rows(columns));
      FilterCons(ShownRow(columns, bs[0]), Map(bs[1..], ShownRows(columns)), Clean(columns));
      FilterCons(RowOf(columns, bs[0]), Map(bs[1..], Rows(columns)), Clean(columns));
    }
  }

  // ---- what is handed out

  lemma ProjectedShown(q: Query, bs: seq<Binding>)
    requires q.returned.Columns?
    ensures var rows := Map(bs, Projecting(Compile(q).projections, Compile(q).parameters));
      && Wide(rows, |q.returned.columns|)
      && DropAll(rows, |q.returned.columns|) == Map(bs, ShownRows(q.returned.columns))
  {
    var columns := q.returned.columns;
    var rows := Map(bs, Projecting(Compile(q).projections, Compile(q).parameters));
    hide Compile, RowIs, Map, ShownRow;
    forall i | 0 <= i < |bs|
      ensures |rows[i]| >= |columns| && Drop(rows[i], |columns|) == ShownRow(columns, bs[i])
    {
      CompiledRow(q, bs[i]);
      DropsToShown(rows[i], columns, bs[i]);
    }
    hide Drop;
    assert DropAll(rows, |columns|) == Map(bs, ShownRows(columns));
  }

  lemma DropsToShown(row: Row, columns: seq<Column>, b: Binding)
    requires RowIs(row, columns, b)
    ensures |row| >= |columns| && Drop(row, |columns|) == ShownRow(columns, b)
  {
    hide Shown, AnyInvalid, AnyLarge;
  }

  /** On any graph, the compiled rows without flags are the shown rows, ordered by what is shown. */
  lemma ShownMeaning(q: Query, g: Graph)
    requires q.Valid() && q.returned.Columns?
    ensures DropAll(Execute(Compile(q), g), q.Width())
         == Take(Sort(Map(StrictMatches(q, g), ShownRows(q.returned.columns)), q.order), q.limit)
  {
    hide Compile, StrictMatches, Execute, Sort, Take, DropAll, Map, Query.Valid, KeysBelow, Wide, ShownRow;
    ExecuteColumns(q, g);
    ProjectedShown(q, StrictMatches(q, g));
    OrderBelow(q);
    ArrangeDropped(Map(StrictMatches(q, g), Projecting(Compile(q).projections, Compile(q).parameters)), q.order,
                   q.limit, q.Width());
  }

  lemma UnflaggedClean(row: Row, columns: seq<Column>, b: Binding)
    requires RowIs(row, columns, b) && Unflagged(row, |columns|)
    ensures CleanRow(columns, Drop(row, |columns|))
  {
    hide WellTyped, TooLong;
    forall i | 0 <= i < |columns| ensures CleanCell(row[i], TypeOf(columns[i].property)) {
      assert !(!WellTyped(columns[i], b)) && !TooLong(columns[i], b);
      ShownTame(columns[i], b);
    }
  }

  lemma ShownTame(c: Column, b: Binding)
    requires WellTyped(c, b) && !TooLong(c, b)
    ensures CleanCell(Shown(c, b), TypeOf(c.property))
  {
  }

  ghost predicate AllUnflagged(rows: seq<Row>, n: nat) {
    forall r | r in rows :: Unflagged(r, n)
  }

  lemma DeliveredClean(q: Query, g: Graph)
    requires q.Valid() && q.returned.Columns? && AllUnflagged(Execute(Compile(q), g), q.Width())
    ensures forall r | r in DropAll(Execute(Compile(q), g), q.Width()) :: CleanRow(q.returned.columns, r)
  {
    var rows := Execute(Compile(q), g);
    hide Compile, Execute, Query.Valid, RowIs, CleanRow, Drop, Map;
    forall r | r in DropAll(rows, q.Width()) ensures CleanRow(q.returned.columns, r) {
      var i :| 0 <= i < |rows| && DropAll(rows, q.Width())[i] == r;
      assert rows[i] in rows;
      var b := ReturnedRow(q, g, rows[i]);
      UnflaggedClean(rows[i], q.returned.columns, b);
    }
  }

  lemma RowsWide(columns: seq<Column>, bs: seq<Binding>)
    ensures Wide(Map(bs, ShownRows(columns)), |columns|) && Wide(Map(bs, Rows(columns)), |columns|)
  {
  }

  /** Shown and asked-for rows begin alike when both begin with clean rows. */
  lemma CleanBeginnings(columns: seq<Column>, bs: seq<Binding>, keys: seq<Key>, limit: nat)
    requires KeysBelow(keys, |columns|)
    requires forall r | r in Take(Sort(Map(bs, ShownRows(columns)), keys), limit) :: CleanRow(columns, r)
    requires forall r | r in Take(Sort(Map(bs, Rows(columns)), keys), limit) :: CleanRow(columns, r)
    ensures Take(Sort(Map(bs, ShownRows(columns)), keys), limit) == Take(Sort(Map(bs, Rows(columns)), keys), limit)
  {
    hide CleanRow, ShownRow, RowOf, Sort, Take, Filter, Map, KeysBelow, Wide;
    var a, b := Map(bs, ShownRows(columns)), Map(bs, Rows(columns));
    RowsWide(columns, bs);
    SameClean(columns, bs);
    SortFiltered(a, keys, Clean(columns), |columns|);
    SortFiltered(b, keys, Clean(columns), |columns|);
    SortLength(a, keys);
    SortLength(b, keys);
    SameBeginning(Sort(a, keys), Sort(b, keys), Clean(columns), limit);
  }

  /**
   An answer that raises no flag is the answer of the query if and only if every row that the query asks
   for has all its values, of their types and within the bound. Otherwise a blanked value may have sorted
   its row out of the limit, and the flag with it.
   */
  lemma DeliveredExactly(q: Query, g: Graph)
    requires q.Valid() && q.returned.Columns? && Canonical(g)
    requires AllUnflagged(Execute(Compile(q), g), q.Width())
    ensures DropAll(Execute(Compile(q), g), q.Width()) == Meaning(q, g)
        <==> forall r | r in Meaning(q, g) :: CleanRow(q.returned.columns, r)
  {
    hide Compile, Execute, StrictMatches, Matches, Sort, Take, Canonical, Query.Valid, CleanRow, DropAll, AllUnflagged;
    hide Map, KeysBelow;
    CanonicalMatches(q, g);
    ShownMeaning(q, g);
    DeliveredClean(q, g);
    OrderBelow(q);
    if forall r | r in Meaning(q, g) :: CleanRow(q.returned.columns, r) {
      CleanBeginnings(q.returned.columns, Matches(q, g), q.order, q.limit);
    }
  }

  /** The whole way from a query to what is handed out. */
  method Answer(q: Query, g: Graph) returns (d: Delivery)
    requires q.Valid() && q.returned.Columns?
    ensures d.Delivered? <==> AllUnflagged(Execute(Compile(q), g), q.Width())
    ensures d.Delivered? && Canonical(g) ==>
            (d.rows == Meaning(q, g) <==> forall r | r in Meaning(q, g) :: CleanRow(q.returned.columns, r))
  {
    hide Compile, Execute, Canonical, Query.Valid, CleanRow, DropAll, Meaning;
    var records := Execute(Compile(q), g);
    forall r | r in records ensures |r| == q.Width() + 2 {
      FlagsTellTheTruth(q, g, r);
    }
    d := Deliver(records, q.Width());
    if d.Delivered? && Canonical(g) {
      DeliveredExactly(q, g);
    }
  }

  // ---- a long description that is lost without a flag

  function TaskNode(description: string): Node {
    Node({"Task"}, map[KindName := Str("Task"), Description := Str(description)])
  }

  function Tasks(a: string, b: string): Graph {
    Graph([TaskNode(a), TaskNode(b)], [])
  }

  const SHORTEST := Query("Task", None, [], Columns([Column(0, Description)]), [Key(0, false)], 1)

  lemma PairMatches(q: Query, g: Graph, a: Node, b: Node)
    requires q.hop.None? && q.predicates == [] && g.nodes == [a, b]
    requires Fits([a], [q.kind]) && Fits([b], [q.kind])
    ensures Matches(q, g) == [[a], [b]]
  {
    var bs := [[a], [b]];
    assert g.nodes[1..] == [b];
    assert Map(g.nodes, BindNode) == bs;
    hide Map, Fits;
    forall c | c in bs ensures Fits(c, [q.kind]) && HoldAll(q.predicates, c) {
      assert c == bs[0] || c == bs[1];
    }
    hide HoldAll;
    FilterAll(bs, Fitting([q.kind]));
    FilterAll(bs, Holding(q.predicates));
    assert Bindings(g, q.kind, q.hop) == bs;
  }

  lemma TwoMatches(a: string, b: string)
    ensures Matches(SHORTEST, Tasks(a, b)) == [[TaskNode(a)], [TaskNode(b)]]
  {
    hide Matches;
    PairMatches(SHORTEST, Tasks(a, b), TaskNode(a), TaskNode(b));
  }

  lemma TwoSorted(x: Row, y: Row, keys: seq<Key>)
    ensures Sort([x, y], keys) == if RowBefore(y, x, keys) then [y, x] else [x, y]
  {
    hide RowBefore;
    SortOne(y, keys);
    assert [x, y][1..] == [y];
    assert Sort([x, y], keys) == Insert(x, [y], keys);
    assert [y][1..] == [];
  }

  lemma TwoMapped(f: Binding -> Row, a: Binding, b: Binding)
    ensures Map([a, b], f) == [f(a), f(b)]
  {
    assert [a, b][1..] == [b];
  }

  lemma TwoRows(long: string, short: string)
    requires |long| > MAX_STRING >= |short| && Precedes(long, short)
    ensures var columns := SHORTEST.returned.columns;
      var bs := [[TaskNode(long)], [TaskNode(short)]];
      && Take(Sort(Map(bs, Rows(columns)), SHORTEST.order), 1) == [[Str(long)]]
      && Take(Sort(Map(bs, ShownRows(columns)), SHORTEST.order), 1) == [[Str(short)]]
  {
    var columns, keys := SHORTEST.returned.columns, SHORTEST.order;
    var a, b := [TaskNode(long)], [TaskNode(short)];
    TwoMapped(Rows(columns), a, b);
    TwoMapped(ShownRows(columns), a, b);
    assert RowOf(columns, a) == [Str(long)] && RowOf(columns, b) == [Str(short)];
    assert ShownRow(columns, a) == [Null] && ShownRow(columns, b) == [Str(short)];
    TwoSorted([Str(long)], [Str(short)], keys);
    TwoSorted([Null], [Str(short)], keys);
    PrecedesOneWay(long, short);
  }

  lemma ShortestValid(a: string, b: string)
    ensures SHORTEST.Valid() && Canonical(Tasks(a, b))
  {
    assert forall n | n in Tasks(a, b).nodes :: n == TaskNode(a) || n == TaskNode(b);
  }

  lemma OnlyRow(rows: seq<Row>, r: Row, text: string)
    requires DropAll(rows, 1) == [[Str(text)]] && r in rows
    ensures Drop(r, 1) == [Str(text)]
  {
    hide Drop, Map;
    var i :| 0 <= i < |rows| && rows[i] == r;
    assert DropAll(rows, 1)[i] == Drop(r, 1);
  }

  lemma NotBlank(columns: seq<Column>, b: Binding, row: Row, text: string)
    requires |columns| == 1 && RowIs(row, columns, b) && Drop(row, 1) == [Str(text)]
    ensures Unflagged(row, 1)
  {
    BlankIffFlagged(columns, b, row);
    assert row[0] == Drop(row, 1)[0];
  }

  lemma NoneFlagged(q: Query, g: Graph, text: string)
    requires q.Valid() && q.returned.Columns? && q.Width() == 1
    requires DropAll(Execute(Compile(q), g), 1) == [[Str(text)]]
    ensures AllUnflagged(Execute(Compile(q), g), 1)
  {
    hide Compile, Execute, Query.Valid, DropAll, RowIs, Unflagged, Drop;
    var rows := Execute(Compile(q), g);
    forall r | r in rows ensures Unflagged(r, 1) {
      OnlyRow(rows, r, text);
      var b := ReturnedRow(q, g, r);
      NotBlank(q.returned.columns, b, r, text);
    }
  }

  /** Whatever the two descriptions, one over the bound and a later one within it: the later one is handed out. */
  lemma LongerLost(long: string, short: string)
    requires |long| > MAX_STRING >= |short| && Precedes(long, short)
    ensures SHORTEST.Valid() && Canonical(Tasks(long, short))
    ensures AllUnflagged(Execute(Compile(SHORTEST), Tasks(long, short)), 1)
    ensures DropAll(Execute(Compile(SHORTEST), Tasks(long, short)), 1) == [[Str(short)]]
    ensures Meaning(SHORTEST, Tasks(long, short)) == [[Str(long)]]
  {
    hide Compile, Execute, Canonical, Sort, Take, Matches, StrictMatches, Query.Valid, Map, ShownRow, DropAll;
    hide Tasks, Precedes, TaskNode, AllUnflagged;
    var g := Tasks(long, short);
    ShortestValid(long, short);
    TwoMatches(long, short);
    TwoRows(long, short);
    CanonicalMatches(SHORTEST, g);
    ShownMeaning(SHORTEST, g);
    NoneFlagged(SHORTEST, g, short);
  }

  const LONG := seq(MAX_STRING + 1, _ => 'a')

  /** One description just over the bound, and the description "b". */
  lemma LongValueLost()
    ensures AllUnflagged(Execute(Compile(SHORTEST), Tasks(LONG, "b")), 1)
    ensures DropAll(Execute(Compile(SHORTEST), Tasks(LONG, "b")), 1) != Meaning(SHORTEST, Tasks(LONG, "b"))
  {
    hide Compile, Execute, Meaning, Tasks, DropAll, AllUnflagged, Canonical, Query.Valid;
    assert LONG[0] == 'a';
    assert Precedes(LONG, "b");
    LongerLost(LONG, "b");
    assert |LONG| != |"b"|;
  }
}
