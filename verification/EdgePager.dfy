/** Reading an ordered set of edges through pages of one hundred. */
module EdgePager {
  import opened Basics

  /** Identifiers in their order. */
  type Id = int
  type Pair = (Id, Id)

  const PAGE := 100
  const BUDGET := 10000

  predicate Before(a: Pair, b: Pair) {
    a.0 < b.0 || (a.0 == b.0 && a.1 < b.1)
  }

  /** The stored edges in lexicographic order, each once. */
  ghost predicate Sorted(db: seq<Pair>) {
    forall i, j | 0 <= i < j < |db| :: Before(db[i], db[j])
  }

  function Filter(db: seq<Pair>, keep: Pair -> bool): seq<Pair> {
    if db == [] then [] else (if keep(db[0]) then [db[0]] else []) + Filter(db[1..], keep)
  }

  function First(rows: seq<Pair>): seq<Pair> {
    if |rows| <= PAGE then rows else rows[..PAGE]
  }

  function SameSource(source: Id, target: Id): Pair -> bool {
    (p: Pair) => p.0 == source && p.1 > target
  }

  function LaterSource(source: Id): Pair -> bool {
    (p: Pair) => p.0 > source
  }

  lemma {:induction false} FilterJoins(a: seq<Pair>, b: seq<Pair>, keep: Pair -> bool)
    ensures Filter(a + b, keep) == Filter(a, keep) + Filter(b, keep)
  {
    if a == [] {
      assert a + b == b;
    } else {
      assert (a + b)[1..] == a[1..] + b;
      FilterJoins(a[1..], b, keep);
      var x := if keep(a[0]) then [a[0]] else [];
      assert Filter(a + b, keep) == x + (Filter(a[1..], keep) + Filter(b, keep));
    }
  }

  lemma {:induction false} FilterAll(a: seq<Pair>, keep: Pair -> bool)
    requires forall p | p in a :: keep(p)
    ensures Filter(a, keep) == a
  {
    if a != [] { FilterAll(a[1..], keep); }
  }

  lemma {:induction false} FilterNone(a: seq<Pair>, keep: Pair -> bool)
    requires forall p | p in a :: !keep(p)
    ensures Filter(a, keep) == []
  {
    if a != [] { FilterNone(a[1..], keep); }
  }

  /** Where the edges of the source at `n - 1` end. */
  function SourceEnd(db: seq<Pair>, source: Id, n: nat): (m: nat)
    requires n <= |db|
    ensures n <= m <= |db| && (forall i | n <= i < m :: db[i].0 == source) && (m < |db| ==> db[m].0 != source)
    decreases |db| - n
  {
    if n < |db| && db[n].0 == source then SourceEnd(db, source, n + 1) else n
  }

  lemma FilterMiddle(a: seq<Pair>, b: seq<Pair>, c: seq<Pair>, keep: Pair -> bool)
    requires (forall p | p in a :: !keep(p)) && (forall p | p in b :: keep(p)) && (forall p | p in c :: !keep(p))
    ensures Filter(a + b + c, keep) == b
  {
    FilterJoins(a + b, c, keep);
    FilterJoins(a, b, keep);
    FilterNone(a, keep);
    FilterAll(b, keep);
    FilterNone(c, keep);
  }

  lemma FilterEnd(a: seq<Pair>, c: seq<Pair>, keep: Pair -> bool)
    requires (forall p | p in a :: !keep(p)) && (forall p | p in c :: keep(p))
    ensures Filter(a + c, keep) == c
  {
    FilterJoins(a, c, keep);
    FilterNone(a, keep);
    FilterAll(c, keep);
  }

  lemma Parts(db: seq<Pair>, n: nat, m: nat)
    requires Sorted(db) && 0 < n <= m <= |db| && m == SourceEnd(db, db[n - 1].0, n)
    ensures forall p | p in db[..n] :: p == db[n - 1] || Before(p, db[n - 1])
    ensures forall p | p in db[n..m] :: p.0 == db[n - 1].0 && p.1 > db[n - 1].1
    ensures forall p | p in db[m..] :: p.0 > db[n - 1].0
  {
    assert forall i | n <= i < |db| :: Before(db[n - 1], db[i]);
    assert forall i | m <= i < |db| :: i == m || Before(db[m], db[i]);
  }

  lemma SameSourceRows(a: seq<Pair>, b: seq<Pair>, c: seq<Pair>, s: Id, t: Id)
    requires (forall p | p in a :: p == (s, t) || Before(p, (s, t))) && (forall p | p in b :: p.0 == s && p.1 > t)
    requires forall p | p in c :: p.0 > s
    ensures Filter(a + b + c, SameSource(s, t)) == b
  {
    FilterMiddle(a, b, c, SameSource(s, t));
  }

  lemma LaterRows(a: seq<Pair>, b: seq<Pair>, c: seq<Pair>, s: Id, t: Id)
    requires (forall p | p in a :: p == (s, t) || Before(p, (s, t))) && (forall p | p in b :: p.0 == s && p.1 > t)
    requires forall p | p in c :: p.0 > s
    ensures Filter(a + b + c, LaterSource(s)) == c
  {
    assert forall p | p in a + b :: p in a || p in b;
    FilterEnd(a + b, c, LaterSource(s));
  }

  /** What is left after `n` edges: the rest of the last source, then the later sources. */
  lemma PagesSplit(db: seq<Pair>, n: nat, s: Id, t: Id, m: nat)
    requires Sorted(db) && 0 < n <= |db| && db[n - 1] == (s, t) && m == SourceEnd(db, s, n)
    ensures Filter(db, SameSource(s, t)) == db[n..m] && Filter(db, LaterSource(s)) == db[m..]
  {
    hide Sorted, Filter, SourceEnd, Before;
    Parts(db, n, m);
    assert db == db[..n] + db[n..m] + db[m..];
    SameSourceRows(db[..n], db[n..m], db[m..], s, t);
    LaterRows(db[..n], db[n..m], db[m..], s, t);
  }

  datatype Outcome = Edges(pairs: seq<Pair>) | BudgetExceeded

  /** One round: the next page after `n` edges, and whether it came from later sources. */
  method NextPage(db: seq<Pair>, last: Option<Pair>, ghost n: nat) returns (rows: seq<Pair>, remaining: bool)
    requires Sorted(db) && n <= |db| && last == if n == 0 then None else Some(db[n - 1])
    ensures |rows| <= PAGE && n + |rows| <= |db| && rows == db[n..n + |rows|]
    ensures rows == [] ==> n == |db|
    ensures remaining && |rows| < PAGE ==> n + |rows| == |db|
  {
    rows, remaining := [], false;
    if last.Some? {
      PagesSplit(db, n, last.value.0, last.value.1, SourceEnd(db, last.value.0, n));
      rows := First(Filter(db, SameSource(last.value.0, last.value.1)));
    }
    if rows == [] {
      remaining := true;
      rows := First(if last.Some? then Filter(db, LaterSource(last.value.0)) else db);
    }
  }

  /** Every edge once and in order, or the budget error; the two pages always make progress. */
  method ReadEdges(db: seq<Pair>) returns (r: Outcome)
    requires Sorted(db)
    ensures r == if |db| <= BUDGET then Edges(db) else BudgetExceeded
  {
    var edges: seq<Pair> := [];
    var last: Option<Pair> := None;
    while true
      invariant edges <= db && |edges| <= BUDGET
      invariant last == if edges == [] then None else Some(edges[|edges| - 1])
      decreases |db| - |edges|
    {
      assert edges == db[..|edges|];
      var rows, remaining := NextPage(db, last, |edges|);
      if rows == [] { return Edges(edges); }
      var next := rows[|rows| - 1];
      if last.Some? && !Before(last.value, next) {
        assert false; // "pagination did not advance" cannot be raised
      }
      assert edges + rows == db[..|edges| + |rows|];
      edges, last := edges + rows, Some(next);
      if |edges| > BUDGET { return BudgetExceeded; }
      if remaining && |rows| < PAGE { return Edges(edges); }
    }
  }
}
