/** The order of rows is a strict weak order, so a stable sort commutes with leaving rows out. */
module CypherOrder {
  import opened Basics
  import opened CypherRead
  import opened CypherMeaning

  // ---- values are totally ordered

  lemma BeforeOneWay(a: Value, b: Value)
    ensures !(ValueBefore(a, b) && ValueBefore(b, a))
    ensures a != b ==> ValueBefore(a, b) || ValueBefore(b, a)
  {
    if a.Str? && b.Str? {
      PrecedesOneWay(a.text, b.text);
    }
  }

  lemma BeforeBetween(a: Value, b: Value, c: Value)
    requires ValueBefore(a, c)
    ensures ValueBefore(a, b) || ValueBefore(b, c)
  {
    if a.Str? && b.Str? && c.Str? {
      PrecedesBetween(a.text, b.text, c.text);
    }
  }

  // ---- and so rows are weakly ordered by their keys

  lemma {:induction false} RowsOneWay(a: Row, b: Row, keys: seq<Key>)
    ensures !(RowBefore(a, b, keys) && RowBefore(b, a, keys))
  {
    hide ValueBefore;
    if keys != [] {
      var k := keys[0].column;
      if k < |a| && k < |b| {
        BeforeOneWay(a[k], b[k]);
        RowsOneWay(a, b, keys[1..]);
      }
    }
  }

  lemma {:induction false} RowsBetween(a: Row, b: Row, c: Row, keys: seq<Key>, n: nat)
    requires RowBefore(a, c, keys) && KeysBelow(keys, n) && |b| >= n
    ensures RowBefore(a, b, keys) || RowBefore(b, c, keys)
  {
    hide ValueBefore;
    var k := keys[0];
    assert k in keys;
    var x, y, z := a[k.column], b[k.column], c[k.column];
    if x == y == z {
      RowsBetween(a, b, c, keys[1..], n);
    } else if x == z {
      BeforeOneWay(x, y);
    } else if k.descending {
      BeforeBetween(z, y, x);
    } else {
      BeforeBetween(x, y, z);
    }
  }

  // ---- sorting

  /** No row comes strictly before an earlier one. */
  ghost predicate Ascending(rows: seq<Row>, keys: seq<Key>)
    decreases |rows|
  {
    rows != [] ==> (forall r | r in rows[1..] :: !RowBefore(r, rows[0], keys)) && Ascending(rows[1..], keys)
  }

  lemma {:induction false} InsertAscends(row: Row, rows: seq<Row>, keys: seq<Key>, n: nat)
    requires Ascending(rows, keys) && KeysBelow(keys, n) && Wide(rows, n) && |row| >= n
    ensures Ascending(Insert(row, rows, keys), keys)
  {
    hide RowBefore;
    if rows != [] {
      if RowBefore(rows[0], row, keys) {
        InsertAscends(row, rows[1..], keys, n);
        InsertMembers(row, rows[1..], keys);
        RowsOneWay(rows[0], row, keys);
        assert Insert(row, rows, keys)[1..] == Insert(row, rows[1..], keys);
      } else {
        NoneBefore(row, rows, keys, n);
        assert ([row] + rows)[1..] == rows;
      }
    }
  }

  /** Where an ascending list is not before a row, none of the rest is. */
  lemma NoneBefore(row: Row, rows: seq<Row>, keys: seq<Key>, n: nat)
    requires rows != [] && Ascending(rows, keys) && !RowBefore(rows[0], row, keys)
    requires KeysBelow(keys, n) && Wide(rows, n)
    ensures forall r | r in rows :: !RowBefore(r, row, keys)
  {
    hide RowBefore;
    forall r | r in rows ensures !RowBefore(r, row, keys) {
      if RowBefore(r, row, keys) {
        assert rows[0] in rows;
        assert r in rows[1..];
        RowsBetween(r, rows[0], row, keys, n);
      }
    }
  }

  lemma {:induction false} SortAscends(rows: seq<Row>, keys: seq<Key>, n: nat)
    requires KeysBelow(keys, n) && Wide(rows, n)
    ensures Ascending(Sort(rows, keys), keys) && Wide(Sort(rows, keys), n)
  {
    hide RowBefore;
    if rows != [] {
      assert rows[0] in rows;
      SortAscends(rows[1..], keys, n);
      InsertAscends(rows[0], Sort(rows[1..], keys), keys, n);
      InsertMembers(rows[0], Sort(rows[1..], keys), keys);
    }
  }

  lemma {:induction false} InsertNoneBefore(row: Row, rows: seq<Row>, keys: seq<Key>, keep: Row -> bool)
    requires forall r | r in rows :: !RowBefore(r, row, keys)
    ensures Insert(row, Filter(rows, keep), keys) == [row] + Filter(rows, keep)
  {
    hide RowBefore;
    FilterMembers(rows, keep);
    if Filter(rows, keep) != [] {
      assert Filter(rows, keep)[0] in Filter(rows, keep);
    }
  }

  lemma FilterCons(row: Row, rows: seq<Row>, keep: Row -> bool)
    ensures Filter([row] + rows, keep) == if keep(row) then [row] + Filter(rows, keep) else Filter(rows, keep)
  {
    assert ([row] + rows)[1..] == rows;
    assert [] + Filter(rows, keep) == Filter(rows, keep);
  }

  lemma InsertBeyond(row: Row, first: Row, rows: seq<Row>, keys: seq<Key>)
    requires RowBefore(first, row, keys)
    ensures Insert(row, [first] + rows, keys) == [first] + Insert(row, rows, keys)
  {
    assert ([first] + rows)[1..] == rows;
  }

  lemma {:induction false} InsertFiltered(row: Row, rows: seq<Row>, keys: seq<Key>, keep: Row -> bool, n: nat)
    requires Ascending(rows, keys) && KeysBelow(keys, n) && Wide(rows, n) && |row| >= n
    ensures Filter(Insert(row, rows, keys), keep)
         == if keep(row) then Insert(row, Filter(rows, keep), keys) else Filter(rows, keep)
  {
    if rows == [] {
      hide RowBefore;
      FilterCons(row, [], keep);
      assert [row] + [] == [row];
    } else {
      var first, rest := rows[0], rows[1..];
      assert rows == [first] + rest;
      FilterCons(first, rest, keep);
      if RowBefore(first, row, keys) {
        InsertFiltered(row, rest, keys, keep, n);
        InsertBeyond(row, first, rest, keys);
        InsertBeyond(row, first, Filter(rest, keep), keys);
        hide RowBefore, Filter, Insert;
        FilterCons(first, Insert(row, rest, keys), keep);
      } else {
        NoneBefore(row, rows, keys, n);
        InsertNoneBefore(row, rows, keys, keep);
        hide RowBefore, Filter;
        FilterCons(row, rows, keep);
      }
    }
  }

  /** Sorting and leaving out commute. */
  lemma {:induction false} SortFiltered(rows: seq<Row>, keys: seq<Key>, keep: Row -> bool, n: nat)
    requires KeysBelow(keys, n) && Wide(rows, n)
    ensures Filter(Sort(rows, keys), keep) == Sort(Filter(rows, keep), keys)
  {
    hide RowBefore, Insert;
    if rows != [] {
      var first, rest := rows[0], rows[1..];
      assert rows == [first] + rest && first in rows;
      SortFiltered(rest, keys, keep, n);
      SortAscends(rest, keys, n);
      InsertFiltered(first, Sort(rest, keys), keys, keep, n);
      FilterCons(first, rest, keep);
      SortCons(first, Filter(rest, keep), keys);
    }
  }

  lemma SortCons(row: Row, rows: seq<Row>, keys: seq<Key>)
    ensures Sort([row] + rows, keys) == Insert(row, Sort(rows, keys), keys)
  {
    assert ([row] + rows)[1..] == rows;
  }

  lemma {:induction false} SortLength(rows: seq<Row>, keys: seq<Key>)
    ensures |Sort(rows, keys)| == |rows|
  {
    hide RowBefore;
    if rows != [] {
      SortLength(rows[1..], keys);
      InsertLength(rows[0], Sort(rows[1..], keys), keys);
    }
  }

  lemma {:induction false} InsertLength(row: Row, rows: seq<Row>, keys: seq<Key>)
    ensures |Insert(row, rows, keys)| == |rows| + 1
  {
    hide RowBefore;
    if rows != [] {
      InsertLength(row, rows[1..], keys);
    }
  }

  // ---- the first rows of two lists that agree on what is kept

  lemma {:induction false} FilterPrefix(rows: seq<Row>, keep: Row -> bool, k: nat)
    requires k <= |rows| && forall r | r in rows[..k] :: keep(r)
    ensures rows[..k] <= Filter(rows, keep)
  {
    if k > 0 {
      assert rows[0] in rows[..k];
      assert rows[..k] == [rows[0]] + rows[1..][..k - 1];
      assert forall r | r in rows[1..][..k - 1] :: r in rows[..k];
      FilterPrefix(rows[1..], keep, k - 1);
    }
  }

  /** If both lists begin with kept rows only, and agree on the kept rows, they begin alike. */
  lemma SameBeginning(a: seq<Row>, b: seq<Row>, keep: Row -> bool, limit: nat)
    requires |a| == |b| && Filter(a, keep) == Filter(b, keep)
    requires (forall r | r in Take(a, limit) :: keep(r)) && (forall r | r in Take(b, limit) :: keep(r))
    ensures Take(a, limit) == Take(b, limit)
  {
    var k := if |a| <= limit then |a| else limit;
    assert Take(a, limit) == a[..k] && Take(b, limit) == b[..k];
    FilterPrefix(a, keep, k);
    FilterPrefix(b, keep, k);
  }
}
