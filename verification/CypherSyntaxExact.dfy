/** The reader of queries accepts exactly the spellings of the grammar. */
module CypherSyntaxExact {
  import opened Basics
  import opened CypherRead
  import opened CypherSyntax

  /** `ts` is a spelling of `ms` and then `rest`. */
  ghost predicate Begun(ts: Tokens, ms: seq<Mark>, rest: Tokens) {
    |ms| <= |ts| && Spelled(ts[..|ms|], ms) && rest == ts[|ms|..]
  }

  lemma BegunJoins(ts: Tokens, a: seq<Mark>, b: seq<Mark>, rest: Tokens)
    ensures Begun(ts, a + b, rest) <==> |a| <= |ts| && Begun(ts, a, ts[|a|..]) && Begun(ts[|a|..], b, rest)
  {
    var n := |a| + |b|;
    if n <= |ts| {
      assert ts[..n][..|a|] == ts[..|a|] && ts[|a|..][..|b|] == ts[..n][|a|..];
      SpelledJoins(ts[..n], a, b);
    }
  }

  lemma SpelledJoins(ts: Tokens, a: seq<Mark>, b: seq<Mark>)
    ensures Spelled(ts, a + b) <==> |a| <= |ts| && Spelled(ts[..|a|], a) && Spelled(ts[|a|..], b)
  {
    hide Marked;
    var m := a + b;
    if |ts| == |m| {
      assert forall i | 0 <= i < |a| :: m[i] == a[i] && ts[..|a|][i] == ts[i];
      assert forall i | 0 <= i < |b| :: m[|a| + i] == b[i] && ts[|a|..][i] == ts[|a| + i];
      if Spelled(ts, m) {
        forall i | 0 <= i < |b| ensures Marked(ts[|a|..][i], b[i]) {
          assert Marked(ts[|a| + i], m[|a| + i]);
        }
      }
      if Spelled(ts[..|a|], a) && Spelled(ts[|a|..], b) {
        forall i | 0 <= i < |ts| ensures Marked(ts[i], m[i]) {
          if i >= |a| { assert Marked(ts[|a|..][i - |a|], b[i - |a|]); }
          else { assert Marked(ts[..|a|][i], a[i]); }
        }
      }
    }
  }

  lemma SpelledAll(ts: Tokens, ms: seq<Mark>)
    ensures Spelled(ts, ms) <==> Begun(ts, ms, [])
  {
    hide Marked;
    if |ms| <= |ts| && ts[|ms|..] == [] { assert ts[..|ms|] == ts; }
    if Spelled(ts, ms) { assert ts[..|ms|] == ts; }
  }

  lemma SpotExact(ts: Tokens, s: Spot, rest: Tokens)
    ensures ReadSpot(ts) == Some((s, rest)) <==> SpotNamed(s) && Begun(ts, SpotMarks(s), rest)
  {
    hide Upper, FreeName, IsName;
    var ms := SpotMarks(s);
    if |ts| >= 5 {
      assert forall i | 0 <= i < 5 :: ts[..5][i] == ts[i];
      assert Spelled(ts[..5], ms) <==>
             Marked(ts[0], ms[0]) && Marked(ts[1], ms[1]) && Marked(ts[2], ms[2]) && Marked(ts[3], ms[3])
             && Marked(ts[4], ms[4]);
      assert Shaped(ts, SPOT) <==>
             Suits(ts[0], SPOT[0]) && Suits(ts[1], Free) && Suits(ts[2], SPOT[2]) && Suits(ts[3], Free)
             && Suits(ts[4], SPOT[4]);
    }
  }

  lemma ItemExact(ts: Tokens, s: Item, rest: Tokens)
    ensures ReadItem(ts) == Some((s, rest)) <==> ItemNamed(s) && Begun(ts, ItemMarks(s), rest)
  {
    hide Upper, FreeName, IsName;
    var ms := ItemMarks(s);
    if |ts| >= 5 {
      assert forall i | 0 <= i < 5 :: ts[..5][i] == ts[i];
      assert Spelled(ts[..5], ms) <==>
             Marked(ts[0], ms[0]) && Marked(ts[1], ms[1]) && Marked(ts[2], ms[2]) && Marked(ts[3], ms[3])
             && Marked(ts[4], ms[4]);
      assert Shaped(ts, ITEM) <==>
             Suits(ts[0], Free) && Suits(ts[1], ITEM[1]) && Suits(ts[2], Any) && Suits(ts[3], ITEM[3])
             && Suits(ts[4], Free);
    }
  }

  lemma OneMark(ts: Tokens, m: Mark, rest: Tokens)
    ensures Begun(ts, [m], rest) <==> ts != [] && Marked(ts[0], m) && rest == ts[1..]
  {
    hide Upper;
    if ts != [] { assert ts[..1][0] == ts[0]; }
  }

  lemma TwoMarks(ts: Tokens, m: Mark, n: Mark, rest: Tokens)
    ensures Begun(ts, [m, n], rest) <==> |ts| >= 2 && Marked(ts[0], m) && Marked(ts[1], n) && rest == ts[2..]
  {
    hide Upper;
    if |ts| >= 2 { assert ts[..2][0] == ts[0] && ts[..2][1] == ts[1]; }
  }

  lemma OperatorExact(ts: Tokens, op: Operator, rest: Tokens)
    ensures ReadOperator(ts) == Some((op, rest)) <==> Begun(ts, OperatorMarks(op), rest)
  {
    hide Upper, Begun;
    var ms := OperatorMarks(op);
    if op.StartsWith? || op.EndsWith? {
      TwoMarks(ts, ms[0], ms[1], rest);
    } else {
      OneMark(ts, ms[0], rest);
    }
  }

  lemma StepOpens(ts: Tokens, incoming: bool, relation: string)
    ensures FreeName(relation)
            && Begun(ts, StepMarks(Step(incoming, relation, Spot("", "")))[..6], ts[if |ts| >= 6 then 6 else |ts|..])
        <==> Shaped(ts, StepShape(incoming)) && ts[3] == relation
  {
    hide Upper, FreeName, IsName;
    var ms, sh := StepMarks(Step(incoming, relation, Spot("", "")))[..6], StepShape(incoming);
    if |ts| >= 6 {
      assert forall i | 0 <= i < 6 :: ts[..6][i] == ts[i];
      assert Spelled(ts[..6], ms) <==>
             Marked(ts[0], ms[0]) && Marked(ts[1], ms[1]) && Marked(ts[2], ms[2]) && Marked(ts[3], ms[3])
             && Marked(ts[4], ms[4])
             && Marked(ts[5], ms[5]);
      assert Shaped(ts, sh) <==>
             Suits(ts[0], sh[0]) && Suits(ts[1], sh[1]) && Suits(ts[2], sh[2]) && Suits(ts[3], Free)
             && Suits(ts[4], sh[4])
             && Suits(ts[5], sh[5]);
    }
  }

  /** A step is left out only where no arrow or dash stands. */
  lemma StepExact(ts: Tokens, s: Option<Step>, rest: Tokens)
    ensures ReadStep(ts) == Some((s, rest)) <==>
            && (s.Some? ==> StepNamed(s.value)) && Begun(ts, StepPart(s), rest)
            && (s.None? ==> !Peeks(ts, "-") && !Peeks(ts, "<-"))
  {
    hide Upper, FreeName, IsName, Shaped;
    if s.None? {
      assert ts[..0] == [] && ts[0..] == ts;
    } else {
      var v := s.value;
      var open := StepMarks(Step(v.incoming, v.relation, Spot("", "")))[..6];
      assert StepMarks(v) == open + SpotMarks(v.spot);
      BegunJoins(ts, open, SpotMarks(v.spot), rest);
      StepOpens(ts, v.incoming, v.relation);
      if |ts| >= 6 {
        SpotExact(ts[6..], v.spot, rest);
        StepArrow(ts, v.incoming);
      }
      hide Begun, SpotMarks, SpotNamed, ReadSpot;
    }
  }

  lemma StepArrow(ts: Tokens, incoming: bool)
    requires |ts| >= 6
    ensures Shaped(ts, StepShape(incoming)) ==> Peeks(ts, if incoming then "<-" else "-")
    ensures Shaped(ts, StepShape(incoming)) ==> Peeks(ts, "<-") == incoming
  {
    hide Upper, FreeName, IsName;
    assert Shaped(ts, StepShape(incoming)) ==> Suits(ts[0], StepShape(incoming)[0]);
  }

  lemma TermOpens(ts: Tokens, node: string, property: string)
    ensures FreeName(node) && IsName(property)
            && Begun(ts, [Text(node), Word("."), Text(property)], ts[if |ts| >= 3 then 3 else |ts|..])
        <==> Shaped(ts, [Free, Kw("."), Any]) && ts[0] == node && ts[2] == property
  {
    hide Upper, FreeName, IsName;
    var ms, sh := [Text(node), Word("."), Text(property)], [Free, Kw("."), Any];
    if |ts| >= 3 {
      assert forall i | 0 <= i < 3 :: ts[..3][i] == ts[i];
      assert Spelled(ts[..3], ms) <==> Marked(ts[0], ms[0]) && Marked(ts[1], ms[1]) && Marked(ts[2], ms[2]);
      assert Shaped(ts, sh) <==> Suits(ts[0], sh[0]) && Suits(ts[1], sh[1]) && Suits(ts[2], sh[2]);
    }
  }

  lemma ParameterExact(ts: Tokens, parameter: string, rest: Tokens)
    ensures FreeName(parameter) && Begun(ts, [Word("$"), Text(parameter)], rest)
        <==> Shaped(ts, [Kw("$"), Free]) && ts[1] == parameter && rest == ts[2..]
  {
    hide Upper, FreeName, IsName;
    TwoMarks(ts, Word("$"), Text(parameter), rest);
    if |ts| >= 2 {
      assert Shaped(ts, [Kw("$"), Free]) <==> Suits(ts[0], Kw("$")) && Suits(ts[1], Free);
    }
  }

  lemma TermExact(ts: Tokens, t: Term, rest: Tokens)
    ensures ReadTerm(ts) == Some((t, rest)) <==> TermNamed(t) && Begun(ts, TermMarks(t), rest)
  {
    hide Upper, FreeName, IsName, Shaped, Begun, ReadOperator, OperatorMarks;
    var a, b := [Text(t.node), Word("."), Text(t.property)], OperatorMarks(t.operator);
    var c := [Word("$"), Text(t.parameter)];
    assert TermMarks(t) == a + (b + c);
    BegunJoins(ts, a, b + c, rest);
    TermOpens(ts, t.node, t.property);
    if |ts| >= 3 {
      BegunJoins(ts[3..], b, c, rest);
      if |b| <= |ts[3..]| {
        OperatorExact(ts[3..], t.operator, ts[3..][|b|..]);
        ParameterExact(ts[3..][|b|..], t.parameter, rest);
      }
      if ReadOperator(ts[3..]).Some? {
        OperatorExact(ts[3..], ReadOperator(ts[3..]).value.0, ReadOperator(ts[3..]).value.1);
        OperatorRest(ts[3..]);
      }
    }
    ShapedLong(ts, [Free, Kw("."), Any]);
  }

  lemma ShapedLong(ts: Tokens, sh: seq<Shape>)
    ensures Shaped(ts, sh) ==> |sh| <= |ts|
  {
  }

  lemma OperatorRest(ts: Tokens)
    requires ReadOperator(ts).Some?
    ensures var (op, rest) := ReadOperator(ts).value; |OperatorMarks(op)| <= |ts| && rest == ts[|OperatorMarks(op)|..]
  {
    hide Upper;
  }

  lemma OrderingExact(ts: Tokens, o: Ordering, rest: Tokens)
    ensures ReadOrdering(ts) == Some((o, rest)) <==>
            && OrderingNamed(o) && Begun(ts, OrderingMarks(o), rest)
            && (o.direction.Unsaid? ==> !Peeks(rest, "ASC") && !Peeks(rest, "DESC"))
  {
    hide Upper, FreeName, IsName;
    assert Shaped(ts, [Free]) <==> ts != [] && Suits(ts[0], Free);
    match o.direction
    case Unsaid => OneMark(ts, Text(o.column), rest);
    case Ascending => TwoMarks(ts, Text(o.column), Word("ASC"), rest);
    case Descending => TwoMarks(ts, Text(o.column), Word("DESC"), rest);
  }

  // ---- lists

  /** A reader that accepts the spellings of the members it knows, before what may follow them. */
  ghost predicate Exact<T(!new)>(read: Reader<T>, marks: T -> seq<Mark>, known: T -> bool,
                                 follows: (T, Tokens) -> bool)
  {
    forall ts: Tokens, x: T, rest: Tokens ::
      read(ts) == Some((x, rest)) <==> known(x) && Begun(ts, marks(x), rest) && follows(x, rest)
  }

  ghost predicate AllowsSeparator<T(!new)>(separator: string, follows: (T, Tokens) -> bool) {
    forall x: T, rest: Tokens | Peeks(rest, separator) :: follows(x, rest)
  }

  ghost predicate ListBegun<T(!new)>(ts: Tokens, xs: seq<T>, rest: Tokens, marks: T -> seq<Mark>, known: T -> bool,
                                     follows: (T, Tokens) -> bool, separator: string) {
    && xs != [] && (forall x | x in xs :: known(x)) && Begun(ts, Joined(Map(xs, marks), separator), rest)
    && !Peeks(rest, separator) && follows(xs[|xs| - 1], rest)
  }

  lemma JoinedStep<T>(xs: seq<T>, marks: T -> seq<Mark>, separator: string)
    requires |xs| > 1
    ensures Joined(Map(xs, marks), separator)
         == marks(xs[0]) + ([Word(separator)] + Joined(Map(xs[1..], marks), separator))
  {
    assert Map(xs, marks)[1..] == Map(xs[1..], marks);
  }

  lemma JoinedOne<T>(xs: seq<T>, marks: T -> seq<Mark>, separator: string)
    requires |xs| == 1
    ensures Joined(Map(xs, marks), separator) == marks(xs[0])
  {
  }

  /** The rest of a list after its first member. */
  lemma ListOpens<T(!new)>(ts: Tokens, xs: seq<T>, rest: Tokens, marks: T -> seq<Mark>, known: T -> bool,
                           follows: (T, Tokens) -> bool, separator: string)
    requires |xs| > 1
    ensures ListBegun(ts, xs, rest, marks, known, follows, separator) <==>
            && known(xs[0]) && |marks(xs[0])| <= |ts|
            && var mid := ts[|marks(xs[0])|..];
               && Begun(ts, marks(xs[0]), mid) && Peeks(mid, separator)
               && ListBegun(mid[1..], xs[1..], rest, marks, known, follows, separator)
  {
    hide Upper, Begun, Joined, Map;
    var m := marks(xs[0]);
    JoinedStep(xs, marks, separator);
    BegunJoins(ts, m, [Word(separator)] + Joined(Map(xs[1..], marks), separator), rest);
    if |m| <= |ts| {
      var mid := ts[|m|..];
      BegunJoins(mid, [Word(separator)], Joined(Map(xs[1..], marks), separator), rest);
      if mid != [] {
        OneMark(mid, Word(separator), mid[1..]);
      }
    }
    assert xs == [xs[0]] + xs[1..];
    assert xs[1..][|xs| - 2] == xs[|xs| - 1];
  }

  lemma {:induction false} ListExact<T(!new)>(read: Reader<T>, marks: T -> seq<Mark>, known: T -> bool,
      follows: (T, Tokens) -> bool, separator: string, ts: Tokens, room: nat, xs: seq<T>, rest: Tokens)
    requires Exact(read, marks, known, follows) && AllowsSeparator(separator, follows)
    ensures ReadList(read, separator, ts, room) == Some((xs, rest)) <==>
            |xs| <= room && ListBegun(ts, xs, rest, marks, known, follows, separator)
    decreases room
  {
    hide Upper, Begun, Joined, Map;
    if room > 0 && xs != [] {
      var m := marks(xs[0]);
      if |xs| == 1 {
        JoinedOne(xs, marks, separator);
        assert xs == [xs[0]];
        if ReadList(read, separator, ts, room) == Some((xs, rest)) {
          var (x, r) := read(ts).value;
          assert xs == [x] && r == rest;
        }
        assert read(ts) == Some((xs[0], rest)) <==> known(xs[0]) && Begun(ts, m, rest) && follows(xs[0], rest);
      } else {
        ListOpens(ts, xs, rest, marks, known, follows, separator);
        assert xs == [xs[0]] + xs[1..];
        if |m| <= |ts| {
          var mid := ts[|m|..];
          assert read(ts) == Some((xs[0], mid)) <==> known(xs[0]) && Begun(ts, m, mid) && follows(xs[0], mid);
          if mid != [] {
            ListExact(read, marks, known, follows, separator, mid[1..], room - 1, xs[1..], rest);
          }
        }
        BegunLength(read, marks, known, follows, ts);
      }
    }
  }

  lemma BegunLength<T(!new)>(read: Reader<T>, marks: T -> seq<Mark>, known: T -> bool, follows: (T, Tokens) -> bool,
                             ts: Tokens)
    requires Exact(read, marks, known, follows)
    ensures read(ts).Some? ==> |marks(read(ts).value.0)| <= |ts| && read(ts).value.1 == ts[|marks(read(ts).value.0)|..]
  {
    hide Spelled;
    if read(ts).Some? {
      var (x, rest) := read(ts).value;
      assert read(ts) == Some((x, rest));
    }
  }

  // ---- the parts of a query

  predicate Whatever<T>(x: T, rest: Tokens) {
    true
  }

  predicate OrderingFollows(o: Ordering, rest: Tokens) {
    o.direction.Unsaid? ==> !Peeks(rest, "ASC") && !Peeks(rest, "DESC")
  }

  lemma ReadersExact()
    ensures Exact(ReadTerm, TermMarks, TermNamed, Whatever<Term>)
    ensures Exact(ReadItem, ItemMarks, ItemNamed, Whatever<Item>)
    ensures Exact(ReadOrdering, OrderingMarks, OrderingNamed, OrderingFollows)
  {
    hide Begun, ReadTerm, ReadItem, ReadOrdering, TermMarks, ItemMarks, OrderingMarks, TermNamed;
    hide ItemNamed, OrderingNamed;
    forall ts, x, rest
      ensures ReadTerm(ts) == Some((x, rest)) <==> TermNamed(x) && Begun(ts, TermMarks(x), rest) && Whatever(x, rest)
    {
      TermExact(ts, x, rest);
    }
    forall ts, x, rest
      ensures ReadItem(ts) == Some((x, rest)) <==> ItemNamed(x) && Begun(ts, ItemMarks(x), rest) && Whatever(x, rest)
    {
      ItemExact(ts, x, rest);
    }
    forall ts, x, rest
      ensures ReadOrdering(ts) == Some((x, rest)) <==>
              OrderingNamed(x) && Begun(ts, OrderingMarks(x), rest) && OrderingFollows(x, rest)
    {
      OrderingExact(ts, x, rest);
    }
  }

  lemma NoneBegun(ts: Tokens, rest: Tokens)
    ensures Begun(ts, [], rest) <==> rest == ts
  {
    assert ts[0..] == ts && ts[..0] == [];
  }

  lemma TermsExact(ts: Tokens, xs: seq<Term>, rest: Tokens)
    ensures ReadTerms(ts) == Some((xs, rest)) <==>
            && |xs| <= MAX_TERMS && (forall x | x in xs :: TermNamed(x)) && Begun(ts, TermsPart(xs), rest)
            && (if xs == [] then !Peeks(ts, "WHERE") else !Peeks(rest, "AND"))
  {
    hide Upper, Begun, Joined, Map, ReadList, TermNamed, Exact;
    NoneBegun(ts, rest);
    BegunJoins(ts, [Word("WHERE")], Joined(Map(xs, TermMarks), "AND"), rest);
    if ts != [] {
      OneMark(ts, Word("WHERE"), ts[1..]);
      ReadersExact();
      ListExact(ReadTerm, TermMarks, TermNamed, Whatever<Term>, "AND", ts[1..], MAX_TERMS, xs, rest);
    }
  }

  lemma PlacesExact(ts: Tokens, xs: seq<Item>, rest: Tokens)
    ensures ReadList(ReadItem, ",", ts, MAX_TERMS) == Some((xs, rest)) <==>
            && 1 <= |xs| <= MAX_TERMS && (forall x | x in xs :: ItemNamed(x))
            && Begun(ts, Joined(Map(xs, ItemMarks), ","), rest) && !Peeks(rest, ",")
  {
    hide Upper, Begun, Joined, Map, ReadList, ItemNamed, Exact;
    ReadersExact();
    ListExact(ReadItem, ItemMarks, ItemNamed, Whatever<Item>, ",", ts, MAX_TERMS, xs, rest);
  }

  lemma CountExact(ts: Tokens, column: string, rest: Tokens)
    ensures Shaped(ts, COUNTED) && ts[5] == column && rest == ts[6..]
        <==> FreeName(column) && Begun(ts, ItemsPart(CountItem(column)), rest)
    ensures Shaped(ts, COUNTED) ==> Peeks(ts, "COUNT")
  {
    hide Upper, FreeName, IsName;
    var ms := ItemsPart(CountItem(column));
    if |ts| >= 6 {
      assert forall i | 0 <= i < 6 :: ts[..6][i] == ts[i];
      assert Spelled(ts[..6], ms) <==>
             Marked(ts[0], ms[0]) && Marked(ts[1], ms[1]) && Marked(ts[2], ms[2]) && Marked(ts[3], ms[3])
             && Marked(ts[4], ms[4])
             && Marked(ts[5], ms[5]);
      assert Shaped(ts, COUNTED) <==>
             Suits(ts[0], COUNTED[0]) && Suits(ts[1], COUNTED[1]) && Suits(ts[2], COUNTED[2])
             && Suits(ts[3], COUNTED[3])
             && Suits(ts[4], COUNTED[4]) && Suits(ts[5], COUNTED[5]);
    }
  }

  predicate ItemsNamed(items: Items) {
    match items
    case CountItem(c) => FreeName(c)
    case Places(places) => 1 <= |places| <= MAX_TERMS && forall i | i in places :: ItemNamed(i)
  }

  /** A list of columns starts with a free name, so it cannot be taken for a count. */
  lemma PlacesOpen(ts: Tokens, xs: seq<Item>, rest: Tokens)
    requires xs != [] && (forall x | x in xs :: ItemNamed(x)) && Begun(ts, Joined(Map(xs, ItemMarks), ","), rest)
    ensures !Peeks(ts, "COUNT")
  {
    assert xs[0] in xs;
    var ms := Joined(Map(xs, ItemMarks), ",");
    assert |ms| >= 1 && ms[0] == Text(xs[0].node) by {
      if |xs| > 1 { JoinedStep(xs, ItemMarks, ","); } else { JoinedOne(xs, ItemMarks, ","); }
    }
    hide Joined, Map, Upper;
    assert Marked(ts[..|ms|][0], ms[0]);
  }

  lemma ItemsExact(ts: Tokens, items: Items, rest: Tokens)
    ensures ReadItems(ts) == Some((items, rest)) <==>
            && ItemsNamed(items) && Begun(ts, ItemsPart(items), rest) && (items.Places? ==> !Peeks(rest, ","))
  {
    hide Upper, Begun, Joined, Map, ReadList, ItemNamed, FreeName, Shaped;
    match items
    case CountItem(c) =>
      CountExact(ts, c, rest);
      CountShaped(ts);
    case Places(xs) =>
      PlacesExact(ts, xs, rest);
      if xs != [] && (forall x | x in xs :: ItemNamed(x)) && Begun(ts, Joined(Map(xs, ItemMarks), ","), rest) {
        PlacesOpen(ts, xs, rest);
      }
  }

  lemma CountShaped(ts: Tokens)
    ensures Shaped(ts, COUNTED) ==> |ts| >= 6 && Peeks(ts, "COUNT")
  {
    CountExact(ts, "", []);
  }

  lemma OrderExact(ts: Tokens, xs: seq<Ordering>, rest: Tokens)
    ensures ReadOrder(ts) == Some((xs, rest)) <==>
            && |xs| <= MAX_TERMS && (forall x | x in xs :: OrderingNamed(x)) && Begun(ts, OrderPart(xs), rest)
            && (if xs == [] then !Peeks(ts, "ORDER")
                else !Peeks(rest, ",") && OrderingFollows(xs[|xs| - 1], rest))
  {
    hide Upper, Begun, Joined, Map, ReadList, OrderingNamed, Exact, OrderingFollows;
    NoneBegun(ts, rest);
    BegunJoins(ts, [Word("ORDER"), Word("BY")], Joined(Map(xs, OrderingMarks), ","), rest);
    OrderOpens(ts);
    if |ts| >= 2 {
      TwoMarks(ts, Word("ORDER"), Word("BY"), ts[2..]);
      ReadersExact();
      CommaFollows();
      ListExact(ReadOrdering, OrderingMarks, OrderingNamed, OrderingFollows, ",", ts[2..], MAX_TERMS, xs, rest);
    }
  }

  lemma CommaFollows()
    ensures AllowsSeparator(",", OrderingFollows)
  {
    hide Upper;
    assert "," != "ASC" && "," != "DESC" by { assert ","[0] == ',' && "ASC"[0] == 'A' && "DESC"[0] == 'D'; }
  }

  lemma OrderOpens(ts: Tokens)
    ensures Shaped(ts, [Kw("ORDER"), Kw("BY")]) <==> |ts| >= 2 && Upper(ts[0]) == "ORDER" && Upper(ts[1]) == "BY"
  {
    hide Upper;
    var sh := [Kw("ORDER"), Kw("BY")];
    if |ts| >= 2 { assert Shaped(ts, sh) <==> Suits(ts[0], sh[0]) && Suits(ts[1], sh[1]); }
  }

  // ---- the whole

  lemma EndExact(ts: Tokens, limit: string)
    ensures ReadEnd(ts) == Some(limit) <==> IsLimit(limit) && Spelled(ts, EndMarks(limit))
  {
    hide Upper, IsLimit;
    SpelledAll(ts, EndMarks(limit));
    TwoMarks(ts, Word("LIMIT"), Text(limit), []);
  }

  /** The word that a spelling begins with. */
  lemma OpensWith(ts: Tokens, word: string, ms: seq<Mark>)
    requires Spelled(ts, [Word(word)] + ms)
    ensures Peeks(ts, word) && Spelled(ts[1..], ms)
  {
    hide Upper;
    SpelledJoins(ts, [Word(word)], ms);
    assert Marked(ts[..1][0], Word(word));
  }

  lemma WordSpelled(ts: Tokens, word: string, ms: seq<Mark>)
    ensures Spelled(ts, [Word(word)] + ms) <==> ts != [] && Peeks(ts, word) && Spelled(ts[1..], ms)
  {
    hide Upper;
    SpelledJoins(ts, [Word(word)], ms);
    if ts != [] { assert ts[..1][0] == ts[0]; }
    if Spelled(ts, [Word(word)] + ms) { OpensWith(ts, word, ms); }
  }

  lemma OrderOrLimit(ts: Tokens, orderings: seq<Ordering>, limit: string)
    requires Spelled(ts, OrderPart(orderings) + EndMarks(limit))
    ensures if orderings == [] then Peeks(ts, "LIMIT") else Peeks(ts, "ORDER")
  {
    hide Upper, Joined, Map;
    if orderings == [] {
      assert OrderPart(orderings) + EndMarks(limit) == [Word("LIMIT")] + [Text(limit)];
      WordSpelled(ts, "LIMIT", [Text(limit)]);
    } else {
      var ms := [Word("BY")] + Joined(Map(orderings, OrderingMarks), ",") + EndMarks(limit);
      assert OrderPart(orderings) + EndMarks(limit) == [Word("ORDER")] + ms;
      WordSpelled(ts, "ORDER", ms);
    }
  }

  lemma EndOpens(ts: Tokens, limit: string)
    requires Spelled(ts, EndMarks(limit))
    ensures Peeks(ts, "LIMIT")
  {
    assert EndMarks(limit) == [Word("LIMIT")] + [Text(limit)];
    WordSpelled(ts, "LIMIT", [Text(limit)]);
  }

  /** After a part that is spelled out, its reader leaves the rest. */
  lemma PartSpelled(ts: Tokens, part: seq<Mark>, ms: seq<Mark>) returns (rest: Tokens)
    requires Spelled(ts, part + ms)
    ensures Begun(ts, part, rest) && Spelled(rest, ms)
  {
    SpelledJoins(ts, part, ms);
    rest := ts[|part|..];
  }

  lemma PartsJoin(ts: Tokens, part: seq<Mark>, rest: Tokens, ms: seq<Mark>)
    requires Begun(ts, part, rest) && Spelled(rest, ms)
    ensures Spelled(ts, part + ms)
  {
    SpelledJoins(ts, part, ms);
  }

  predicate TailNamed(s: Surface) {
    && ItemsNamed(s.items) && |s.orderings| <= MAX_TERMS && (forall o | o in s.orderings :: OrderingNamed(o))
    && IsLimit(s.limit)
  }

  lemma TailSound(s: Surface, ts: Tokens)
    requires ReadTail(s.first, s.step, s.terms, ts) == Some(s)
    ensures TailNamed(s) && Spelled(ts, TailMarks(s))
  {
    hide Upper, Begun, Spelled, ReadItems, ReadOrder, ReadEnd, ItemsPart, OrderPart, ItemsNamed, OrderingNamed;
    hide EndMarks, IsLimit;
    var r1 := ReadItems(ts[1..]).value.1;
    var r2 := ReadOrder(r1).value.1;
    ItemsExact(ts[1..], s.items, r1);
    OrderExact(r1, s.orderings, r2);
    EndExact(r2, s.limit);
    PartsJoin(r1, OrderPart(s.orderings), r2, EndMarks(s.limit));
    PartsJoin(ts[1..], ItemsPart(s.items), r1, OrderPart(s.orderings) + EndMarks(s.limit));
    WordSpelled(ts, "RETURN", ItemsPart(s.items) + (OrderPart(s.orderings) + EndMarks(s.limit)));
  }

  lemma LimitFollows(o: Ordering, ts: Tokens)
    requires Peeks(ts, "LIMIT")
    ensures OrderingFollows(o, ts) && !Peeks(ts, ",") && !Peeks(ts, "ORDER")
  {
    hide Upper;
    assert "LIMIT"[0] == 'L' && ","[0] == ',' && "ORDER"[0] == 'O' && "ASC"[0] == 'A' && "DESC"[0] == 'D';
  }

  lemma TailComplete(s: Surface, ts: Tokens)
    requires TailNamed(s) && Spelled(ts, TailMarks(s))
    ensures ReadTail(s.first, s.step, s.terms, ts) == Some(s)
  {
    hide Upper, Begun, Spelled, ReadItems, ReadOrder, ReadEnd, ItemsPart, OrderPart, ItemsNamed, OrderingNamed;
    hide EndMarks, IsLimit;
    hide OrderingFollows, Peeks;
    WordSpelled(ts, "RETURN", ItemsPart(s.items) + (OrderPart(s.orderings) + EndMarks(s.limit)));
    var r1 := PartSpelled(ts[1..], ItemsPart(s.items), OrderPart(s.orderings) + EndMarks(s.limit));
    var r2 := PartSpelled(r1, OrderPart(s.orderings), EndMarks(s.limit));
    NoComma(r1, s.orderings, s.limit);
    EndOpens(r2, s.limit);
    ItemsExact(ts[1..], s.items, r1);
    LimitFollows(if s.orderings == [] then Ordering("", Unsaid) else s.orderings[|s.orderings| - 1], r2);
    OrderExact(r1, s.orderings, r2);
    EndExact(r2, s.limit);
  }

  lemma NoComma(ts: Tokens, orderings: seq<Ordering>, limit: string)
    requires Spelled(ts, OrderPart(orderings) + EndMarks(limit))
    ensures !Peeks(ts, ",") && (orderings == [] ==> !Peeks(ts, "ORDER"))
  {
    hide Upper, Spelled, OrderPart, EndMarks;
    OrderOrLimit(ts, orderings, limit);
    assert "LIMIT"[0] == 'L' && ","[0] == ',' && "ORDER"[0] == 'O';
  }

  lemma SurfaceSound(ts: Tokens, s: Surface)
    requires ReadSurface(ts) == Some(s)
    ensures Named(s) && Spelled(ts, Marks(s))
  {
    hide Upper, Begun, Spelled, ReadSpot, ReadStep, ReadTerms, ReadTail, SpotMarks, StepPart, TermsPart, TailMarks;
    hide SpotNamed, StepNamed, TermNamed, TailNamed;
    var r1 := ReadSpot(ts[1..]).value.1;
    var r2 := ReadStep(r1).value.1;
    var r3 := ReadTerms(r2).value.1;
    TailKeeps(s.first, s.step, s.terms, ReadSpot(ts[1..]).value.0, ReadStep(r1).value.0, ReadTerms(r2).value.0, r3, s);
    SpotExact(ts[1..], s.first, r1);
    StepExact(r1, s.step, r2);
    TermsExact(r2, s.terms, r3);
    TailSound(s, r3);
    PartsJoin(r2, TermsPart(s.terms), r3, TailMarks(s));
    PartsJoin(r1, StepPart(s.step), r2, TermsPart(s.terms) + TailMarks(s));
    PartsJoin(ts[1..], SpotMarks(s.first), r1, StepPart(s.step) + (TermsPart(s.terms) + TailMarks(s)));
    WordSpelled(ts, "MATCH", SpotMarks(s.first) + (StepPart(s.step) + (TermsPart(s.terms) + TailMarks(s))));
    NamedParts(s);
  }

  lemma TailKeeps(first: Spot, step: Option<Step>, terms: seq<Term>, a: Spot, b: Option<Step>, c: seq<Term>, ts: Tokens,
                  s: Surface)
    requires ReadTail(a, b, c, ts) == Some(s) && first == s.first && step == s.step && terms == s.terms
    ensures a == first && b == step && c == terms
  {
    hide ReadItems, ReadOrder, ReadEnd;
  }

  lemma NamedParts(s: Surface)
    ensures Named(s) <==> SpotNamed(s.first) && (s.step.Some? ==> StepNamed(s.step.value)) && |s.terms| <= MAX_TERMS
                          && (forall t | t in s.terms :: TermNamed(t)) && TailNamed(s)
  {
    hide SpotNamed, StepNamed, TermNamed, ItemNamed, OrderingNamed, FreeName, IsLimit;
  }

  lemma TailOpens(s: Surface, ts: Tokens)
    requires Spelled(ts, TailMarks(s))
    ensures !Peeks(ts, "AND") && !Peeks(ts, "WHERE") && !Peeks(ts, "-") && !Peeks(ts, "<-")
  {
    hide Upper, Spelled, ItemsPart, OrderPart, EndMarks;
    WordSpelled(ts, "RETURN", ItemsPart(s.items) + (OrderPart(s.orderings) + EndMarks(s.limit)));
    assert "RETURN"[0] == 'R' && "AND"[0] == 'A' && "WHERE"[0] == 'W' && "-"[0] == '-' && "<-"[0] == '<';
  }

  lemma TermsOpen(s: Surface, ts: Tokens)
    requires Spelled(ts, TermsPart(s.terms) + TailMarks(s))
    ensures !Peeks(ts, "-") && !Peeks(ts, "<-") && (s.terms == [] ==> !Peeks(ts, "WHERE"))
  {
    hide Upper, Spelled, TailMarks, Joined, Map;
    if s.terms == [] {
      assert TermsPart(s.terms) + TailMarks(s) == TailMarks(s);
      TailOpens(s, ts);
    } else {
      var ms := Joined(Map(s.terms, TermMarks), "AND") + TailMarks(s);
      assert TermsPart(s.terms) + TailMarks(s) == [Word("WHERE")] + ms;
      WordSpelled(ts, "WHERE", ms);
      assert "WHERE"[0] == 'W' && "-"[0] == '-' && "<-"[0] == '<';
    }
  }

  lemma SurfaceComplete(ts: Tokens, s: Surface)
    requires Named(s) && Spelled(ts, Marks(s))
    ensures ReadSurface(ts) == Some(s)
  {
    hide Upper, Begun, Spelled, ReadSpot, ReadStep, ReadTerms, ReadTail, SpotMarks, StepPart, TermsPart, TailMarks;
    hide SpotNamed, StepNamed, TermNamed, TailNamed, Peeks, Named;
    NamedParts(s);
    WordSpelled(ts, "MATCH", SpotMarks(s.first) + (StepPart(s.step) + (TermsPart(s.terms) + TailMarks(s))));
    var r1 := PartSpelled(ts[1..], SpotMarks(s.first), StepPart(s.step) + (TermsPart(s.terms) + TailMarks(s)));
    var r2 := PartSpelled(r1, StepPart(s.step), TermsPart(s.terms) + TailMarks(s));
    var r3 := PartSpelled(r2, TermsPart(s.terms), TailMarks(s));
    SpotExact(ts[1..], s.first, r1);
    TermsOpen(s, r2);
    NoStep(r1, r2, s.step);
    StepExact(r1, s.step, r2);
    TailOpens(s, r3);
    TermsExact(r2, s.terms, r3);
    TailComplete(s, r3);
  }

  lemma NoStep(ts: Tokens, rest: Tokens, step: Option<Step>)
    requires Begun(ts, StepPart(step), rest)
    ensures step.None? ==> ts == rest
  {
    NoneBegun(ts, rest);
  }

  /** The tokens are read as a query if and only if they are a spelling of it. */
  lemma SurfaceExact(ts: Tokens, s: Surface)
    ensures ReadSurface(ts) == Some(s) <==> Named(s) && Spelled(ts, Marks(s))
  {
    hide ReadSurface, Named, Marks;
    if ReadSurface(ts) == Some(s) { SurfaceSound(ts, s); }
    if Named(s) && Spelled(ts, Marks(s)) { SurfaceComplete(ts, s); }
  }
}
