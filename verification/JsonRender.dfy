/** Canonical JSON: which values have a text, and that the reader returns what was written. */
module JsonRender {
  import opened Basics
  import opened JsonGrammar
  import opened JsonExact

  /** An encoder of strings that the decoder undoes. */
  ghost predicate Codec(c: Config, encode: string -> Bytes) {
    forall s: string :: IsToken(encode(s)) && c.decode(encode(s)) == Some(s)
  }

  /** Integers in range, nested no deeper than `d`. */
  predicate Writable(v: Value, d: nat)
    decreases v
  {
    match v
    case Number(n) => MIN_I64 <= n <= MAX_U64
    case List(items) => items == [] || (d > 0 && forall i | 0 <= i < |items| :: Writable(items[i], d - 1))
    case Object(members) => members == map[] || (d > 0 && forall k | k in members :: Writable(members[k], d - 1))
    case _ => true
  }

  // ---- numbers

  function Decimal(n: nat): Bytes {
    if n < 10 then [48 + n] else Decimal(n / 10) + [48 + n % 10]
  }

  lemma {:induction false} DecimalExact(n: nat)
    ensures Decimal(n) != [] && (forall d | d in Decimal(n) :: IsDigit(d))
    ensures DigitsValue(Decimal(n)) == n && (n > 0 ==> Decimal(n)[0] != 48) && (n == 0 ==> |Decimal(n)| == 1)
  {
    if n < 10 {
      assert [48 + n][..0] == [];
    } else {
      DecimalExact(n / 10);
      var ds := Decimal(n);
      assert ds[..|ds| - 1] == Decimal(n / 10);
    }
  }

  lemma NumberWritten(n: int)
    requires MIN_I64 <= n <= MAX_U64
    ensures IsNumber(n < 0, Decimal(if n < 0 then -n else n))
    ensures DigitsValue(Decimal(if n < 0 then -n else n)) == if n < 0 then -n else n
  {
    hide DigitsValue, Decimal;
    DecimalExact(if n < 0 then -n else n);
  }

  // ---- the tree of a value

  ghost predicate IsLeast(k: string, ks: set<string>) {
    k in ks && forall j | j in ks && j != k :: Precedes(k, j)
  }

  lemma {:induction false} HasLeast(ks: set<string>)
    requires ks != {}
    ensures exists k :: IsLeast(k, ks)
    decreases |ks|
  {
    var k :| k in ks;
    if ks == {k} {
      assert IsLeast(k, ks);
    } else {
      var rest := ks - {k};
      HasLeast(rest);
      var l :| IsLeast(l, rest);
      PrecedesOneWay(k, l);
      if Precedes(l, k) {
        assert IsLeast(l, ks);
      } else {
        forall j | j in ks && j != k ensures Precedes(k, j) {
          if j != l { PrecedesOn(k, l, j); }
        }
        assert IsLeast(k, ks);
      }
    }
  }

  ghost function Least(ks: set<string>): (k: string)
    requires ks != {}
    ensures IsLeast(k, ks)
  {
    HasLeast(ks);
    var k :| IsLeast(k, ks);
    k
  }

  ghost function Sorted(keys: set<string>): (ks: seq<string>)
    ensures forall k :: k in ks <==> k in keys
    decreases keys
  {
    if keys == {} then [] else [Least(keys)] + Sorted(keys - {Least(keys)})
  }

  lemma {:induction false} SortedAscends(keys: set<string>, i: nat, j: nat)
    requires i < j < |Sorted(keys)|
    ensures Precedes(Sorted(keys)[i], Sorted(keys)[j])
    decreases keys
  {
    hide Precedes;
    var k := Least(keys);
    var rest := Sorted(keys - {k});
    assert Sorted(keys) == [k] + rest;
    if i > 0 {
      SortedAscends(keys - {k}, i - 1, j - 1);
    } else {
      assert rest[j - 1] in keys - {k};
    }
  }

  /** The keys of a map in their order. */
  ghost function KeysOf(m: map<string, Value>): (ks: seq<string>)
    ensures forall k :: k in ks <==> k in m
  {
    Sorted(m.Keys)
  }

  ghost function TreeOf(encode: string -> Bytes, v: Value): Tree
    decreases v
  {
    match v
    case Null => NullWord
    case Bool(b) => if b then TrueWord else FalseWord
    case Number(n) => Digits(n < 0, Decimal(if n < 0 then -n else n))
    case String(s) => Quoted(encode(s))
    case List(items) => if items == [] then EmptyList([]) else FullList(ElementsOf(encode, items))
    case Object(members) =>
      if members == map[] then EmptyMap([]) else FullMap(MembersOf(encode, v, KeysOf(members)))
  }

  ghost function ElementsOf(encode: string -> Bytes, items: seq<Value>): Elements
    requires items != []
    decreases items
  {
    var p := Padded([], TreeOf(encode, items[0]), []);
    if |items| == 1 then Last(p) else More(p, ElementsOf(encode, items[1..]))
  }

  ghost function MemberOf(encode: string -> Bytes, v: Value, k: string): Member
    requires v.Object? && k in v.members
    decreases v, 0
  {
    Member([], encode(k), [], Padded([], TreeOf(encode, v.members[k]), []))
  }

  ghost function MembersOf(encode: string -> Bytes, v: Value, ks: seq<string>): Members
    requires v.Object? && ks != [] && forall k | k in ks :: k in v.members
    decreases v, |ks|
  {
    var m := MemberOf(encode, v, ks[0]);
    if |ks| == 1 then LastMember(m) else MoreMembers(m, MembersOf(encode, v, ks[1..]))
  }

  /** Canonical JSON: no blanks, and members in the order of their keys. */
  ghost function Render(encode: string -> Bytes, v: Value): Bytes {
    Text(TreeOf(encode, v))
  }

  // ---- the tree means the value

  lemma LeafMeans(c: Config, encode: string -> Bytes, v: Value)
    requires Codec(c, encode) && Writable(v, 0)
    requires (v.List? ==> v.items == []) && (v.Object? ==> v.members == map[])
    ensures Meaning(c, TreeOf(encode, v)) == Some(v) && Height(TreeOf(encode, v)) == 0
  {
    hide Decimal, DigitsValue, IsBody, ElementsOf, MembersOf, ElementsMeaning, MembersMeaning;
    match v
    case Number(n) => NumberWritten(n);
    case String(s) => assert IsToken(encode(s)) && c.decode(encode(s)) == Some(s);
    case _ =>
  }

  lemma ListMeans(c: Config, encode: string -> Bytes, v: Value, d: nat)
    requires v.List? && v.items != [] && ElementsMeaning(c, ElementsOf(encode, v.items)) == Some(v.items)
    requires ElementsHeight(ElementsOf(encode, v.items)) <= d
    ensures Meaning(c, TreeOf(encode, v)) == Some(v) && Height(TreeOf(encode, v)) <= d + 1
  {
    hide ElementsMeaning, ElementsOf, ElementsHeight;
  }

  lemma ObjectMeans(c: Config, encode: string -> Bytes, v: Value, d: nat)
    requires v.Object? && v.members != map[] && KeysOf(v.members) != []
    requires MembersMeaning(c, MembersOf(encode, v, KeysOf(v.members)), map[]) == Some(v.members)
    requires MembersHeight(MembersOf(encode, v, KeysOf(v.members))) <= d
    ensures Meaning(c, TreeOf(encode, v)) == Some(v) && Height(TreeOf(encode, v)) <= d + 1
  {
    hide MembersMeaning, MembersOf, MembersHeight, KeysOf;
  }

  lemma {:induction false} TreeMeans(c: Config, encode: string -> Bytes, v: Value, d: nat)
    requires Codec(c, encode) && Writable(v, d)
    ensures Meaning(c, TreeOf(encode, v)) == Some(v) && Height(TreeOf(encode, v)) <= d
    decreases v
  {
    hide Codec, Meaning, Height, TreeOf, ElementsMeaning, MembersMeaning, ElementsOf, MembersOf, KeysOf;
    hide ElementsHeight, MembersHeight;
    if v.List? && v.items != [] {
      ElementsMean(c, encode, v.items, d - 1);
      ListMeans(c, encode, v, d - 1);
    } else if v.Object? && v.members != map[] {
      SomeKey(v.members);
      var ks := KeysOf(v.members);
      KeysOnce(v.members);
      MembersMean(c, encode, v, ks, d - 1, map[]);
      assert map[] + Restricted(v.members, ks) == v.members;
      ObjectMeans(c, encode, v, d - 1);
    } else {
      LeafMeans(c, encode, v);
    }
  }

  lemma KeysOnce(m: map<string, Value>)
    ensures forall i, j | 0 <= i < j < |KeysOf(m)| :: KeysOf(m)[i] != KeysOf(m)[j]
  {
    forall i, j | 0 <= i < j < |KeysOf(m)| ensures KeysOf(m)[i] != KeysOf(m)[j] {
      SortedAscends(m.Keys, i, j);
      PrecedesOneWay(KeysOf(m)[i], KeysOf(m)[j]);
    }
  }

  lemma SomeKey(m: map<string, Value>)
    requires m != map[]
    ensures KeysOf(m) != []
  {
    var k :| k in m;
    assert k in KeysOf(m);
  }

  lemma {:induction false} ElementsMean(c: Config, encode: string -> Bytes, items: seq<Value>, d: nat)
    requires Codec(c, encode) && items != [] && forall i | 0 <= i < |items| :: Writable(items[i], d)
    ensures ElementsMeaning(c, ElementsOf(encode, items)) == Some(items)
    ensures ElementsHeight(ElementsOf(encode, items)) <= d
    decreases items
  {
    hide Codec, Writable, Meaning, Height, TreeOf;
    TreeMeans(c, encode, items[0], d);
    if |items| > 1 {
      ElementsMean(c, encode, items[1..], d);
      assert items == [items[0]] + items[1..];
    } else {
      assert items == [items[0]];
    }
  }

  lemma MemberMeans(c: Config, encode: string -> Bytes, v: Value, k: string, d: nat)
    requires Codec(c, encode) && v.Object? && k in v.members && Writable(v.members[k], d)
    ensures MemberMeaning(c, MemberOf(encode, v, k)) == Some((k, v.members[k]))
    ensures Height(MemberOf(encode, v, k).value.tree) <= d
    decreases v, 0
  {
    hide Writable, Meaning, TreeOf, IsToken, Height;
    TreeMeans(c, encode, v.members[k], d);
    assert IsToken(encode(k)) && c.decode(encode(k)) == Some(k);
  }

  function Restricted(m: map<string, Value>, ks: seq<string>): map<string, Value> {
    map k | k in ks && k in m :: m[k]
  }

  lemma RestrictedStep(m: map<string, Value>, ks: seq<string>, seen: map<string, Value>)
    requires ks != [] && ks[0] in m
    ensures var next := seen[ks[0] := m[ks[0]]];
      && (|ks| == 1 ==> next == seen + Restricted(m, ks))
      && next + Restricted(m, ks[1..]) == seen + Restricted(m, ks)
  {
    assert ks == [ks[0]] + ks[1..];
  }

  lemma {:induction false} MembersMean(c: Config, encode: string -> Bytes, v: Value, ks: seq<string>, d: nat,
                                       seen: map<string, Value>)
    requires Codec(c, encode) && v.Object? && ks != [] && (forall k | k in ks :: k in v.members && k !in seen)
    requires (forall i, j | 0 <= i < j < |ks| :: ks[i] != ks[j]) && forall k | k in ks :: Writable(v.members[k], d)
    ensures MembersMeaning(c, MembersOf(encode, v, ks), seen) == Some(seen + Restricted(v.members, ks))
    ensures MembersHeight(MembersOf(encode, v, ks)) <= d
    decreases v, |ks|
  {
    hide Codec, Writable, MemberMeaning, MemberOf, Height, Meaning, TreeOf, Restricted;
    var k := ks[0];
    var next := seen[k := v.members[k]];
    MemberMeans(c, encode, v, k, d);
    if |ks| > 1 {
      MembersMean(c, encode, v, ks[1..], d, next);
    }
    RestrictedStep(v.members, ks, seen);
  }

  /** Whatever is written is read back, as long as it fits the limits of the reader. */
  lemma RenderReads(c: Config, encode: string -> Bytes, v: Value, maximum: nat)
    requires Codec(c, encode) && Writable(v, c.depth) && |Render(encode, v)| <= maximum
    ensures Parse(c, Render(encode, v), maximum) == Some(v)
  {
    hide Codec, Writable, TreeOf, Meaning, Text, Height, Parse;
    TreeMeans(c, encode, v, c.depth);
    var p := Padded([], TreeOf(encode, v), []);
    assert PaddedText(p) == Render(encode, v) && PaddedMeaning(c, p) == Some(v);
    assert Denotes(c, Render(encode, v), v);
    ParseExact(c, Render(encode, v), maximum, v);
  }

  /** Distinct values have distinct canonical texts. */
  lemma CanonicalDistinct(c: Config, encode: string -> Bytes, v: Value, w: Value)
    requires Codec(c, encode) && Writable(v, c.depth) && Writable(w, c.depth) && Render(encode, v) == Render(encode, w)
    ensures v == w
  {
    hide Codec, Writable, Render, Parse;
    RenderReads(c, encode, v, |Render(encode, v)|);
    RenderReads(c, encode, w, |Render(encode, w)|);
  }

  // ---- nothing else can be written

  lemma {:induction false} WritableDeeper(v: Value, d: nat, e: nat)
    requires Writable(v, d) && d <= e
    ensures Writable(v, e)
    decreases v
  {
    match v
    case List(items) =>
      if items != [] {
        forall i | 0 <= i < |items| ensures Writable(items[i], e - 1) { WritableDeeper(items[i], d - 1, e - 1); }
      }
    case Object(members) =>
      if members != map[] {
        forall k | k in members ensures Writable(members[k], e - 1) { WritableDeeper(members[k], d - 1, e - 1); }
      }
    case _ =>
  }

  lemma {:induction false} MeantWritable(c: Config, t: Tree)
    requires Meaning(c, t).Some?
    ensures Writable(Meaning(c, t).value, Height(t))
    decreases t, 0
  {
    match t
    case FullList(es) => ElementsWritable(c, es, ElementsHeight(es));
    case FullMap(ms) => MembersWritable(c, ms, map[], MembersHeight(ms));
    case Digits(negative, ds) => DigitsNatural(ds);
    case _ =>
  }

  lemma {:induction false} DigitsNatural(ds: Bytes)
    requires forall d | d in ds :: IsDigit(d)
    ensures DigitsValue(ds) >= 0
  {
    if ds != [] {
      assert ds[|ds| - 1] in ds;
      DigitsNatural(ds[..|ds| - 1]);
    }
  }

  lemma {:induction false} ElementsWritable(c: Config, es: Elements, d: nat)
    requires ElementsMeaning(c, es).Some? && ElementsHeight(es) <= d
    ensures ElementsMeaning(c, es).value != []
    ensures forall v | v in ElementsMeaning(c, es).value :: Writable(v, d)
    decreases es, 1
  {
    hide Writable, Meaning, Height;
    MeantWritable(c, es.item.tree);
    WritableDeeper(Meaning(c, es.item.tree).value, Height(es.item.tree), d);
    if es.More? {
      ElementsWritable(c, es.rest, d);
    }
  }

  lemma MemberParts(c: Config, m: Member)
    requires MemberMeaning(c, m).Some?
    ensures Meaning(c, m.value.tree) == Some(MemberMeaning(c, m).value.1)
  {
    hide Meaning, IsToken;
  }

  lemma {:induction false} MembersWritable(c: Config, ms: Members, seen: map<string, Value>, d: nat)
    requires MembersMeaning(c, ms, seen).Some? && MembersHeight(ms) <= d
    requires forall k | k in seen :: Writable(seen[k], d)
    ensures MembersMeaning(c, ms, seen).value != map[]
    ensures forall k | k in MembersMeaning(c, ms, seen).value :: Writable(MembersMeaning(c, ms, seen).value[k], d)
    decreases ms, 1
  {
    hide Writable, MemberMeaning, Meaning, Height;
    var kv := MemberMeaning(c, ms.member).value;
    var next := seen[kv.0 := kv.1];
    MemberParts(c, ms.member);
    MeantWritable(c, ms.member.value.tree);
    WritableDeeper(kv.1, Height(ms.member.value.tree), d);
    assert kv.0 in next;
    if ms.MoreMembers? {
      MembersWritable(c, ms.others, next, d);
    }
  }

  /** A value has a text if and only if its integers are in range and it nests within the limit. */
  lemma HasTextExactly(c: Config, encode: string -> Bytes, v: Value)
    requires Codec(c, encode)
    ensures (exists raw: Bytes :: Denotes(c, raw, v)) <==> Writable(v, c.depth)
  {
    hide Codec, Writable, Meaning, Text, Height;
    if raw: Bytes :| Denotes(c, raw, v) {
      var p: Padded :| PaddedText(p) == raw && PaddedMeaning(c, p) == Some(v) && Height(p.tree) <= c.depth;
      MeantWritable(c, p.tree);
      WritableDeeper(v, Height(p.tree), c.depth);
    }
    if Writable(v, c.depth) {
      RenderReads(c, encode, v, |Render(encode, v)|);
      ParseExact(c, Render(encode, v), |Render(encode, v)|, v);
    }
  }
}
