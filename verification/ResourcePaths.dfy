/** Resource paths: conjunctions of anchors over the live containment of work. */
module ResourcePaths {
  import opened Basics

  /** Identifiers are opaque, and there is always another one. */
  type Id = nat

  datatype Kind = Arena | Initiative | Project | Issue | Task | Proposal | Todo | Other

  datatype Ref = Ref(kind: Kind, id: Id)

  predicate Anchor(k: Kind) {
    k in {Arena, Initiative, Project}
  }

  function AnchorRank(k: Kind): int {
    if k == Arena then 0 else if k == Initiative then 1 else 2
  }

  /** One to three anchors, in the order of containment. */
  predicate ValidPath(p: seq<Ref>) {
    && 1 <= |p| <= 3
    && (forall i | 0 <= i < |p| :: Anchor(p[i].kind))
    && (forall i, j | 0 <= i < j < |p| :: AnchorRank(p[i].kind) < AnchorRank(p[j].kind))
  }

  type Path = p: seq<Ref> | ValidPath(p) witness [Ref(Arena, 0)]

  predicate ContainedBy(p: Path, parent: Path) {
    forall anchor | anchor in parent :: anchor in p
  }

  /** A list of paths is a disjunction, and an empty list is no restriction. */
  predicate PathsSubset(child: seq<Path>, parent: seq<Path>) {
    parent == []
    || (child != [] && forall p | p in child :: exists q | q in parent :: ContainedBy(p, q))
  }

  // ---- chains

  predicate MayContain(parent: Kind, child: Kind) {
    match child
    case Project => parent == Initiative
    case Issue => parent in {Initiative, Project}
    case Task => parent in {Initiative, Project, Issue}
    case _ => false
  }

  predicate TodoKind(k: Kind) {
    k in {Todo, Proposal, Initiative, Project, Issue, Task}
  }

  /** The index of the first work node: an Arena may stand above it. */
  function TopOf(c: seq<Ref>): nat {
    if |c| > 1 && c[0].kind == Arena then 1 else 0
  }

  /** An ancestry from the root down: each node may contain the next, under an Arena or none. */
  predicate WellFormed(c: seq<Ref>) {
    && |c| > 0
    && (forall i | TopOf(c) <= i < |c| :: TodoKind(c[i].kind))
    && (forall i | TopOf(c) < i < |c| :: MayContain(c[i - 1].kind, c[i].kind))
    && (TopOf(c) == 1 ==> c[1].kind in {Initiative, Task})
  }

  predicate Satisfies(c: seq<Ref>, p: Path) {
    forall anchor | anchor in p :: anchor in c
  }

  predicate Admits(paths: seq<Path>, c: seq<Ref>) {
    paths == [] || exists p | p in paths :: Satisfies(c, p)
  }

  /** How far a kind is from the top: containment only goes down. */
  function Level(k: Kind): int {
    match k
    case Arena => 0
    case Initiative => 1
    case Project => 2
    case Issue => 3
    case Task => 4
    case _ => 5
  }

  lemma {:induction false} LevelsDescend(c: seq<Ref>, i: nat, j: nat)
    requires WellFormed(c) && i < j < |c|
    ensures Level(c[i].kind) < Level(c[j].kind)
    decreases j
  {
    if i < j - 1 {
      LevelsDescend(c, i, j - 1);
    }
  }

  /** A chain never repeats a kind. */
  lemma OnePerKind(c: seq<Ref>, a: Ref, b: Ref)
    requires WellFormed(c) && a in c && b in c && a.kind == b.kind
    ensures a == b
  {
    var i :| 0 <= i < |c| && c[i] == a;
    var j :| 0 <= j < |c| && c[j] == b;
    if i < j {
      LevelsDescend(c, i, j);
    } else if j < i {
      LevelsDescend(c, j, i);
    }
  }

  // ---- the subset test is exact

  function Ids(paths: seq<Path>): set<Id> {
    set p: Path, a: Ref | p in paths && a in p :: a.id
  }

  lemma FreshId(ids: set<Id>) returns (n: Id)
    ensures n !in ids
  {
    n := Above(ids);
  }

  lemma {:induction false} Above(ids: set<Id>) returns (n: Id)
    ensures forall i | i in ids :: i < n
    decreases |ids|
  {
    if ids == {} {
      n := 0;
    } else {
      var i :| i in ids;
      n := Above(ids - {i});
      assert forall x | x in ids :: x == i || x in ids - {i};
      if i >= n { n := i + 1; }
    }
  }

  /** The least that a path says: its anchors, and one unknown Initiative where containment needs one. */
  function Witness(p: Path, unknown: Id): seq<Ref> {
    var last := p[|p| - 1];
    if last.kind == Arena then p + [Ref(Initiative, unknown)]
    else if |p| == 2 && p[0].kind == Arena && p[1].kind == Project then [p[0], Ref(Initiative, unknown), p[1]]
    else p
  }

  lemma WitnessWellFormed(p: Path, unknown: Id)
    ensures WellFormed(Witness(p, unknown)) && Satisfies(Witness(p, unknown), p)
    ensures forall a | a in Witness(p, unknown) :: a in p || a == Ref(Initiative, unknown)
  {
    assert |Witness(p, unknown)| <= 3;
  }

  /** What a witness is admitted to contains the path itself. */
  lemma WitnessContained(p: Path, q: Path, unknown: Id)
    requires Satisfies(Witness(p, unknown), q) && (forall a | a in q :: a.id != unknown)
    ensures ContainedBy(p, q)
  {
    WitnessWellFormed(p, unknown);
  }

  /**
   The test decides attenuation in every hierarchy, present or future: it holds if and only if every
   well-formed chain that `child` admits is admitted by `parent`.
   */
  lemma SubsetExact(child: seq<Path>, parent: seq<Path>)
    ensures PathsSubset(child, parent) <==>
            forall c: seq<Ref> | WellFormed(c) && Admits(child, c) :: Admits(parent, c)
  {
    if PathsSubset(child, parent) {
      forall c | WellFormed(c) && Admits(child, c) ensures Admits(parent, c) {
        SubsetSound(child, parent, c);
      }
    } else {
      SubsetComplete(child, parent);
    }
  }

  lemma SubsetSound(child: seq<Path>, parent: seq<Path>, c: seq<Ref>)
    requires PathsSubset(child, parent) && Admits(child, c)
    ensures Admits(parent, c)
  {
    if parent != [] {
      var p :| p in child && Satisfies(c, p);
      var q :| q in parent && ContainedBy(p, q);
      assert Satisfies(c, q);
    }
  }

  lemma SubsetComplete(child: seq<Path>, parent: seq<Path>)
    requires !PathsSubset(child, parent)
    ensures exists c: seq<Ref> :: WellFormed(c) && Admits(child, c) && !Admits(parent, c)
  {
    var unknown := FreshId(Ids(parent));
    if child == [] {
      var c := [Ref(Initiative, unknown)];
      assert WellFormed(c);
      forall q: Path | q in parent ensures !Satisfies(c, q) {
        assert q[0] in q && q[0].id in Ids(parent);
      }
    } else {
      var p :| p in child && forall q | q in parent :: !ContainedBy(p, q);
      var c := Witness(p, unknown);
      WitnessWellFormed(p, unknown);
      forall q: Path | q in parent ensures !Satisfies(c, q) {
        assert forall a | a in q :: a.id in Ids(parent);
        if Satisfies(c, q) {
          WitnessContained(p, q, unknown);
        }
      }
    }
  }

  // ---- intersection

  function Anchors(p: Path): map<Kind, Id> {
    map a | a in p :: a.kind := a.id
  }

  lemma AnchorsExact(p: Path, a: Ref)
    ensures a in p <==> a.kind in Anchors(p) && Anchors(p)[a.kind] == a.id
  {
    if a.kind in Anchors(p) {
      var b :| b in p && b.kind == a.kind && b.id == Anchors(p)[a.kind];
      assert b == Ref(a.kind, Anchors(p)[a.kind]);
    }
  }

  function Step(m: map<Kind, Id>, k: Kind): seq<Ref> {
    if k in m then [Ref(k, m[k])] else []
  }

  /** The path of a dictionary of anchors. */
  function PathOf(m: map<Kind, Id>): (p: seq<Ref>)
    ensures m != map[] && (forall k | k in m :: Anchor(k)) ==> ValidPath(p)
    ensures (forall k | k in m :: Anchor(k)) ==> forall a :: a in p <==> a.kind in m && m[a.kind] == a.id
  {
    Step(m, Arena) + Step(m, Initiative) + Step(m, Project)
  }

  predicate Clash(a: Path, b: Path) {
    exists x, y | x in a && y in b :: x.kind == y.kind && x.id != y.id
  }

  lemma Merged(a: Path, b: Path)
    requires forall y | y in b :: !(y.kind in Anchors(a) && Anchors(a)[y.kind] != y.id)
    ensures !Clash(a, b) && ValidPath(PathOf(Anchors(a) + Anchors(b)))
    ensures forall x :: x in PathOf(Anchors(a) + Anchors(b)) <==> x in a || x in b
  {
    var all := Anchors(a) + Anchors(b);
    assert Ref(a[0].kind, a[0].id) in a;
    AnchorsExact(a, a[0]);
    assert forall k | k in all :: Anchor(k);
    var p := PathOf(all);
    forall x ensures x in p <==> x in a || x in b {
      AnchorsExact(a, x);
      AnchorsExact(b, x);
    }
    forall x, y | x in a && y in b ensures !(x.kind == y.kind && x.id != y.id) {
      AnchorsExact(a, x);
    }
  }

  method Merge(a: Path, b: Path) returns (r: Option<Path>)
    ensures r.None? <==> Clash(a, b)
    ensures r.Some? ==> forall x :: x in r.value <==> x in a || x in b
  {
    var anchors := Anchors(a);
    for i := 0 to |b|
      invariant forall y | y in b[..i] :: !(y.kind in anchors && anchors[y.kind] != y.id)
    {
      if b[i].kind in anchors && anchors[b[i].kind] != b[i].id {
        assert Clash(a, b) by {
          AnchorsExact(a, Ref(b[i].kind, anchors[b[i].kind]));
          assert b[i] in b;
        }
        return None;
      }
    }
    assert b[..|b|] == b;
    Merged(a, b);
    r := Some(PathOf(anchors + Anchors(b)));
  }

  /** For chains without a repeated kind, a merged path says what the two paths say together. */
  lemma MergeMeets(c: seq<Ref>, a: Path, b: Path, m: Option<Path>)
    requires WellFormed(c) && (m.None? <==> Clash(a, b))
    requires m.Some? ==> forall x :: x in m.value <==> x in a || x in b
    ensures m.Some? && Satisfies(c, m.value) <==> Satisfies(c, a) && Satisfies(c, b)
  {
    if Satisfies(c, a) && Satisfies(c, b) && Clash(a, b) {
      var x, y :| x in a && y in b && x.kind == y.kind && x.id != y.id;
      OnePerKind(c, x, y);
    }
  }

  ghost predicate MeetOf(left: seq<Path>, right: seq<Path>, result: set<Path>, c: seq<Ref>) {
    (exists p | p in result :: Satisfies(c, p)) <==>
    (exists a | a in left :: Satisfies(c, a)) && (exists b | b in right :: Satisfies(c, b))
  }

  /** The merges of one path with each of a list. */
  method MergeEach(a: Path, right: seq<Path>) returns (result: set<Path>)
    ensures forall c: seq<Ref> | WellFormed(c) :: MeetOf([a], right, result, c)
  {
    result := {};
    for j := 0 to |right|
      invariant forall c: seq<Ref> | WellFormed(c) :: MeetOf([a], right[..j], result, c)
    {
      var m := Merge(a, right[j]);
      var next := if m.Some? then result + {m.value} else result;
      forall c: seq<Ref> | WellFormed(c) ensures MeetOf([a], right[..j + 1], next, c) {
        MergeMeets(c, a, right[j], m);
        MeetGrows(a, right[..j], right[j], result, m, c);
        assert right[..j + 1] == right[..j] + [right[j]];
      }
      result := next;
    }
    assert right[..|right|] == right;
  }

  lemma MeetGrows(a: Path, right: seq<Path>, b: Path, result: set<Path>, m: Option<Path>, c: seq<Ref>)
    requires MeetOf([a], right, result, c)
    requires m.Some? && Satisfies(c, m.value) <==> Satisfies(c, a) && Satisfies(c, b)
    ensures MeetOf([a], right + [b], if m.Some? then result + {m.value} else result, c)
  {
    var next := if m.Some? then result + {m.value} else result;
    var more := right + [b];
    if Satisfies(c, a) {
      assert a in [a];
      if p :| p in next && Satisfies(c, p) {
        if p in result {
          var q :| q in right && Satisfies(c, q);
          assert q in more;
        } else {
          assert b in more;
        }
      }
      if q :| q in more && Satisfies(c, q) {
        if q in right {
          var p :| p in result && Satisfies(c, p);
          assert p in next;
        } else {
          assert m.value in next;
        }
      }
    }
  }

  lemma MeetUnion(done: seq<Path>, a: Path, right: seq<Path>, result: set<Path>, each: set<Path>, c: seq<Ref>)
    requires MeetOf(done, right, result, c) && MeetOf([a], right, each, c)
    ensures MeetOf(done + [a], right, result + each, c)
  {
    var more, next := done + [a], result + each;
    if p :| p in next && Satisfies(c, p) {
      if p in result {
        var q :| q in done && Satisfies(c, q);
        assert q in more;
      } else {
        assert a in more;
      }
    }
    if q :| q in more && Satisfies(c, q) {
      if exists b | b in right :: Satisfies(c, b) {
        if q in done {
          var p :| p in result && Satisfies(c, p);
          assert p in next;
        } else {
          assert a in [a];
          var p :| p in each && Satisfies(c, p);
          assert p in next;
        }
      }
    }
  }

  /** An empty list does not restrict; two lists that do give exactly what both allow. */
  method IntersectPaths(left: seq<Path>, right: seq<Path>) returns (result: set<Path>)
    ensures left == [] ==> result == set p | p in right
    ensures left != [] && right == [] ==> result == set p | p in left
    ensures left != [] && right != [] ==> forall c: seq<Ref> | WellFormed(c) :: MeetOf(left, right, result, c)
  {
    if left == [] { return set p | p in right; }
    if right == [] { return set p | p in left; }
    result := {};
    for i := 0 to |left|
      invariant forall c: seq<Ref> | WellFormed(c) :: MeetOf(left[..i], right, result, c)
    {
      var each := MergeEach(left[i], right);
      forall c: seq<Ref> | WellFormed(c) ensures MeetOf(left[..i + 1], right, result + each, c) {
        MeetUnion(left[..i], left[i], right, result, each, c);
        assert left[..i + 1] == left[..i] + [left[i]];
      }
      result := result + each;
    }
    assert left[..|left|] == left;
  }

  // ---- the walk up the stored containment

  datatype Relation = HasChild | ContainsWork

  datatype Edge = Edge(from: Ref, relation: Relation, to: Ref)

  /** What the store shows of a work object: its node and every edge into it. */
  datatype Containment = Containment(node: Ref, kind: Kind, parents: seq<Edge>, memberships: seq<Edge>)

  datatype ArenaNode = ArenaNode(node: Ref, kind: Kind)

  datatype Store = Store(work: map<Ref, Containment>, arenas: map<Id, ArenaNode>)

  predicate Shown(s: Store, r: Ref) {
    && r in s.work && s.work[r].node == r && s.work[r].kind == r.kind
    && |s.work[r].parents| <= 1 && |s.work[r].memberships| <= 1
  }

  predicate GoodParent(s: Store, r: Ref)
    requires Shown(s, r) && s.work[r].parents != []
  {
    var e := s.work[r].parents[0];
    s.work[r].memberships == [] && e.to == r && e.relation == HasChild && MayContain(e.from.kind, r.kind)
  }

  predicate GoodMembership(s: Store, r: Ref)
    requires Shown(s, r) && s.work[r].memberships != []
  {
    var e := s.work[r].memberships[0];
    && r.kind in {Initiative, Task} && e.from.kind == Arena && e.to == r && e.relation == ContainsWork
    && e.from.id in s.arenas && s.arenas[e.from.id] == ArenaNode(e.from, Arena)
  }

  predicate HasGoodParent(s: Store, r: Ref) {
    TodoKind(r.kind) && Shown(s, r) && s.work[r].parents != [] && GoodParent(s, r)
  }

  function ParentOf(s: Store, r: Ref): Ref
    requires HasGoodParent(s, r)
  {
    s.work[r].parents[0].from
  }

  /** A node without a parent, alone or in one Arena. */
  predicate Root(s: Store, r: Ref) {
    && TodoKind(r.kind) && Shown(s, r) && s.work[r].parents == []
    && (s.work[r].memberships != [] ==> GoodMembership(s, r))
  }

  function RootChain(s: Store, r: Ref): seq<Ref>
    requires Root(s, r)
  {
    if s.work[r].memberships != [] then [s.work[r].memberships[0].from, r] else [r]
  }

  /** `c` is the ancestry of its last node in the store, however long. */
  ghost predicate Ancestry(s: Store, c: seq<Ref>)
    ensures Ancestry(s, c) ==> c != []
  {
    && |c| > 0
    && Root(s, c[TopOf(c)]) && c[..TopOf(c) + 1] == RootChain(s, c[TopOf(c)])
    && (forall i | TopOf(c) < i < |c| :: HasGoodParent(s, c[i]) && ParentOf(s, c[i]) == c[i - 1])
  }

  lemma AncestryWellFormed(s: Store, c: seq<Ref>)
    requires Ancestry(s, c)
    ensures WellFormed(c)
  {
    if TopOf(c) == 1 {
      assert c[..2][1] == c[1];
    }
  }

  /** The work nodes of a chain: all but an Arena on top. */
  function WorkNodes(c: seq<Ref>): int {
    |c| - TopOf(c)
  }

  lemma {:induction false} DepthLevel(c: seq<Ref>, i: nat)
    requires WellFormed(c) && TopOf(c) <= i < |c|
    ensures i - TopOf(c) < Level(c[i].kind)
    ensures i > TopOf(c) ==> Level(c[i].kind) <= 4
    decreases i
  {
    if TopOf(c) < i {
      DepthLevel(c, i - 1);
    }
  }

  /** Four steps are always enough. */
  lemma AtMostFour(s: Store, c: seq<Ref>)
    requires Ancestry(s, c)
    ensures 1 <= WorkNodes(c) <= 4
  {
    AncestryWellFormed(s, c);
    DepthLevel(c, |c| - 1);
  }

  function Last(c: seq<Ref>): Ref
    requires c != []
  {
    c[|c| - 1]
  }

  /** The ancestries of `target` are those of `current` continued by `path`. */
  ghost predicate Continues(s: Store, target: Ref, current: Ref, path: seq<Ref>) {
    && (forall c | Ancestry(s, c) && Last(c) == current :: Ancestry(s, c + path) && Last(c + path) == target)
    && (forall c | Ancestry(s, c) && Last(c) == target :: Splits(s, c, current, path))
  }

  /** The ancestries of a node with a parent are those of the parent and the node. */
  lemma AncestryDown(s: Store, r: Ref, c: seq<Ref>)
    requires HasGoodParent(s, r) && Ancestry(s, c) && Last(c) == ParentOf(s, r)
    ensures Ancestry(s, c + [r]) && Last(c + [r]) == r && WorkNodes(c + [r]) == WorkNodes(c) + 1
  {
    assert TopOf(c + [r]) == TopOf(c);
    assert (c + [r])[..TopOf(c) + 1] == c[..TopOf(c) + 1];
  }

  lemma AncestryUp(s: Store, r: Ref, c: seq<Ref>)
    requires HasGoodParent(s, r) && Ancestry(s, c) && Last(c) == r
    ensures |c| > 1 && Ancestry(s, c[..|c| - 1]) && Last(c[..|c| - 1]) == ParentOf(s, r)
  {
    var d := c[..|c| - 1];
    assert TopOf(c) < |c| - 1;
    assert TopOf(d) == TopOf(c);
    assert d[..TopOf(d) + 1] == c[..TopOf(c) + 1];
  }

  lemma AncestryBeyond(s: Store, target: Ref, r: Ref, path: seq<Ref>, more: seq<Ref>, c: seq<Ref>)
    requires Continues(s, target, r, path) && more == [r] + path
    requires HasGoodParent(s, r) && Ancestry(s, c) && Last(c) == ParentOf(s, r)
    ensures Ancestry(s, c + more) && Last(c + more) == target
  {
    hide Ancestry, HasGoodParent, ParentOf, WorkNodes;
    AncestryDown(s, r, c);
    assert c + [r] + path == c + more;
  }

  ghost predicate Splits(s: Store, c: seq<Ref>, r: Ref, path: seq<Ref>) {
    |c| > |path| && c[|c| - |path|..] == path && Ancestry(s, c[..|c| - |path|]) && Last(c[..|c| - |path|]) == r
  }

  lemma AncestryBefore(s: Store, target: Ref, r: Ref, path: seq<Ref>, more: seq<Ref>, c: seq<Ref>)
    requires Continues(s, target, r, path) && more == [r] + path
    requires HasGoodParent(s, r) && Ancestry(s, c) && Last(c) == target
    ensures Splits(s, c, ParentOf(s, r), more)
  {
    hide Ancestry, HasGoodParent, ParentOf;
    assert Splits(s, c, r, path);
    var d := c[..|c| - |path|];
    AncestryUp(s, r, d);
    assert d[..|d| - 1] == c[..|c| - |more|];
    assert c[|c| - |more|..] == [r] + c[|c| - |path|..];
  }

  lemma ContinuesUp(s: Store, target: Ref, r: Ref, path: seq<Ref>, more: seq<Ref>)
    requires Continues(s, target, r, path) && more == [r] + path && HasGoodParent(s, r)
    ensures Continues(s, target, ParentOf(s, r), more)
  {
    hide Ancestry, HasGoodParent, ParentOf, Splits;
    forall c | Ancestry(s, c) && Last(c) == ParentOf(s, r) ensures Ancestry(s, c + more) && Last(c + more) == target {
      AncestryBeyond(s, target, r, path, more, c);
    }
    forall c | Ancestry(s, c) && Last(c) == target ensures Splits(s, c, ParentOf(s, r), more) {
      AncestryBefore(s, target, r, path, more, c);
    }
  }

  lemma NoRepeat(s: Store, target: Ref, current: Ref, path: seq<Ref>, c: seq<Ref>)
    requires Continues(s, target, current, path) && Ancestry(s, c) && Last(c) == current
    ensures current !in path
  {
    hide Ancestry, WellFormed, Splits;
    AncestryWellFormed(s, c + path);
    if current in path {
      var i :| 0 <= i < |path| && path[i] == current;
      LevelsDescend(c + path, |c| - 1, |c| + i);
    }
  }

  /** What a node without a proper containment leaves: nothing. */
  lemma NoAncestry(s: Store, target: Ref, r: Ref, path: seq<Ref>)
    requires Continues(s, target, r, path)
    requires forall c | Ancestry(s, c) :: Last(c) != r
    ensures forall c | Ancestry(s, c) :: Last(c) != target
  {
    hide Ancestry;
  }

  lemma Improper(s: Store, target: Ref, r: Ref, path: seq<Ref>)
    requires Continues(s, target, r, path) && !HasGoodParent(s, r) && !Root(s, r)
    ensures forall c | Ancestry(s, c) :: Last(c) != target
  {
    hide Continues;
    NoAncestry(s, target, r, path);
  }

  lemma Found(s: Store, target: Ref, r: Ref, path: seq<Ref>)
    requires Continues(s, target, r, path) && Root(s, r)
    ensures Ancestry(s, RootChain(s, r) + path) && Last(RootChain(s, r) + path) == target
  {
    var c := RootChain(s, r);
    assert c[..TopOf(c) + 1] == c;
    assert Ancestry(s, c);
    hide Ancestry;
  }

  /** The one ancestry that the store shows, or None exactly when it shows no proper one. */
  method CurrentResourcePath(s: Store, target: Ref) returns (r: Option<seq<Ref>>)
    ensures r.Some? ==> Ancestry(s, r.value) && Last(r.value) == target
    ensures r.None? ==> forall c | Ancestry(s, c) :: Last(c) != target
  {
    hide Ancestry, Continues, WorkNodes, ShortAbove;
    if !TodoKind(target.kind) {
      NotWork(s, target);
      return None;
    }
    var current, visited, chain := target, {}, [];
    ghost var path := [];
    ContinuesStart(s, target);
    for i := 0 to 4
      invariant TodoKind(current.kind) && Continues(s, target, current, path)
      invariant path == Reversed(chain) && (forall x :: x in visited <==> x in path)
      invariant ShortAbove(s, current, 4 - i)
    {
      if current in visited {
        NoneFound(s, target, current, path);
        return None;
      }
      visited := visited + {current};
      if !HasGoodParent(s, current) && !Root(s, current) {
        Improper(s, target, current, path);
        return None;
      }
      var item := s.work[current];
      chain := chain + [current];
      if item.parents == [] {
        Found(s, target, current, path);
        if item.memberships != [] { chain := chain + [item.memberships[0].from]; }
        assert Reversed(chain) == RootChain(s, current) + path;
        return Some(Reversed(chain));
      }
      ContinuesUp(s, target, current, path, [current] + path);
      FewerAbove(s, current, 4 - i);
      path := [current] + path;
      current := item.parents[0].from;
      assert path == Reversed(chain);
    }
    TooFar(s, target, current, path);
    return None;
  }

  ghost predicate ShortAbove(s: Store, r: Ref, n: int) {
    forall c | Ancestry(s, c) && Last(c) == r :: WorkNodes(c) <= n
  }

  lemma NotWork(s: Store, target: Ref)
    requires !TodoKind(target.kind)
    ensures forall c | Ancestry(s, c) :: Last(c) != target
  {
  }

  lemma TooFar(s: Store, target: Ref, r: Ref, path: seq<Ref>)
    requires Continues(s, target, r, path) && ShortAbove(s, r, 0)
    ensures forall c | Ancestry(s, c) :: Last(c) != target
  {
    hide Ancestry, Continues, WorkNodes;
    forall c | Ancestry(s, c) ensures Last(c) != r {
      AtMostFour(s, c);
    }
    NoAncestry(s, target, r, path);
  }

  function Reversed(c: seq<Ref>): (r: seq<Ref>)
    ensures |r| == |c| && (forall i | 0 <= i < |c| :: r[i] == c[|c| - 1 - i])
  {
    seq(|c|, i requires 0 <= i < |c| => c[|c| - 1 - i])
  }

  lemma ContinuesStart(s: Store, target: Ref)
    ensures Continues(s, target, target, []) && ShortAbove(s, target, 4)
  {
    hide Ancestry, WorkNodes;
    forall c | Ancestry(s, c) ensures WorkNodes(c) <= 4 && c + [] == c && c[..|c|] == c {
      AtMostFour(s, c);
    }
  }

  lemma NoneFound(s: Store, target: Ref, r: Ref, path: seq<Ref>)
    requires Continues(s, target, r, path) && r in path
    ensures forall c | Ancestry(s, c) :: Last(c) != target
  {
    hide Ancestry;
    forall c | Ancestry(s, c) ensures Last(c) != target {
      if Last(c) == target {
        NoRepeat(s, target, r, path, c[..|c| - |path|]);
      }
    }
  }

  lemma FewerAbove(s: Store, r: Ref, n: int)
    requires HasGoodParent(s, r) && ShortAbove(s, r, n)
    ensures ShortAbove(s, ParentOf(s, r), n - 1)
  {
    hide Ancestry, HasGoodParent, ParentOf;
    forall c | Ancestry(s, c) && Last(c) == ParentOf(s, r) ensures WorkNodes(c) <= n - 1 {
      AncestryDown(s, r, c);
    }
  }

  /** The store shows one ancestry at most. */
  lemma {:induction false} AncestryUnique(s: Store, c: seq<Ref>, d: seq<Ref>)
    requires Ancestry(s, c) && Ancestry(s, d) && Last(c) == Last(d)
    ensures c == d
    decreases |c|
  {
    var r := Last(c);
    if HasGoodParent(s, r) {
      AncestryUp(s, r, c);
      AncestryUp(s, r, d);
      hide Ancestry;
      AncestryUnique(s, c[..|c| - 1], d[..|d| - 1]);
      assert c == c[..|c| - 1] + [r] && d == d[..|d| - 1] + [r];
    } else {
      RootOnly(s, c);
      RootOnly(s, d);
    }
  }

  lemma RootOnly(s: Store, c: seq<Ref>)
    requires Ancestry(s, c) && !HasGoodParent(s, Last(c))
    ensures Root(s, Last(c)) && c == RootChain(s, Last(c))
  {
    assert TopOf(c) == |c| - 1;
    assert c[..TopOf(c) + 1] == c;
  }

  // ---- every well-formed chain is the ancestry of some store

  ghost function IndexOf(c: seq<Ref>, r: Ref): (i: nat)
    requires r in c
    ensures i < |c| && c[i] == r
  {
    var i :| 0 <= i < |c| && c[i] == r;
    i
  }

  ghost function ShowOf(c: seq<Ref>, i: nat): Containment
    requires i < |c|
  {
    Containment(c[i], c[i].kind,
                if i > TopOf(c) then [Edge(c[i - 1], HasChild, c[i])] else [],
                if i == 1 && TopOf(c) == 1 then [Edge(c[0], ContainsWork, c[1])] else [])
  }

  ghost function StoreOf(c: seq<Ref>): Store {
    Store(map r | r in c :: ShowOf(c, IndexOf(c, r)),
          map a | a in c && a.kind == Arena :: a.id := ArenaNode(a, Arena))
  }

  lemma IndexExact(c: seq<Ref>, i: nat)
    requires WellFormed(c) && i < |c|
    ensures IndexOf(c, c[i]) == i
  {
    var j := IndexOf(c, c[i]);
    if i < j {
      LevelsDescend(c, i, j);
    } else if j < i {
      LevelsDescend(c, j, i);
    }
  }

  lemma StoreShows(c: seq<Ref>, i: nat)
    requires WellFormed(c) && i < |c|
    ensures c[i] in StoreOf(c).work && StoreOf(c).work[c[i]] == ShowOf(c, i)
  {
    IndexExact(c, i);
  }

  lemma RealParent(c: seq<Ref>, i: nat)
    requires WellFormed(c) && TopOf(c) < i < |c|
    ensures HasGoodParent(StoreOf(c), c[i]) && ParentOf(StoreOf(c), c[i]) == c[i - 1]
  {
    hide StoreOf;
    StoreShows(c, i);
  }

  lemma RealRoot(c: seq<Ref>)
    requires WellFormed(c)
    ensures var r := c[TopOf(c)]; Root(StoreOf(c), r) && RootChain(StoreOf(c), r) == c[..TopOf(c) + 1]
  {
    var s, t := StoreOf(c), TopOf(c);
    StoreShows(c, t);
    if t == 1 {
      assert c[0] in c;
      assert c[0].id in s.arenas && s.arenas[c[0].id] == ArenaNode(c[0], Arena);
    }
    hide StoreOf;
  }

  lemma Realizable(c: seq<Ref>)
    requires WellFormed(c)
    ensures Ancestry(StoreOf(c), c)
  {
    hide StoreOf, Root, RootChain, HasGoodParent, ParentOf;
    forall i | TopOf(c) < i < |c| ensures HasGoodParent(StoreOf(c), c[i]) && ParentOf(StoreOf(c), c[i]) == c[i - 1] {
      RealParent(c, i);
    }
    RealRoot(c);
  }

  // ---- the receiver's test

  ghost predicate Allowed(s: Store, target: Ref, paths: seq<Path>) {
    paths == [] || exists c :: Ancestry(s, c) && Last(c) == target && Admits(paths, c)
  }

  /**
   An attenuation is accepted if and only if, in every store, whatever the narrower paths allow is
   allowed by the wider ones.
   */
  lemma AttenuationExact(child: seq<Path>, parent: seq<Path>)
    ensures PathsSubset(child, parent) <==>
            forall s: Store, target: Ref | Allowed(s, target, child) :: Allowed(s, target, parent)
  {
    hide Ancestry, PathsSubset, Admits, WellFormed, StoreOf;
    if PathsSubset(child, parent) {
      forall s: Store, target: Ref | Allowed(s, target, child) ensures Allowed(s, target, parent) {
        AllowedKept(s, target, child, parent);
      }
    } else {
      SubsetComplete(child, parent);
      var c: seq<Ref> :| WellFormed(c) && Admits(child, c) && !Admits(parent, c);
      Realizable(c);
      NotAllowed(StoreOf(c), child, parent, c);
    }
  }

  lemma AllowedKept(s: Store, target: Ref, child: seq<Path>, parent: seq<Path>)
    requires PathsSubset(child, parent) && Allowed(s, target, child)
    ensures Allowed(s, target, parent)
  {
    hide Ancestry, Satisfies;
    if parent != [] {
      var c :| Ancestry(s, c) && Last(c) == target && Admits(child, c);
      SubsetSound(child, parent, c);
    }
  }

  lemma NotAllowed(s: Store, child: seq<Path>, parent: seq<Path>, c: seq<Ref>)
    requires Ancestry(s, c) && Admits(child, c) && !Admits(parent, c)
    ensures Allowed(s, Last(c), child) && !Allowed(s, Last(c), parent)
  {
    hide Ancestry, Satisfies;
    if Allowed(s, Last(c), parent) {
      var d :| Ancestry(s, d) && Last(d) == Last(c) && Admits(parent, d);
      AncestryUnique(s, c, d);
    }
  }

  type Cache = map<Ref, Option<seq<Ref>>>

  /** What the cache remembers is what the store shows. */
  ghost predicate Remembers(s: Store, cache: Cache) {
    forall r | r in cache :: Answers(s, r, cache[r])
  }

  ghost predicate Answers(s: Store, r: Ref, answer: Option<seq<Ref>>) {
    if answer.Some? then Ancestry(s, answer.value) && Last(answer.value) == r
    else forall c | Ancestry(s, c) :: Last(c) != r
  }

  method WithinPaths(s: Store, target: Ref, paths: seq<Path>, cache: Cache) returns (ok: bool, next: Cache)
    requires Remembers(s, cache)
    ensures Remembers(s, next) && (ok <==> Allowed(s, target, paths))
  {
    hide Ancestry, Satisfies;
    next := cache;
    if paths == [] { return true, next; }
    if target !in next {
      var answer := CurrentResourcePath(s, target);
      next := next[target := answer];
    }
    assert Answers(s, target, next[target]);
    if next[target].None? { return false, next; }
    var chain := next[target].value;
    for i := 0 to |paths|
      invariant forall p | p in paths[..i] :: !Satisfies(chain, p)
    {
      if Satisfies(chain, paths[i]) {
        assert Admits(paths, chain);
        return true, next;
      }
    }
    assert paths[..|paths|] == paths;
    forall c | Ancestry(s, c) && Last(c) == target ensures !Admits(paths, c) {
      AncestryUnique(s, chain, c);
    }
    return false, next;
  }
}
