/** Parents and Arenas of work, changed by two families of requests over one graph. */
module Containment {
  import opened Basics
  import opened ResourcePaths
  import opened WorkGraph

  datatype Node = Node(version: nat, archived: bool, done: bool)

  datatype ArenaRecord = ArenaRecord(version: nat, archived: bool)

  type Member = (Id, Ref)

  datatype Graph = Graph(
    nodes: map<Ref, Node>,
    arenas: map<Id, ArenaRecord>,
    children: set<Link>,    // HAS_CHILD: parent, child
    members: set<Member>,   // CONTAINS_WORK: Arena, work
    depends: set<Link>,
    blocks: set<Link>)

  const EDGE_BUDGET := 10000

  function Parents(g: Graph, r: Ref): set<Ref> {
    set l | l in g.children && l.1 == r :: l.0
  }

  function ArenasOf(g: Graph, r: Ref): set<Id> {
    set m | m in g.members && m.1 == r :: m.0
  }

  predicate DirectKind(k: Kind) {
    k == Initiative || k == Task
  }

  // ---- membership

  datatype Placement =
    | Placed(arena: Option<Id>, root: Ref)
    | Conflict
    | Missing
    | Unrepresentable // a base Todo has no place in an `ArenaMembership`

  predicate DirectFault(g: Graph, r: Ref) {
    |ArenasOf(g, r)| > 1 || (ArenasOf(g, r) != {} && !DirectKind(r.kind))
  }

  ghost function The<T(!new)>(s: set<T>): (x: T)
    requires |s| == 1
    ensures x in s
  {
    assert s != {};
    var x :| x in s;
    x
  }

  ghost function AtRoot(g: Graph, r: Ref): Placement {
    if |ArenasOf(g, r)| != 1 then (if r.kind == Todo then Unrepresentable else Placed(None, r))
    else if The(ArenasOf(g, r)) !in g.arenas then Missing
    else if r.kind == Todo then Unrepresentable
    else Placed(Some(The(ArenasOf(g, r))), r)
  }

  /** The walk to the root, which stops at anything that is not as it should be. */
  ghost function Climb(g: Graph, r: Ref, visited: set<Ref>): Placement
    decreases |g.nodes.Keys - visited|
  {
    if r in visited then Conflict
    else if r !in g.nodes then Missing
    else if |Parents(g, r)| > 1 || DirectFault(g, r) then Conflict
    else if |Parents(g, r)| == 0 then AtRoot(g, r)
    else
      var up := The(Parents(g, r));
      if ArenasOf(g, r) != {} || !MayContain(up.kind, r.kind) then Conflict
      else
        assert g.nodes.Keys - visited == (g.nodes.Keys - (visited + {r})) + {r};
        Climb(g, up, visited + {r})
  }

  ghost function Membership(g: Graph, r: Ref): Placement {
    Climb(g, r, {})
  }

  // ---- requests

  /** A reference with the version that its sender saw. */
  datatype Seen = Seen(ref: Ref, version: nat)

  datatype SeenArena = SeenArena(id: Id, version: nat)

  /** Present at the version seen, and neither archived nor done. */
  predicate Ready(g: Graph, x: Seen) {
    x.ref in g.nodes && g.nodes[x.ref].version == x.version && !g.nodes[x.ref].archived && !g.nodes[x.ref].done
  }

  predicate Current(g: Graph, a: SeenArena) {
    a.id in g.arenas && g.arenas[a.id].version == a.version
  }

  function Bump(nodes: map<Ref, Node>, touched: set<Ref>): map<Ref, Node> {
    map r | r in nodes :: if r in touched then nodes[r].(version := nodes[r].version + 1) else nodes[r]
  }

  function BumpArenas(arenas: map<Id, ArenaRecord>, touched: set<Id>): map<Id, ArenaRecord> {
    map a | a in arenas :: if a in touched then arenas[a].(version := arenas[a].version + 1) else arenas[a]
  }

  function Named(x: Option<Seen>): set<Ref> {
    if x.Some? then {x.value.ref} else {}
  }

  function NamedArena(x: Option<SeenArena>): set<Id> {
    if x.Some? then {x.value.id} else {}
  }

  datatype ParentChange = ParentChange(
    child: Seen,
    previous: Option<Seen>,
    parent: Option<Seen>,
    arena: Option<SeenArena>)

  /** What the request parser lets through. */
  predicate ParentGuard(c: ParentChange) {
    && c.child.ref.kind in {Project, Issue, Task}
    && (c.previous.Some? || c.parent.Some? || c.arena.Some?)
    && (c.previous.Some? ==> MayContain(c.previous.value.ref.kind, c.child.ref.kind))
    && (c.parent.Some? ==> MayContain(c.parent.value.ref.kind, c.child.ref.kind))
    && (c.arena.Some? ==> c.child.ref.kind == Task && c.parent.Some?)
  }

  predicate ParentChecks(g: Graph, c: ParentChange) {
    && ParentGuard(c) && Ready(g, c.child) && |g.children| <= EDGE_BUDGET
    && Parents(g, c.child.ref) == Named(c.previous)
    && (c.previous.Some? ==> Ready(g, c.previous.value))
    && (c.parent.Some? ==> Ready(g, c.parent.value))
  }

  /** The direct Arena, which the request must name, is given up. */
  ghost predicate ArenaChecks(g: Graph, c: ParentChange) {
    && !DirectFault(g, c.child.ref)
    && ArenasOf(g, c.child.ref) == NamedArena(c.arena)
    && (c.arena.Some? ==> Current(g, c.arena.value) && Membership(g, c.child.ref).Placed?)
  }

  function Reparented(g: Graph, c: ParentChange): Graph {
    var child := c.child.ref;
    g.(children := (set l | l in g.children && l.1 != child) + (set p | p in Named(c.parent) :: (p, child)),
       members := (set m | m in g.members && !(c.arena.Some? && m == (c.arena.value.id, child))),
       nodes := Bump(g.nodes, {child} + Named(c.previous) + Named(c.parent)),
       arenas := BumpArenas(g.arenas, NamedArena(c.arena)))
  }

  ghost function SetParent(g: Graph, c: ParentChange): Option<Graph> {
    if ParentChecks(g, c) && ArenaChecks(g, c) then Some(Reparented(g, c)) else None
  }

  datatype MemberChange = MemberChange(member: Seen, previous: Option<SeenArena>, arena: Option<SeenArena>)

  predicate MemberGuard(c: MemberChange) {
    DirectKind(c.member.ref.kind) && (c.previous.Some? || c.arena.Some?)
  }

  ghost predicate MemberChecks(g: Graph, c: MemberChange) {
    var r := c.member.ref;
    && MemberGuard(c) && r in g.nodes && g.nodes[r].version == c.member.version && !g.nodes[r].archived
    && Membership(g, r) == Placed(if c.previous.Some? then Some(c.previous.value.id) else None, r)
    && (c.previous.Some? ==> Current(g, c.previous.value))
    && (c.arena.Some? ==> Current(g, c.arena.value) && !g.arenas[c.arena.value.id].archived)
  }

  function Rehomed(g: Graph, c: MemberChange): Graph {
    var r := c.member.ref;
    g.(members := g.members - (set a | a in NamedArena(c.previous) :: (a, r))
                  + (set a | a in NamedArena(c.arena) :: (a, r)),
       nodes := Bump(g.nodes, {r}),
       arenas := BumpArenas(g.arenas, NamedArena(c.previous) + NamedArena(c.arena)))
  }

  ghost function SetMember(g: Graph, c: MemberChange): Option<Graph> {
    if MemberChecks(g, c) then Some(Rehomed(g, c)) else None
  }

  datatype LinkKind = Depends | Blocks

  datatype LinkChange = LinkChange(kind: LinkKind, add: bool, subject: Seen, target: Seen)

  predicate LinkGuard(c: LinkChange) {
    && c.subject.ref != c.target.ref
    && (c.kind == Blocks ==> c.subject.ref.kind == Task && c.target.ref.kind == Task)
  }

  function LinksOf(g: Graph, k: LinkKind): set<Link> {
    if k == Depends then g.depends else g.blocks
  }

  function WithLinks(g: Graph, k: LinkKind, links: set<Link>): Graph {
    if k == Depends then g.(depends := links) else g.(blocks := links)
  }

  ghost predicate LinkChecks(g: Graph, c: LinkChange) {
    && LinkGuard(c) && Ready(g, c.subject) && Ready(g, c.target)
    && (c.add ==> |LinksOf(g, c.kind)| <= EDGE_BUDGET
                  && !Reaches(LinksOf(g, c.kind), c.target.ref, c.subject.ref))
  }

  function Relinked(g: Graph, c: LinkChange): Graph {
    var l := {(c.subject.ref, c.target.ref)};
    var links := LinksOf(g, c.kind);
    WithLinks(g, c.kind, if c.add then links + l else links - l)
      .(nodes := Bump(g.nodes, {c.subject.ref, c.target.ref}))
  }

  ghost function SetLink(g: Graph, c: LinkChange): Option<Graph> {
    if LinkChecks(g, c) then Some(Relinked(g, c)) else None
  }

  // ---- what every request keeps

  /** One parent at most, of a kind that may contain the child. */
  ghost predicate GoodParents(g: Graph) {
    && (forall l | l in g.children :: l.0 in g.nodes && l.1 in g.nodes && MayContain(l.0.kind, l.1.kind))
    && (forall l, m | l in g.children && m in g.children && l.1 == m.1 :: l == m)
  }

  /** One Arena at most, and only directly above a parentless Initiative or Task. */
  ghost predicate GoodMembers(g: Graph) {
    && (forall m | m in g.members :: m.0 in g.arenas && m.1 in g.nodes && DirectKind(m.1.kind))
    && (forall m, n | m in g.members && n in g.members && m.1 == n.1 :: m == n)
    && (forall m, l | m in g.members && l in g.children :: l.1 != m.1)
  }

  ghost predicate WellContained(g: Graph) {
    GoodParents(g) && GoodMembers(g)
  }

  lemma SameSet<T>(s: set<T>, x: T)
    requires x in s && forall y | y in s :: y == x
    ensures s == {x} && |s| == 1
  {
    assert s == {x};
  }

  lemma ParentsFew(g: Graph, r: Ref)
    requires GoodParents(g)
    ensures |Parents(g, r)| <= 1
    ensures forall l | l in g.children && l.1 == r :: Parents(g, r) == {l.0}
  {
    if l :| l in g.children && l.1 == r {
      SameSet(Parents(g, r), l.0);
    } else {
      assert Parents(g, r) == {};
    }
  }

  lemma ArenasFew(g: Graph, r: Ref)
    requires GoodMembers(g)
    ensures |ArenasOf(g, r)| <= 1
    ensures forall m | m in g.members && m.1 == r :: ArenasOf(g, r) == {m.0}
    ensures ArenasOf(g, r) != {} ==> DirectKind(r.kind) && Parents(g, r) == {}
  {
    if m :| m in g.members && m.1 == r {
      SameSet(ArenasOf(g, r), m.0);
      assert Parents(g, r) == {};
    } else {
      assert ArenasOf(g, r) == {};
    }
  }

  /** From a well-formed state the walk always arrives: no conflict, no cycle, nothing missing. */
  lemma {:induction false} ClimbArrives(g: Graph, r: Ref, visited: set<Ref>)
    requires WellContained(g) && r in g.nodes && (forall v | v in visited :: Level(r.kind) < Level(v.kind))
    ensures r.kind != Todo ==> Climb(g, r, visited).Placed?
    ensures !Climb(g, r, visited).Conflict? && !Climb(g, r, visited).Missing?
    decreases |g.nodes.Keys - visited|
  {
    ParentsFew(g, r);
    ArenasFew(g, r);
    if |Parents(g, r)| == 0 {
      RootArrives(g, r);
    } else {
      var up := The(Parents(g, r));
      assert (up, r) in g.children;
      assert g.nodes.Keys - visited == (g.nodes.Keys - (visited + {r})) + {r};
      ClimbArrives(g, up, visited + {r});
    }
  }

  lemma RootArrives(g: Graph, r: Ref)
    requires GoodMembers(g)
    ensures r.kind != Todo ==> AtRoot(g, r).Placed?
    ensures !AtRoot(g, r).Conflict? && !AtRoot(g, r).Missing?
  {
    ArenasFew(g, r);
    if |ArenasOf(g, r)| == 1 {
      assert (The(ArenasOf(g, r)), r) in g.members;
    }
  }

  /** So membership is answered for every work object but a base Todo, and never with a conflict. */
  lemma MembershipAnswers(g: Graph, r: Ref)
    requires WellContained(g) && r in g.nodes
    ensures Membership(g, r).Placed? <==> r.kind != Todo
    ensures !Membership(g, r).Conflict? && !Membership(g, r).Missing?
  {
    ClimbArrives(g, r, {});
    if r.kind == Todo {
      ParentsFew(g, r);
      assert Parents(g, r) == {};
      RootArrives(g, r);
    }
  }

  /** A graph of one base Todo, whose membership cannot be answered. */
  lemma TodoUnanswered()
    ensures exists g: Graph, r: Ref :: WellContained(g) && r in g.nodes && Membership(g, r).Unrepresentable?
  {
    var r := Ref(Todo, 0);
    var g := Graph(map[r := Node(1, false, false)], map[], {}, {}, {}, {});
    assert WellContained(g);
    assert Parents(g, r) == {} && ArenasOf(g, r) == {};
    assert Membership(g, r) == AtRoot(g, r);
  }

  lemma {:induction false} ClimbRoot(g: Graph, r: Ref, visited: set<Ref>)
    requires Climb(g, r, visited).Placed?
    ensures Climb(g, r, visited).root !in visited
    decreases |g.nodes.Keys - visited|
  {
    if |Parents(g, r)| != 0 {
      assert g.nodes.Keys - visited == (g.nodes.Keys - (visited + {r})) + {r};
      ClimbRoot(g, The(Parents(g, r)), visited + {r});
    }
  }

  /** Work that is its own root has no parent, and its Arena is its own. */
  lemma OwnRoot(g: Graph, r: Ref)
    requires Membership(g, r).Placed? && Membership(g, r).root == r
    ensures Parents(g, r) == {}
    ensures ArenasOf(g, r) == if Membership(g, r).arena.Some? then {Membership(g, r).arena.value} else {}
  {
    if |Parents(g, r)| != 0 {
      assert g.nodes.Keys == (g.nodes.Keys - {r}) + {r};
      ClimbRoot(g, The(Parents(g, r)), {} + {r});
    } else if |ArenasOf(g, r)| == 1 {
      OnlyOne(ArenasOf(g, r));
    }
  }

  lemma OnlyOne<T(!new)>(s: set<T>)
    requires |s| == 1
    ensures s == {The(s)}
  {
    var x := The(s);
    assert |s - {x}| == 0;
  }

  lemma BumpKeys(nodes: map<Ref, Node>, touched: set<Ref>)
    ensures Bump(nodes, touched).Keys == nodes.Keys
  {
  }

  lemma BumpArenaKeys(arenas: map<Id, ArenaRecord>, touched: set<Id>)
    ensures BumpArenas(arenas, touched).Keys == arenas.Keys
  {
  }

  lemma ReparentedParents(g: Graph, c: ParentChange)
    requires GoodParents(g) && ParentChecks(g, c)
    ensures GoodParents(Reparented(g, c))
  {
    BumpKeys(g.nodes, {c.child.ref} + Named(c.previous) + Named(c.parent));
    hide Bump, BumpArenas;
  }

  function Elsewhere(members: set<Member>, r: Ref): set<Member> {
    set m | m in members && m.1 != r
  }

  lemma ReparentedElsewhere(g: Graph, c: ParentChange)
    requires ArenasOf(g, c.child.ref) == NamedArena(c.arena)
    ensures Reparented(g, c).members == Elsewhere(g.members, c.child.ref)
  {
    hide Bump, BumpArenas;
    assert forall m | m in g.members && m.1 == c.child.ref :: m.0 in ArenasOf(g, c.child.ref);
  }

  lemma ReparentedMembers(g: Graph, c: ParentChange)
    requires GoodMembers(g) && ParentChecks(g, c) && ArenaChecks(g, c)
    ensures GoodMembers(Reparented(g, c))
  {
    ReparentedElsewhere(g, c);
    BumpKeys(g.nodes, {c.child.ref} + Named(c.previous) + Named(c.parent));
    BumpArenaKeys(g.arenas, NamedArena(c.arena));
    hide Bump, BumpArenas, Membership, ParentChecks, ArenaChecks, DirectKind;
    assert forall l | l in Reparented(g, c).children :: l in g.children || l.1 == c.child.ref;
  }

  lemma SetParentKeeps(g: Graph, c: ParentChange)
    requires WellContained(g) && SetParent(g, c).Some?
    ensures WellContained(SetParent(g, c).value)
  {
    hide GoodParents, GoodMembers, ParentChecks, ArenaChecks, Reparented;
    ReparentedParents(g, c);
    ReparentedMembers(g, c);
  }

  lemma RehomedOwn(g: Graph, c: MemberChange)
    requires MemberChecks(g, c)
    ensures Parents(g, c.member.ref) == {} && ArenasOf(g, c.member.ref) == NamedArena(c.previous)
  {
    OwnRoot(g, c.member.ref);
  }

  lemma RehomedElsewhere(g: Graph, c: MemberChange)
    requires ArenasOf(g, c.member.ref) == NamedArena(c.previous)
    ensures Rehomed(g, c).members
         == Elsewhere(g.members, c.member.ref) + (set a | a in NamedArena(c.arena) :: (a, c.member.ref))
  {
    hide Bump, BumpArenas;
    assert forall m | m in g.members && m.1 == c.member.ref :: m.0 in ArenasOf(g, c.member.ref);
  }

  lemma MembersMoved(g: Graph, h: Graph, r: Ref, to: Option<Id>)
    requires GoodMembers(g) && h.children == g.children
             && h.nodes.Keys == g.nodes.Keys && h.arenas.Keys == g.arenas.Keys
    requires h.members == Elsewhere(g.members, r) + (if to.Some? then {(to.value, r)} else {})
    requires r in g.nodes && DirectKind(r.kind) && (to.Some? ==> to.value in g.arenas) && Parents(g, r) == {}
    ensures GoodMembers(h)
  {
    assert forall l | l in g.children && l.1 == r :: l.0 in Parents(g, r);
    hide Parents, DirectKind;
  }

  lemma RehomedMembers(g: Graph, c: MemberChange)
    requires GoodMembers(g) && MemberChecks(g, c)
    ensures GoodMembers(Rehomed(g, c))
  {
    var r := c.member.ref;
    RehomedOwn(g, c);
    RehomedElsewhere(g, c);
    BumpKeys(g.nodes, {r});
    BumpArenaKeys(g.arenas, NamedArena(c.previous) + NamedArena(c.arena));
    hide Bump, BumpArenas, Membership, GoodMembers, Parents, ArenasOf, Elsewhere;
    MembersMoved(g, Rehomed(g, c), r, if c.arena.Some? then Some(c.arena.value.id) else None);
  }

  lemma SetMemberKeeps(g: Graph, c: MemberChange)
    requires WellContained(g) && SetMember(g, c).Some?
    ensures WellContained(SetMember(g, c).value)
  {
    RehomedMembers(g, c);
    BumpKeys(g.nodes, {c.member.ref});
    hide GoodMembers, Membership, Bump, BumpArenas;
  }

  // ---- runs

  datatype Step =
    | Create(ref: Ref)
    | CreateArena(arena: Id)
    | Mark(ref: Ref, archived: bool, done: bool)       // archive, restore or a change of progress
    | MarkArena(arena: Id, archived: bool)             // patch or archive
    | DoParent(parent: ParentChange)
    | DoMember(member: MemberChange)
    | DoLink(link: LinkChange)

  const EMPTY := Graph(map[], map[], {}, {}, {}, {})

  ghost function Next(g: Graph, p: Step): Graph {
    match p
    case Create(r) => if r in g.nodes || !TodoKind(r.kind) then g else g.(nodes := g.nodes[r := Node(1, false, false)])
    case CreateArena(a) => if a in g.arenas then g else g.(arenas := g.arenas[a := ArenaRecord(1, false)])
    case Mark(r, archived, done) =>
      if r in g.nodes then g.(nodes := g.nodes[r := Node(g.nodes[r].version + 1, archived, done)]) else g
    case MarkArena(a, archived) =>
      if a in g.arenas then g.(arenas := g.arenas[a := ArenaRecord(g.arenas[a].version + 1, archived)]) else g
    case DoParent(c) => if SetParent(g, c).Some? then SetParent(g, c).value else g
    case DoMember(c) => if SetMember(g, c).Some? then SetMember(g, c).value else g
    case DoLink(c) => if SetLink(g, c).Some? then SetLink(g, c).value else g
  }

  ghost function Run(g: Graph, steps: seq<Step>): Graph
    decreases |steps|
  {
    if steps == [] then g else Run(Next(g, steps[0]), steps[1..])
  }

  ghost predicate Sound(g: Graph) {
    WellContained(g) && Acyclic(g.depends) && Acyclic(g.blocks)
  }

  lemma ContainedFrame(g: Graph, h: Graph)
    requires WellContained(g) && h.children == g.children && h.members == g.members
    requires g.nodes.Keys <= h.nodes.Keys && g.arenas.Keys <= h.arenas.Keys
    ensures WellContained(h)
  {
  }

  lemma SetLinkKeeps(g: Graph, c: LinkChange)
    requires Sound(g) && SetLink(g, c).Some?
    ensures Sound(SetLink(g, c).value)
  {
    var links := LinksOf(g, c.kind);
    BumpKeys(g.nodes, {c.subject.ref, c.target.ref});
    hide Bump, Acyclic, Reaches, WellContained;
    AcyclicExact(links, c.subject.ref, c.target.ref);
    FewerLinks(links, links - {(c.subject.ref, c.target.ref)});
    ContainedFrame(g, Relinked(g, c));
  }

  lemma NextKeeps(g: Graph, p: Step)
    requires Sound(g)
    ensures Sound(Next(g, p))
  {
    hide Acyclic, Reaches, WellContained, SetLink, SetParent, SetMember;
    match p
    case DoParent(c) =>
      if SetParent(g, c).Some? { SetParentKeeps(g, c); ParentLinks(g, c); }
    case DoMember(c) =>
      if SetMember(g, c).Some? { SetMemberKeeps(g, c); MemberLinks(g, c); }
    case DoLink(c) => if SetLink(g, c).Some? { SetLinkKeeps(g, c); }
    case _ => ContainedFrame(g, Next(g, p));
  }

  lemma ParentLinks(g: Graph, c: ParentChange)
    requires SetParent(g, c).Some?
    ensures SetParent(g, c).value.depends == g.depends && SetParent(g, c).value.blocks == g.blocks
  {
  }

  lemma MemberLinks(g: Graph, c: MemberChange)
    requires SetMember(g, c).Some?
    ensures SetMember(g, c).value.depends == g.depends && SetMember(g, c).value.blocks == g.blocks
  {
  }

  lemma {:induction false} RunKeeps(g: Graph, steps: seq<Step>)
    requires Sound(g)
    ensures Sound(Run(g, steps))
    decreases |steps|
  {
    hide Sound, Next;
    if steps != [] {
      NextKeeps(g, steps[0]);
      RunKeeps(Next(g, steps[0]), steps[1..]);
    }
  }

  lemma EmptySound()
    ensures Sound(EMPTY)
  {
    var none: set<Link> := {};
    assert forall p: seq<Ref> | Walk(none, p) && |p| > 1 :: (p[0], p[0 + 1]) in none;
  }

  /**
   In every graph that requests can build: at most one parent, of an allowed kind; at most one Arena,
   on parentless Initiatives and Tasks only; no cycle of dependencies or of blockers; and membership
   is answered for everything but a base Todo.
   */
  lemma AlwaysSound(steps: seq<Step>, r: Ref)
    ensures Sound(Run(EMPTY, steps))
    ensures r in Run(EMPTY, steps).nodes ==> !Membership(Run(EMPTY, steps), r).Conflict?
    ensures r in Run(EMPTY, steps).nodes && r.kind != Todo ==> Membership(Run(EMPTY, steps), r).Placed?
  {
    EmptySound();
    RunKeeps(EMPTY, steps);
    hide Run, Membership, GoodParents, GoodMembers, Acyclic;
    if r in Run(EMPTY, steps).nodes {
      MembershipAnswers(Run(EMPTY, steps), r);
    }
  }
}
