/** What an accepted change of parent, Arena or link does, when it is accepted, and whom it carries along. */
module ContainmentMoves {
  import opened Basics
  import opened ResourcePaths
  import opened WorkGraph
  import opened Containment

  // ---- membership by walks

  lemma ClimbStep(g: Graph, up: Ref, r: Ref, visited: set<Ref>)
    requires WellContained(g) && (up, r) in g.children && r !in visited
    ensures Climb(g, r, visited) == Climb(g, up, visited + {r})
  {
    ParentsFew(g, r);
    ArenasFew(g, r);
    assert r in g.nodes && MayContain(up.kind, r.kind);
    assert up in Parents(g, r);
    hide GoodParents, GoodMembers, AtRoot, DirectKind, MayContain;
    OnlyOne(Parents(g, r));
    assert g.nodes.Keys - visited == (g.nodes.Keys - (visited + {r})) + {r};
  }

  lemma ClimbTop(g: Graph, r: Ref, visited: set<Ref>)
    requires WellContained(g) && r in g.nodes && Parents(g, r) == {} && r !in visited
    ensures Climb(g, r, visited) == AtRoot(g, r)
  {
    ArenasFew(g, r);
    hide GoodParents, GoodMembers, AtRoot, DirectKind;
  }

  /** What the walk has visited does not matter, since every step goes up a level. */
  lemma {:induction false} ClimbAnyway(g: Graph, r: Ref, visited: set<Ref>)
    requires WellContained(g) && r in g.nodes && (forall v | v in visited :: Level(r.kind) < Level(v.kind))
    ensures Climb(g, r, visited) == Climb(g, r, {})
    decreases Level(r.kind)
  {
    hide Climb, GoodMembers;
    if Parents(g, r) == {} {
      ClimbTop(g, r, visited);
      ClimbTop(g, r, {});
    } else {
      var up :| up in Parents(g, r);
      assert (up, r) in g.children;
      ClimbStep(g, up, r, visited);
      ClimbStep(g, up, r, {});
      ClimbAnyway(g, up, visited + {r});
      ClimbAnyway(g, up, {} + {r});
    }
  }

  lemma MembershipUp(g: Graph, up: Ref, r: Ref)
    requires WellContained(g) && (up, r) in g.children
    ensures Membership(g, r) == Membership(g, up)
  {
    hide Climb, GoodMembers;
    ClimbStep(g, up, r, {});
    ClimbAnyway(g, up, {} + {r});
  }

  lemma MembershipTop(g: Graph, r: Ref)
    requires WellContained(g) && r in g.nodes && Parents(g, r) == {}
    ensures Membership(g, r) == AtRoot(g, r)
  {
    hide Climb, WellContained;
    ClimbTop(g, r, {});
  }

  /** Whatever lies below a node is where the node is. */
  lemma {:induction false} MembershipAlong(g: Graph, p: seq<Ref>)
    requires WellContained(g) && Walk(g.children, p) && p[0] in g.nodes
    ensures Membership(g, p[|p| - 1]) == Membership(g, p[0])
    decreases |p|
  {
    hide WellContained, Membership;
    if |p| > 1 {
      var n := |p| - 1;
      assert Walk(g.children, p[..n]);
      MembershipAlong(g, p[..n]);
      assert (p[n - 1], p[n - 1 + 1]) in g.children;
      MembershipUp(g, p[n - 1], p[n]);
    }
  }

  lemma MembershipBelow(g: Graph, top: Ref, r: Ref)
    requires WellContained(g) && top in g.nodes && Reaches(g.children, top, r)
    ensures Membership(g, r) == Membership(g, top)
  {
    hide WellContained, Membership;
    var p :| WalkBetween(g.children, p, top, r);
    MembershipAlong(g, p);
  }

  lemma {:induction false} HasTop(g: Graph, r: Ref) returns (top: Ref)
    requires WellContained(g) && r in g.nodes
    ensures top in g.nodes && Reaches(g.children, top, r) && Parents(g, top) == {}
    decreases Level(r.kind)
  {
    hide Reaches, GoodMembers;
    if Parents(g, r) == {} {
      ReachesSelf(g.children, r);
      top := r;
    } else {
      var up :| up in Parents(g, r);
      assert (up, r) in g.children;
      top := HasTop(g, up);
      ReachesOn(g.children, top, up, r);
    }
  }

  function Only(a: Option<Id>): set<Id> {
    if a.Some? then {a.value} else {}
  }

  lemma TopExact(g: Graph, top: Ref, a: Option<Id>)
    requires WellContained(g) && top in g.nodes && top.kind != Todo && Parents(g, top) == {}
    ensures Membership(g, top) == Placed(a, top) <==> ArenasOf(g, top) == Only(a)
    ensures Membership(g, top).Placed? && Membership(g, top).root == top
  {
    MembershipTop(g, top);
    RootArrives(g, top);
    ArenasFew(g, top);
    hide Membership, GoodParents, GoodMembers, DirectKind;
    if |ArenasOf(g, top)| == 1 {
      OnlyOne(ArenasOf(g, top));
    } else {
      assert ArenasOf(g, top) == {};
    }
  }

  /** Work is placed at the parentless work that it descends from, and in the Arena of that work. */
  lemma MembershipExact(g: Graph, r: Ref, a: Option<Id>, top: Ref)
    requires WellContained(g) && r in g.nodes && r.kind != Todo && top in g.nodes
    ensures Membership(g, r) == Placed(a, top) <==>
            Reaches(g.children, top, r) && Parents(g, top) == {} && ArenasOf(g, top) == Only(a)
  {
    var x := HasTop(g, r);
    NotTodo(g, x, r);
    MembershipBelow(g, x, r);
    hide WellContained, Membership, Reaches, Parents, ArenasOf;
    TopExact(g, x, a);
    if Reaches(g.children, top, r) && Parents(g, top) == {} {
      NotTodo(g, top, r);
      MembershipBelow(g, top, r);
      TopExact(g, top, a);
    }
  }

  /** A base Todo has no children. */
  lemma NotTodo(g: Graph, top: Ref, r: Ref)
    requires GoodParents(g) && r.kind != Todo && Reaches(g.children, top, r)
    ensures top.kind != Todo
  {
    var p :| WalkBetween(g.children, p, top, r);
    if |p| > 1 {
      assert (p[0], p[0 + 1]) in g.children;
    }
  }

  // ---- a change at one node

  /** Two graphs that agree on the parents and Arenas of everything but `x`. */
  ghost predicate SameBut(g: Graph, h: Graph, x: Ref) {
    && h.nodes.Keys == g.nodes.Keys && h.arenas.Keys == g.arenas.Keys
    && forall r | r != x :: Parents(h, r) == Parents(g, r) && ArenasOf(h, r) == ArenasOf(g, r)
  }

  lemma {:induction false} SameElsewhere(g: Graph, h: Graph, x: Ref, r: Ref)
    requires WellContained(g) && WellContained(h) && SameBut(g, h, x)
    requires r in g.nodes && !Reaches(g.children, x, r)
    ensures Membership(h, r) == Membership(g, r)
    decreases Level(r.kind)
  {
    ReachesSelf(g.children, x);
    hide Reaches, Membership, GoodMembers;
    if Parents(g, r) == {} {
      MembershipTop(g, r);
      MembershipTop(h, r);
      assert ArenasOf(h, r) == ArenasOf(g, r);
    } else {
      var up :| up in Parents(g, r);
      assert (up, r) in g.children && up in Parents(h, r);
      if Reaches(g.children, x, up) { ReachesOn(g.children, x, up, r); }
      SameElsewhere(g, h, x, up);
      MembershipUp(g, up, r);
      assert (up, r) in h.children;
      MembershipUp(h, up, r);
    }
  }

  /** A walk down from `x` never comes back to it, so it is there in both graphs. */
  lemma {:induction false} Descends(g: Graph, p: seq<Ref>, i: nat)
    requires GoodParents(g) && Walk(g.children, p) && 0 < i < |p|
    ensures Level(p[0].kind) < Level(p[i].kind)
    decreases i
  {
    assert (p[i - 1], p[i - 1 + 1]) in g.children;
    if i > 1 {
      Descends(g, p, i - 1);
    }
  }

  lemma WalkStays(g: Graph, h: Graph, p: seq<Ref>)
    requires GoodParents(g) && Walk(g.children, p) && SameBut(g, h, p[0])
    ensures Walk(h.children, p)
  {
    hide GoodParents;
    forall i | 0 <= i < |p| - 1 ensures (p[i], p[i + 1]) in h.children {
      Descends(g, p, i + 1);
      assert (p[i], p[i + 1]) in g.children;
      assert p[i] in Parents(g, p[i + 1]);
      assert p[i] in Parents(h, p[i + 1]);
    }
  }

  lemma CarriedAlong(g: Graph, h: Graph, x: Ref, r: Ref)
    requires WellContained(g) && WellContained(h) && SameBut(g, h, x)
    requires x in g.nodes && Reaches(g.children, x, r)
    ensures Membership(h, r) == Membership(h, x)
  {
    hide GoodParents, GoodMembers, Membership;
    var p :| WalkBetween(g.children, p, x, r);
    WalkStays(g, h, p);
    MembershipAlong(h, p);
  }

  // ---- versions

  ghost predicate Bumped(before: map<Ref, Node>, after: map<Ref, Node>, touched: set<Ref>) {
    && after.Keys == before.Keys
    && forall r | r in before :: && after[r].archived == before[r].archived && after[r].done == before[r].done
                                 && after[r].version == before[r].version + (if r in touched then 1 else 0)
  }

  ghost predicate ArenasBumped(before: map<Id, ArenaRecord>, after: map<Id, ArenaRecord>, touched: set<Id>) {
    && after.Keys == before.Keys
    && forall a | a in before :: && after[a].archived == before[a].archived
                                 && after[a].version == before[a].version + (if a in touched then 1 else 0)
  }

  lemma BumpExact(nodes: map<Ref, Node>, touched: set<Ref>)
    ensures Bumped(nodes, Bump(nodes, touched), touched)
  {
  }

  lemma BumpArenasExact(arenas: map<Id, ArenaRecord>, touched: set<Id>)
    ensures ArenasBumped(arenas, BumpArenas(arenas, touched), touched)
  {
  }

  // ---- the change of parent

  /** The child has the parent asked for and no Arena of its own, and nothing else is moved. */
  lemma SetParentDoes(g: Graph, c: ParentChange)
    requires SetParent(g, c).Some?
    ensures var h, x := SetParent(g, c).value, c.child.ref;
      && Parents(h, x) == Named(c.parent) && ArenasOf(h, x) == {} && SameBut(g, h, x)
      && Bumped(g.nodes, h.nodes, {x} + Named(c.previous) + Named(c.parent))
      && ArenasBumped(g.arenas, h.arenas, NamedArena(c.arena))
      && h.depends == g.depends && h.blocks == g.blocks
  {
    var h, x := Reparented(g, c), c.child.ref;
    BumpExact(g.nodes, {x} + Named(c.previous) + Named(c.parent));
    BumpArenasExact(g.arenas, NamedArena(c.arena));
    ReparentedElsewhere(g, c);
    hide Bump, BumpArenas, ParentChecks, ArenaChecks, Bumped, ArenasBumped;
    ParentsReplaced(g.children, h.children, x, Named(c.parent), g, h);
    MembersDropped(g, h, x);
    assert h.nodes.Keys == g.nodes.Keys && h.arenas.Keys == g.arenas.Keys by {
      BumpKeys(g.nodes, {x} + Named(c.previous) + Named(c.parent));
      BumpArenaKeys(g.arenas, NamedArena(c.arena));
    }
  }

  lemma ParentsReplaced(before: set<Link>, after: set<Link>, x: Ref, parents: set<Ref>, g: Graph, h: Graph)
    requires g.children == before && h.children == after
    requires after == (set l | l in before && l.1 != x) + (set p | p in parents :: (p, x))
    ensures Parents(h, x) == parents && forall r | r != x :: Parents(h, r) == Parents(g, r)
  {
    forall p ensures p in Parents(h, x) <==> p in parents {
      assert p in Parents(h, x) <==> (p, x) in after;
    }
    forall r | r != x ensures Parents(h, r) == Parents(g, r) {
      forall p ensures p in Parents(h, r) <==> p in Parents(g, r) {
        assert p in Parents(h, r) <==> (p, r) in after;
        assert p in Parents(g, r) <==> (p, r) in before;
      }
    }
  }

  lemma MembersDropped(g: Graph, h: Graph, x: Ref)
    requires h.members == Elsewhere(g.members, x)
    ensures ArenasOf(h, x) == {} && forall r | r != x :: ArenasOf(h, r) == ArenasOf(g, r)
  {
    forall r | r != x ensures ArenasOf(h, r) == ArenasOf(g, r) {
      forall a ensures a in ArenasOf(h, r) <==> a in ArenasOf(g, r) {
        assert a in ArenasOf(h, r) <==> (a, r) in h.members;
        assert a in ArenasOf(g, r) <==> (a, r) in g.members;
      }
    }
  }

  /** The child and all that lies below it go where the new parent is; everything else stays where it was. */
  lemma SetParentMoves(g: Graph, c: ParentChange, r: Ref)
    requires WellContained(g) && SetParent(g, c).Some? && r in g.nodes
    ensures var h, x := SetParent(g, c).value, c.child.ref;
      Membership(h, r) ==
        if !Reaches(g.children, x, r) then Membership(g, r)
        else if c.parent.Some? then Membership(g, c.parent.value.ref)
        else Placed(None, x)
  {
    var h, x := SetParent(g, c).value, c.child.ref;
    SetParentDoes(g, c);
    SetParentKeeps(g, c);
    ParentThere(g, c);
    hide SetParent, WellContained, Membership, Reaches, SameBut, Parents, ArenasOf;
    if !Reaches(g.children, x, r) {
      SameElsewhere(g, h, x, r);
    } else {
      CarriedAlong(g, h, x, r);
      if c.parent.Some? {
        var up := c.parent.value.ref;
        NotBelow(g, x, up);
        SameElsewhere(g, h, x, up);
        ParentLink(h, up, x);
        MembershipUp(h, up, x);
      } else {
        TopExact(h, x, None);
      }
    }
  }

  lemma ParentLink(h: Graph, up: Ref, x: Ref)
    requires up in Parents(h, x)
    ensures (up, x) in h.children
  {
  }

  lemma ParentThere(g: Graph, c: ParentChange)
    requires SetParent(g, c).Some?
    ensures c.child.ref in g.nodes && c.child.ref.kind != Todo
    ensures c.parent.Some? ==> c.parent.value.ref in g.nodes
    ensures c.parent.Some? ==> Level(c.parent.value.ref.kind) < Level(c.child.ref.kind)
    ensures SetParent(g, c).value.nodes.Keys == g.nodes.Keys
  {
    hide ArenaChecks;
    BumpKeys(g.nodes, {c.child.ref} + Named(c.previous) + Named(c.parent));
  }

  lemma NotBelow(g: Graph, x: Ref, up: Ref)
    requires WellContained(g) && Level(up.kind) < Level(x.kind)
    ensures !Reaches(g.children, x, up)
  {
    if Reaches(g.children, x, up) {
      var p :| WalkBetween(g.children, p, x, up);
      if |p| > 1 { Descends(g, p, |p| - 1); }
    }
  }

  /**
   From a well-formed graph a change of parent is accepted if and only if everything that it names is what it says,
   at the version seen and open, and the new parent may contain the child. The other checks never refuse anything.
   */
  lemma SetParentExactly(g: Graph, c: ParentChange)
    requires WellContained(g)
    ensures SetParent(g, c).Some? <==>
            && Ready(g, c.child) && c.child.ref.kind in {Project, Issue, Task}
            && (c.previous.Some? || c.parent.Some?) && |g.children| <= EDGE_BUDGET
            && Parents(g, c.child.ref) == Named(c.previous) && (c.previous.Some? ==> Ready(g, c.previous.value))
            && ArenasOf(g, c.child.ref) == NamedArena(c.arena) && (c.arena.Some? ==> Current(g, c.arena.value))
            && (c.parent.Some? ==> Ready(g, c.parent.value) && MayContain(c.parent.value.ref.kind, c.child.ref.kind))
  {
    var x := c.child.ref;
    ParentsFew(g, x);
    ArenasFew(g, x);
    if x in g.nodes { MembershipAnswers(g, x); }
    hide Membership, GoodMembers;
    if c.previous.Some? && Parents(g, x) == Named(c.previous) {
      assert c.previous.value.ref in Parents(g, x);
      assert (c.previous.value.ref, x) in g.children;
    }
  }

  // ---- the change of Arena

  lemma SetMemberDoes(g: Graph, c: MemberChange)
    requires SetMember(g, c).Some?
    ensures var h, x := SetMember(g, c).value, c.member.ref;
      && ArenasOf(h, x) == NamedArena(c.arena) && Parents(h, x) == Parents(g, x) && SameBut(g, h, x)
      && Bumped(g.nodes, h.nodes, {x})
      && ArenasBumped(g.arenas, h.arenas, NamedArena(c.previous) + NamedArena(c.arena))
      && h.children == g.children && h.depends == g.depends && h.blocks == g.blocks
  {
    var h, x := Rehomed(g, c), c.member.ref;
    RehomedOwn(g, c);
    RehomedElsewhere(g, c);
    BumpExact(g.nodes, {x});
    BumpArenasExact(g.arenas, NamedArena(c.previous) + NamedArena(c.arena));
    BumpKeys(g.nodes, {x});
    BumpArenaKeys(g.arenas, NamedArena(c.previous) + NamedArena(c.arena));
    hide Bump, BumpArenas, MemberChecks, Bumped, ArenasBumped;
    MembersReplaced(g, h, x, NamedArena(c.arena));
  }

  lemma MembersReplaced(g: Graph, h: Graph, x: Ref, arenas: set<Id>)
    requires h.members == Elsewhere(g.members, x) + (set a | a in arenas :: (a, x))
    ensures ArenasOf(h, x) == arenas && forall r | r != x :: ArenasOf(h, r) == ArenasOf(g, r)
  {
    forall a ensures a in ArenasOf(h, x) <==> a in arenas {
      assert a in ArenasOf(h, x) <==> (a, x) in h.members;
    }
    forall r | r != x ensures ArenasOf(h, r) == ArenasOf(g, r) {
      forall a ensures a in ArenasOf(h, r) <==> a in ArenasOf(g, r) {
        assert a in ArenasOf(h, r) <==> (a, r) in h.members;
        assert a in ArenasOf(g, r) <==> (a, r) in g.members;
      }
    }
  }

  /** The member and all that lies below it are in the new Arena; everything else stays where it was. */
  lemma SetMemberMoves(g: Graph, c: MemberChange, r: Ref)
    requires WellContained(g) && SetMember(g, c).Some? && r in g.nodes
    ensures var h, x := SetMember(g, c).value, c.member.ref;
      Membership(h, r) ==
        if !Reaches(g.children, x, r) then Membership(g, r)
        else Placed(if c.arena.Some? then Some(c.arena.value.id) else None, x)
  {
    var h, x := SetMember(g, c).value, c.member.ref;
    SetMemberDoes(g, c);
    SetMemberKeeps(g, c);
    RehomedOwn(g, c);
    assert x in g.nodes && x.kind != Todo && h.nodes.Keys == g.nodes.Keys;
    hide SetMember, MemberChecks, WellContained, Membership, Reaches, SameBut, Parents, ArenasOf;
    if !Reaches(g.children, x, r) {
      SameElsewhere(g, h, x, r);
    } else {
      CarriedAlong(g, h, x, r);
      TopExact(h, x, if c.arena.Some? then Some(c.arena.value.id) else None);
    }
  }

  /** From a well-formed graph: exactly when the member has no parent, and what the request names is so. */
  lemma SetMemberExactly(g: Graph, c: MemberChange)
    requires WellContained(g)
    ensures SetMember(g, c).Some? <==>
            var x := c.member.ref;
            && x in g.nodes && g.nodes[x].version == c.member.version && !g.nodes[x].archived
            && x.kind in {Initiative, Task} && (c.previous.Some? || c.arena.Some?)
            && Parents(g, x) == {} && ArenasOf(g, x) == NamedArena(c.previous)
            && (c.previous.Some? ==> Current(g, c.previous.value))
            && (c.arena.Some? ==> Current(g, c.arena.value) && !g.arenas[c.arena.value.id].archived)
  {
    var x := c.member.ref;
    var was := if c.previous.Some? then Some(c.previous.value.id) else None;
    hide Membership, WellContained;
    if x in g.nodes && x.kind in {Initiative, Task} {
      if Parents(g, x) == {} {
        TopExact(g, x, was);
      } else if Membership(g, x) == Placed(was, x) {
        OwnRoot(g, x);
      }
    }
  }

  // ---- the change of a link

  lemma SetLinkDoes(g: Graph, c: LinkChange)
    requires SetLink(g, c).Some?
    ensures var h, l := SetLink(g, c).value, (c.subject.ref, c.target.ref);
      && (forall k: Link :: k in LinksOf(h, c.kind) <==> if k == l then c.add else k in LinksOf(g, c.kind))
      && (forall other | other != c.kind :: LinksOf(h, other) == LinksOf(g, other))
      && Bumped(g.nodes, h.nodes, {c.subject.ref, c.target.ref})
      && h.arenas == g.arenas && h.children == g.children && h.members == g.members
  {
    BumpExact(g.nodes, {c.subject.ref, c.target.ref});
    hide Bump, Bumped, Reaches;
  }

  /** Accepted if and only if both ends are open at the versions seen, and the links then have no cycle. */
  lemma SetLinkExactly(g: Graph, c: LinkChange)
    requires Sound(g)
    ensures SetLink(g, c).Some? <==>
            && c.subject.ref != c.target.ref && Ready(g, c.subject) && Ready(g, c.target)
            && (c.kind == Blocks ==> c.subject.ref.kind == Task && c.target.ref.kind == Task)
            && (c.add ==> |LinksOf(g, c.kind)| <= EDGE_BUDGET
                          && Acyclic(LinksOf(g, c.kind) + {(c.subject.ref, c.target.ref)}))
  {
    hide Acyclic, Reaches, WellContained;
    AcyclicExact(LinksOf(g, c.kind), c.subject.ref, c.target.ref);
  }
}
