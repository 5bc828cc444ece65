/** The requests as they edit the stored graph, each proved against its specification. */
module GraphStore {
  import opened Basics
  import opened ResourcePaths
  import opened WorkGraph
  import opened Containment

  /** The ancestor walk, with the set of nodes that it has visited. */
  method MembershipOf(g: Graph, r: Ref) returns (p: Placement)
    ensures p == Membership(g, r)
  {
    hide MayContain;
    var current, visited := r, {};
    while true
      invariant Climb(g, current, visited) == Membership(g, r)
      decreases |g.nodes.Keys - visited|
    {
      if current in visited { return Conflict; }
      if current !in g.nodes { return Missing; }
      assert g.nodes.Keys - visited == (g.nodes.Keys - (visited + {current})) + {current};
      var incoming, direct := Parents(g, current), ArenasOf(g, current);
      if |incoming| > 1 || DirectFault(g, current) { return Conflict; }
      if incoming == {} {
        p := Root(g, current);
        return;
      }
      OnlyOne(incoming);
      var up :| up in incoming;
      if direct != {} || !MayContain(up.kind, current.kind) { return Conflict; }
      visited := visited + {current};
      current := up;
    }
  }

  method Root(g: Graph, r: Ref) returns (p: Placement)
    requires !DirectFault(g, r)
    ensures p == AtRoot(g, r)
  {
    var direct := ArenasOf(g, r);
    if direct == {} { return if r.kind == Todo then Unrepresentable else Placed(None, r); }
    OnlyOne(direct);
    var a :| a in direct;
    if a !in g.arenas { return Missing; }
    return if r.kind == Todo then Unrepresentable else Placed(Some(a), r);
  }

  lemma BumpNone(nodes: map<Ref, Node>)
    ensures Bump(nodes, {}) == nodes
  {
  }

  lemma BumpOne(nodes: map<Ref, Node>, touched: set<Ref>, r: Ref)
    requires r in nodes && r !in touched
    ensures Bump(nodes, touched + {r})
         == Bump(nodes, touched)[r := nodes[r].(version := nodes[r].version + 1)]
    ensures r in Bump(nodes, touched) && Bump(nodes, touched)[r] == nodes[r]
  {
  }

  class Store {
    var g: Graph

    constructor ()
      ensures g == EMPTY
    {
      g := EMPTY;
    }

    /** Raises the version of each touched work object by one. */
    method BumpEach(touched: set<Ref>)
      requires touched <= g.nodes.Keys
      modifies this
      ensures g == old(g).(nodes := Bump(old(g).nodes, touched))
    {
      hide Bump;
      var nodes, rest := g.nodes, touched;
      BumpNone(nodes);
      assert touched - rest == {};
      while rest != {}
        invariant g == old(g) && rest <= touched && nodes == Bump(g.nodes, touched - rest)
        decreases |rest|
      {
        var r :| r in rest;
        BumpOne(g.nodes, touched - rest, r);
        assert touched - (rest - {r}) == (touched - rest) + {r};
        nodes := nodes[r := nodes[r].(version := nodes[r].version + 1)];
        rest := rest - {r};
      }
      assert touched - {} == touched;
      g := g.(nodes := nodes);
    }

    method ParentSet(c: ParentChange) returns (ok: bool)
      modifies this
      ensures ok == SetParent(old(g), c).Some?
      ensures g == if ok then SetParent(old(g), c).value else old(g)
    {
      hide Bump, BumpArenas, Membership;
      var child := c.child.ref;
      if !ParentChecks(g, c) { return false; }
      if DirectFault(g, child) || ArenasOf(g, child) != NamedArena(c.arena) { return false; }
      if c.arena.Some? {
        var placement := MembershipOf(g, child);
        if !placement.Placed? || !Current(g, c.arena.value) { return false; }
      }
      assert ArenaChecks(g, c);
      g := g.(members := (set m | m in g.members && !(c.arena.Some? && m == (c.arena.value.id, child))),
              arenas := BumpArenas(g.arenas, NamedArena(c.arena)));
      g := g.(children := (set l | l in g.children && l.1 != child));
      g := g.(children := g.children + (set p | p in Named(c.parent) :: (p, child)));
      BumpEach({child} + Named(c.previous) + Named(c.parent));
      return true;
    }

    method MemberSet(c: MemberChange) returns (ok: bool)
      modifies this
      ensures ok == SetMember(old(g), c).Some?
      ensures g == if ok then SetMember(old(g), c).value else old(g)
    {
      hide Bump, BumpArenas, Membership;
      var r := c.member.ref;
      if !MemberGuard(c) || r !in g.nodes || g.nodes[r].version != c.member.version || g.nodes[r].archived {
        return false;
      }
      var placement := MembershipOf(g, r);
      if placement != Placed(if c.previous.Some? then Some(c.previous.value.id) else None, r) { return false; }
      if (c.previous.Some? && !Current(g, c.previous.value)) || (c.arena.Some? && !Current(g, c.arena.value)) {
        return false;
      }
      if c.arena.Some? && g.arenas[c.arena.value.id].archived { return false; }
      g := g.(members := g.members - (set a | a in NamedArena(c.previous) :: (a, r)));
      g := g.(members := g.members + (set a | a in NamedArena(c.arena) :: (a, r)));
      g := g.(arenas := BumpArenas(g.arenas, NamedArena(c.previous) + NamedArena(c.arena)));
      BumpEach({r});
      return true;
    }

    /** The search refuses a link if and only if it would close a cycle. */
    method LinkSet(c: LinkChange) returns (ok: bool)
      modifies this
      ensures ok == SetLink(old(g), c).Some?
      ensures g == if ok then SetLink(old(g), c).value else old(g)
    {
      hide Bump, Reaches;
      if !LinkGuard(c) || !Ready(g, c.subject) || !Ready(g, c.target) { return false; }
      var links, l := LinksOf(g, c.kind), {(c.subject.ref, c.target.ref)};
      if c.add {
        if |links| > EDGE_BUDGET { return false; }
        var cycle := Search(links, c.subject.ref, c.target.ref);
        if cycle { return false; }
        g := WithLinks(g, c.kind, links + l);
      } else {
        g := WithLinks(g, c.kind, links - l);
      }
      BumpEach({c.subject.ref, c.target.ref});
      return true;
    }
  }
}
