/** Dependencies and blockers: links between work that must never form a cycle. */
module WorkGraph {
  import opened ResourcePaths

  type Link = (Ref, Ref)

  ghost predicate Walk(links: set<Link>, p: seq<Ref>) {
    |p| > 0 && forall i | 0 <= i < |p| - 1 :: (p[i], p[i + 1]) in links
  }

  ghost predicate WalkBetween(links: set<Link>, p: seq<Ref>, a: Ref, b: Ref) {
    Walk(links, p) && p[0] == a && p[|p| - 1] == b
  }

  /** By any number of links, none included. */
  ghost predicate Reaches(links: set<Link>, a: Ref, b: Ref) {
    exists p :: WalkBetween(links, p, a, b)
  }

  ghost predicate Acyclic(links: set<Link>) {
    forall p | Walk(links, p) && |p| > 1 :: p[0] != p[|p| - 1]
  }

  lemma ReachesSelf(links: set<Link>, a: Ref)
    ensures Reaches(links, a, a)
  {
    assert WalkBetween(links, [a], a, a);
  }

  lemma ReachesOn(links: set<Link>, a: Ref, b: Ref, c: Ref)
    requires Reaches(links, a, b) && (b, c) in links
    ensures Reaches(links, a, c)
  {
    var p :| WalkBetween(links, p, a, b);
    assert WalkBetween(links, p + [c], a, c);
  }

  // ---- a new link closes a cycle exactly when its source is reachable from its target

  /** The steps of a walk that are this link. */
  ghost predicate Uses(p: seq<Ref>, l: Link, i: int) {
    0 <= i < |p| - 1 && (p[i], p[i + 1]) == l
  }

  lemma {:induction false} FirstUse(p: seq<Ref>, l: Link, n: nat) returns (i: nat)
    requires Uses(p, l, n)
    ensures Uses(p, l, i) && forall j | 0 <= j < i :: !Uses(p, l, j)
    decreases n
  {
    if j :| 0 <= j < n && Uses(p, l, j) {
      i := FirstUse(p, l, j);
    } else {
      i := n;
    }
  }

  lemma {:induction false} LastUse(p: seq<Ref>, l: Link, n: nat) returns (i: nat)
    requires Uses(p, l, n)
    ensures Uses(p, l, i) && forall j | i < j :: !Uses(p, l, j)
    decreases |p| - n
  {
    if j :| n < j && Uses(p, l, j) {
      i := LastUse(p, l, j);
    } else {
      i := n;
    }
  }

  /** A cycle through the new link runs from its target back to its source over old links. */
  lemma CycleOpens(links: set<Link>, s: Ref, t: Ref, p: seq<Ref>, n: nat)
    requires Walk(links + {(s, t)}, p) && p[0] == p[|p| - 1] && Uses(p, (s, t), n)
    ensures Reaches(links, t, s)
  {
    var i := FirstUse(p, (s, t), n);
    var j := LastUse(p, (s, t), n);
    var front, back := p[..i + 1], p[j + 1..];
    var q := back + front[1..];
    forall k | 0 <= k < |q| - 1 ensures (q[k], q[k + 1]) in links {
      if k < |back| - 1 {
        assert !Uses(p, (s, t), j + 1 + k);
      } else {
        var m := k - (|back| - 1);
        assert q[k + 1] == p[m + 1] && q[k] == p[m];
        assert !Uses(p, (s, t), m);
      }
    }
    assert q[|q| - 1] == p[i];
    assert WalkBetween(links, q, t, s);
  }

  lemma AcyclicExact(links: set<Link>, s: Ref, t: Ref)
    requires Acyclic(links)
    ensures Acyclic(links + {(s, t)}) <==> !Reaches(links, t, s)
  {
    if Reaches(links, t, s) {
      CycleCloses(links, s, t);
    } else {
      forall p | Walk(links + {(s, t)}, p) && |p| > 1 ensures p[0] != p[|p| - 1] {
        if p[0] == p[|p| - 1] {
          if n :| Uses(p, (s, t), n) {
            CycleOpens(links, s, t, p, n);
          } else {
            forall i | 0 <= i < |p| - 1 ensures (p[i], p[i + 1]) in links {
              assert !Uses(p, (s, t), i);
            }
            assert Walk(links, p);
          }
        }
      }
    }
  }

  lemma CycleCloses(links: set<Link>, s: Ref, t: Ref)
    requires Reaches(links, t, s)
    ensures !Acyclic(links + {(s, t)})
  {
    var p :| WalkBetween(links, p, t, s);
    var q := p + [t];
    assert Walk(links + {(s, t)}, q) && q[0] == q[|q| - 1];
  }

  lemma FewerLinks(links: set<Link>, fewer: set<Link>)
    requires Acyclic(links) && fewer <= links
    ensures Acyclic(fewer)
  {
    forall p | Walk(fewer, p) && |p| > 1 ensures p[0] != p[|p| - 1] {
      assert Walk(links, p);
    }
  }

  // ---- the search

  function Successors(links: set<Link>, a: Ref): set<Ref> {
    set l | l in links && l.0 == a :: l.1
  }

  function Listing(adjacency: map<Ref, set<Ref>>, a: Ref): set<Ref> {
    if a in adjacency then adjacency[a] else {}
  }

  ghost predicate Lists(adjacency: map<Ref, set<Ref>>, links: set<Link>) {
    forall a :: Listing(adjacency, a) == Successors(links, a)
  }

  lemma ListsMore(adjacency: map<Ref, set<Ref>>, links: set<Link>, l: Link)
    requires Lists(adjacency, links)
    ensures Lists(adjacency[l.0 := Listing(adjacency, l.0) + {l.1}], links + {l})
  {
    var next := adjacency[l.0 := Listing(adjacency, l.0) + {l.1}];
    forall a ensures Listing(next, a) == Successors(links + {l}, a) {
      assert Listing(adjacency, a) == Successors(links, a);
      assert Successors(links + {l}, a) == Successors(links, a) + if a == l.0 then {l.1} else {};
    }
  }

  method Adjacency(links: set<Link>) returns (adjacency: map<Ref, set<Ref>>)
    ensures Lists(adjacency, links)
  {
    adjacency := map[];
    var rest := links;
    assert links - rest == {};
    assert Lists(map[], {});
    hide Lists;
    while rest != {}
      invariant rest <= links && Lists(adjacency, links - rest)
      decreases |rest|
    {
      var l :| l in rest;
      ListsMore(adjacency, links - rest, l);
      assert links - (rest - {l}) == (links - rest) + {l};
      rest := rest - {l};
      adjacency := adjacency[l.0 := Listing(adjacency, l.0) + {l.1}];
    }
    assert links - {} == links;
  }

  method Listed(s: set<Ref>) returns (xs: seq<Ref>)
    ensures forall x :: x in xs <==> x in s
  {
    xs := [];
    var rest := s;
    while rest != {}
      invariant rest <= s && forall x :: x in xs <==> x in s - rest
      decreases |rest|
    {
      var x :| x in rest;
      xs, rest := xs + [x], rest - {x};
    }
  }

  function Nodes(links: set<Link>, start: Ref): set<Ref> {
    {start} + set l | l in links :: l.1
  }

  /** A set that holds the start and all its own successors holds everything reachable. */
  lemma {:induction false} ClosedHoldsAll(links: set<Link>, held: set<Ref>, p: seq<Ref>, i: nat)
    requires Walk(links, p) && p[0] in held && i < |p|
    requires forall a | a in held :: Successors(links, a) <= held
    ensures p[i] in held
    decreases i
  {
    if i > 0 {
      ClosedHoldsAll(links, held, p, i - 1);
      assert (p[i - 1], p[i]) in links;
      assert p[i] in Successors(links, p[i - 1]);
    }
  }

  /** What the search knows: all it holds is reachable, and what it has visited leads nowhere else. */
  ghost predicate Explored(links: set<Link>, source: Ref, target: Ref, pending: seq<Ref>, visited: set<Ref>) {
    && (forall x | x in pending || x in visited :: Reaches(links, target, x) && x in Nodes(links, target))
    && (target in pending || target in visited)
    && source !in visited
    && (forall a, b | a in visited && b in Successors(links, a) :: b in visited || b in pending)
  }

  lemma SkipExplored(links: set<Link>, source: Ref, target: Ref, pending: seq<Ref>, visited: set<Ref>, node: Ref)
    requires Explored(links, source, target, pending + [node], visited) && node in visited
    ensures Explored(links, source, target, pending, visited)
  {
    hide Reaches, Successors, Nodes;
    assert forall x | x in pending + [node] :: x in pending || x == node;
    assert forall x | x in pending :: x in pending + [node];
  }

  lemma VisitExplored(links: set<Link>, source: Ref, target: Ref, pending: seq<Ref>, visited: set<Ref>, node: Ref,
                      next: seq<Ref>)
    requires Explored(links, source, target, pending + [node], visited) && node != source
    requires forall x :: x in next <==> x in Successors(links, node)
    ensures Explored(links, source, target, pending + next, visited + {node})
  {
    assert node in pending + [node];
    forall x | x in next ensures Reaches(links, target, x) && x in Nodes(links, target) {
      ReachesOn(links, target, node, x);
    }
    hide Reaches, Successors, Nodes;
    assert forall x | x in pending + [node] :: x in pending || x == node;
    assert forall x | x in pending :: x in pending + [node];
  }

  lemma NotFound(links: set<Link>, source: Ref, target: Ref, visited: set<Ref>)
    requires Explored(links, source, target, [], visited)
    ensures !Reaches(links, target, source)
  {
    if p :| WalkBetween(links, p, target, source) {
      ClosedHoldsAll(links, visited, p, |p| - 1);
    }
  }

  /** Depth-first from `target`: finds `source` if and only if it can be reached, on any graph. */
  method Search(links: set<Link>, source: Ref, target: Ref) returns (found: bool)
    ensures found <==> Reaches(links, target, source)
  {
    var adjacency := Adjacency(links);
    var pending, visited := [target], {};
    ReachesSelf(links, target);
    hide Reaches;
    assert Explored(links, source, target, pending, visited);
    hide Explored;
    while pending != []
      invariant Explored(links, source, target, pending, visited)
      decreases |Nodes(links, target) - visited|, |pending|
    {
      var node := pending[|pending| - 1];
      assert pending == pending[..|pending| - 1] + [node];
      pending := pending[..|pending| - 1];
      HoldsReached(links, source, target, pending, visited, node);
      if node == source { return true; }
      if node !in visited {
        var next := Listed(Listing(adjacency, node));
        VisitExplored(links, source, target, pending, visited, node, next);
        Shrinks(Nodes(links, target), visited, node);
        visited := visited + {node};
        pending := pending + next;
      } else {
        SkipExplored(links, source, target, pending, visited, node);
      }
    }
    NotFound(links, source, target, visited);
    return false;
  }

  lemma HoldsReached(links: set<Link>, source: Ref, target: Ref, pending: seq<Ref>, visited: set<Ref>, node: Ref)
    requires Explored(links, source, target, pending + [node], visited)
    ensures Reaches(links, target, node) && node in Nodes(links, target)
  {
    hide Reaches, Nodes;
    assert node in pending + [node];
  }

  lemma Shrinks(all: set<Ref>, visited: set<Ref>, node: Ref)
    requires node !in visited && node in all
    ensures |all - (visited + {node})| < |all - visited|
  {
    assert all - visited == (all - (visited + {node})) + {node};
  }
}
