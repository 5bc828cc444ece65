/** Arena placement for many keys at once: read level by level, then resolve with a shared memo. */
module MembershipBatch {
  import opened Basics
  import opened ResourcePaths
  import opened Containment

  const MAX_KEYS := 10000
  const CAPACITY := 40000

  datatype Entry = Entry(parent: Option<Ref>, arena: Option<Id>)

  /** What one read of the store yields, or None where it raises. */
  ghost function Look(g: Graph, r: Ref): Option<Entry> {
    if r !in g.nodes || DirectFault(g, r) || |Parents(g, r)| > 1 then None
    else if |Parents(g, r)| == 0 then
      Some(Entry(None, if |ArenasOf(g, r)| == 1 then Some(The(ArenasOf(g, r))) else None))
    else if ArenasOf(g, r) != {} || !MayContain(The(Parents(g, r)).kind, r.kind) then None
    else Some(Entry(Some(The(Parents(g, r))), None))
  }

  lemma LookUp(g: Graph, r: Ref)
    requires Look(g, r).Some? && Look(g, r).value.parent.Some?
    ensures 1 <= Level(Look(g, r).value.parent.value.kind) < Level(r.kind) <= 4
  {
  }

  /** Every read on the way to the root succeeds. */
  ghost predicate Traces(g: Graph, r: Ref)
    decreases Level(r.kind)
  {
    Look(g, r).Some?
    && (Look(g, r).value.parent.Some? ==> (LookUp(g, r); Traces(g, Look(g, r).value.parent.value)))
  }

  /** The Arena at the root. */
  ghost function TracedArena(g: Graph, r: Ref): Option<Id>
    requires Traces(g, r)
    decreases Level(r.kind)
  {
    var e := Look(g, r).value;
    if e.parent.None? then e.arena else (LookUp(g, r); TracedArena(g, e.parent.value))
  }

  /** The ancestor walk answers with the Arena at the root, and conflicts exactly where a read fails. */
  lemma {:induction false} ClimbTraces(g: Graph, r: Ref, visited: set<Ref>)
    requires forall v | v in visited :: Level(r.kind) < Level(v.kind)
    ensures Climb(g, r, visited).Placed? ==> Traces(g, r) && TracedArena(g, r) == Climb(g, r, visited).arena
    ensures Climb(g, r, visited).Conflict? ==> !Traces(g, r)
    ensures Traces(g, r) ==> !Climb(g, r, visited).Conflict?
    decreases |g.nodes.Keys - visited|
  {
    if Look(g, r).Some? && Look(g, r).value.parent.Some? {
      LookUp(g, r);
      assert g.nodes.Keys - visited == (g.nodes.Keys - (visited + {r})) + {r};
      ClimbTraces(g, Look(g, r).value.parent.value, visited + {r});
    }
  }

  // ---- reading the frontiers

  type Captured = map<Ref, Entry>

  ghost predicate Faithful(g: Graph, captured: Captured) {
    forall r | r in captured :: Look(g, r) == Some(captured[r])
  }

  ghost function ParentsOf(g: Graph, frontier: set<Ref>): set<Ref> {
    set r | r in frontier && Look(g, r).Some? && Look(g, r).value.parent.Some? :: Look(g, r).value.parent.value
  }

  method Read(g: Graph, r: Ref) returns (e: Option<Entry>)
    ensures e == Look(g, r)
  {
    if r !in g.nodes || DirectFault(g, r) { return None; }
    var incoming, direct := Parents(g, r), ArenasOf(g, r);
    if |incoming| > 1 { return None; }
    if incoming == {} {
      if direct == {} { return Some(Entry(None, None)); }
      OnlyOne(direct);
      var a :| a in direct;
      return Some(Entry(None, Some(a)));
    }
    OnlyOne(incoming);
    var up :| up in incoming;
    if direct != {} || !MayContain(up.kind, r.kind) { return None; }
    return Some(Entry(Some(up), None));
  }

  function Elements(xs: seq<Ref>): set<Ref> {
    set x | x in xs
  }

  /** What has been read when `done` of a frontier is done. */
  ghost predicate Reading(g: Graph, before: Captured, done: set<Ref>, captured: Captured, pending: set<Ref>) {
    && Faithful(g, captured) && captured.Keys == before.Keys + done
    && (forall r | r in done :: Look(g, r).Some?)
    && Unread(pending, ParentsOf(g, done), captured)
  }

  /** Each read adds one entry and one parent at most. */
  predicate Counted(before: Captured, n: nat, captured: Captured, pending: set<Ref>) {
    |pending| <= n && |captured| <= |before| + n
  }

  lemma CountedMore(before: Captured, n: nat, captured: Captured, pending: set<Ref>, r: Ref, e: Entry, next: set<Ref>)
    requires Counted(before, n, captured, pending)
    requires next == if e.parent.Some? && e.parent.value !in captured then pending + {e.parent.value} else pending
    ensures Counted(before, n + 1, captured[r := e], next)
  {
    CountMore(captured, r, e);
    if e.parent.Some? {
      CountPending(pending, e.parent.value);
    }
  }

  /** Some of the parents, among them all that are not entries yet. */
  predicate Unread(pending: set<Ref>, parents: set<Ref>, captured: Captured) {
    pending <= parents && parents - captured.Keys <= pending
  }

  lemma FaithfulMore(g: Graph, captured: Captured, r: Ref, e: Entry)
    requires Faithful(g, captured) && Look(g, r) == Some(e)
    ensures Faithful(g, captured[r := e])
  {
    hide Look;
  }

  lemma PendingMore(pending: set<Ref>, parents: set<Ref>, captured: Captured, r: Ref, e: Entry, next: set<Ref>)
    requires Unread(pending, parents, captured)
    requires next == if e.parent.Some? && e.parent.value !in captured then pending + {e.parent.value} else pending
    ensures Unread(next, parents + Up(e), captured[r := e])
  {
  }

  lemma CountPending(pending: set<Ref>, r: Ref)
    ensures |pending + {r}| <= |pending| + 1
  {
  }

  function Up(e: Entry): set<Ref> {
    if e.parent.Some? then {e.parent.value} else {}
  }

  lemma ReadingMore(g: Graph, before: Captured, done: set<Ref>, captured: Captured, pending: set<Ref>, r: Ref,
                    e: Entry, next: set<Ref>)
    requires Reading(g, before, done, captured, pending) && Look(g, r) == Some(e)
    requires next == if e.parent.Some? && e.parent.value !in captured then pending + {e.parent.value} else pending
    ensures Reading(g, before, done + {r}, captured[r := e], next)
  {
    hide Look, ParentsOf, Faithful, Up, Unread;
    ParentsMore(g, done, r);
    FaithfulMore(g, captured, r, e);
    assert captured[r := e].Keys == captured.Keys + {r};
    assert before.Keys + done + {r} == before.Keys + (done + {r});
    PendingMore(pending, ParentsOf(g, done), captured, r, e, next);
  }

  /** One frontier: every key of it is read once, and its unread parents are next. */
  method Round(g: Graph, frontier: seq<Ref>, before: Captured) returns (ok: bool, captured: Captured, pending: set<Ref>)
    requires Faithful(g, before)
    ensures ok <==> forall r | r in frontier :: Look(g, r).Some?
    ensures ok ==> Faithful(g, captured) && captured.Keys == before.Keys + Elements(frontier)
    ensures ok ==> pending == ParentsOf(g, Elements(frontier)) - captured.Keys
    ensures ok ==> |pending| <= |frontier| && |captured| <= |before| + |frontier|
  {
    hide Look, ParentsOf, Faithful, Reading, Counted;
    captured, pending := before, {};
    ReadingNone(g, before);
    for i := 0 to |frontier|
      invariant Reading(g, before, Elements(frontier[..i]), captured, pending)
      invariant Counted(before, i, captured, pending)
    {
      var r := frontier[i];
      assert Elements(frontier[..i + 1]) == Elements(frontier[..i]) + {r};
      var e := Read(g, r);
      if e.None? { return false, captured, pending; }
      ghost var was := pending;
      if e.value.parent.Some? && e.value.parent.value !in captured {
        pending := pending + {e.value.parent.value};
      }
      ReadingMore(g, before, Elements(frontier[..i]), captured, was, r, e.value, pending);
      CountedMore(before, i, captured, was, r, e.value, pending);
      captured := captured[r := e.value];
    }
    assert frontier[..|frontier|] == frontier;
    ReadingDone(g, before, Elements(frontier), |frontier|, captured, pending);
    return true, captured, pending - captured.Keys;
  }

  lemma ReadingNone(g: Graph, before: Captured)
    requires Faithful(g, before)
    ensures Reading(g, before, Elements([]), before, {}) && Counted(before, 0, before, {})
  {
    hide Faithful, Look;
  }

  lemma ReadingDone(g: Graph, before: Captured, done: set<Ref>, n: nat, captured: Captured, pending: set<Ref>)
    requires Reading(g, before, done, captured, pending) && Counted(before, n, captured, pending)
    ensures Faithful(g, captured) && captured.Keys == before.Keys + done
    ensures forall r | r in done :: Look(g, r).Some?
    ensures pending - captured.Keys == ParentsOf(g, done) - captured.Keys
    ensures |pending - captured.Keys| <= n && |captured| <= |before| + n
  {
    CountLess(pending, captured.Keys);
    hide Look, ParentsOf, Faithful;
  }

  /** The members of a set in some order. */
  method Sorted(s: set<Ref>) returns (xs: seq<Ref>)
    ensures Elements(xs) == s && |xs| == |s|
  {
    xs := [];
    var rest := s;
    while rest != {}
      invariant rest <= s && Elements(xs) == s - rest && |xs| + |rest| == |s|
      decreases rest
    {
      var x :| x in rest;
      assert Elements(xs + [x]) == Elements(xs) + {x};
      xs, rest := xs + [x], rest - {x};
    }
  }

  lemma ParentsMore(g: Graph, frontier: set<Ref>, r: Ref)
    requires Look(g, r).Some?
    ensures ParentsOf(g, frontier + {r})
         == ParentsOf(g, frontier) + Up(Look(g, r).value)
  {
    hide Look;
  }

  lemma CountMore(captured: Captured, r: Ref, e: Entry)
    ensures |captured[r := e]| <= |captured| + 1
  {
    assert captured[r := e].Keys == captured.Keys + {r};
    assert |captured[r := e].Keys| <= |captured.Keys| + 1;
  }

  lemma CountLess(s: set<Ref>, t: set<Ref>)
    ensures |s - t| <= |s|
  {
    assert s == (s - t) + (s * t);
  }

  /** Entries whose parents are entries too. */
  ghost predicate Closed(captured: Captured) {
    forall r | r in captured && captured[r].parent.Some? ::
      captured[r].parent.value in captured && Level(captured[r].parent.value.kind) < Level(r.kind)
  }

  // ---- the frontiers come to an end

  /** After `n` frontiers the unread parents are at least `n` levels up. */
  ghost predicate Climbing(g: Graph, keys: set<Ref>, captured: Captured, pending: set<Ref>, n: nat) {
    && Faithful(g, captured)
    && (forall r | r in captured && captured[r].parent.Some? ::
          captured[r].parent.value in captured || captured[r].parent.value in pending)
    && keys <= captured.Keys + pending
    && (n > 0 ==> forall r | r in pending :: 1 <= Level(r.kind) <= 4 - n)
  }

  lemma NextFrontier(g: Graph, keys: set<Ref>, before: Captured, frontier: set<Ref>, n: nat,
                     captured: Captured, pending: set<Ref>)
    requires Climbing(g, keys, before, frontier, n) && Faithful(g, captured)
    requires captured.Keys == before.Keys + frontier && pending == ParentsOf(g, frontier) - captured.Keys
    ensures Climbing(g, keys, captured, pending, n + 1)
  {
    forall r | r in pending ensures 1 <= Level(r.kind) <= 4 - (n + 1) {
      var c :| c in frontier && Look(g, c).Some? && Look(g, c).value.parent == Some(r);
      LookUp(g, c);
    }
    hide Look;
    forall r | r in captured && captured[r].parent.Some?
      ensures captured[r].parent.value in captured || captured[r].parent.value in pending
    {
      if r in frontier {
        assert captured[r].parent.value in ParentsOf(g, frontier);
      } else {
        assert Look(g, r) == Some(before[r]);
      }
    }
  }

  lemma ClosedAtEnd(g: Graph, keys: set<Ref>, captured: Captured, n: nat)
    requires Climbing(g, keys, captured, {}, n)
    ensures Closed(captured) && keys <= captured.Keys
  {
    forall r | r in captured && captured[r].parent.Some?
      ensures Level(captured[r].parent.value.kind) < Level(r.kind)
    {
      LookUp(g, r);
    }
    hide Look;
  }

  /** A key whose ancestor cannot be read cannot be traced. */
  ghost predicate Blames(g: Graph, keys: set<Ref>, pending: set<Ref>) {
    (forall k | k in keys :: Traces(g, k)) ==> forall r | r in pending :: Traces(g, r)
  }

  lemma BlamesUp(g: Graph, keys: set<Ref>, frontier: set<Ref>, pending: set<Ref>)
    requires Blames(g, keys, frontier) && pending <= ParentsOf(g, frontier)
    ensures Blames(g, keys, pending)
  {
    if forall k | k in keys :: Traces(g, k) {
      forall r | r in pending ensures Traces(g, r) {
        var c :| c in frontier && Look(g, c).Some? && Look(g, c).value.parent == Some(r);
        assert Traces(g, c);
      }
    }
  }

  lemma FaultBlames(g: Graph, keys: set<Ref>, frontier: set<Ref>)
    requires Blames(g, keys, frontier) && exists r | r in frontier :: Look(g, r).None?
    ensures exists k | k in keys :: !Traces(g, k)
  {
    var r :| r in frontier && Look(g, r).None?;
    assert !Traces(g, r);
  }

  /** At most four frontiers, and never more entries than there is room for. */
  method CaptureAll(g: Graph, keys: set<Ref>) returns (ok: bool, captured: Captured, ghost rounds: nat)
    requires |keys| <= MAX_KEYS
    ensures rounds <= 4
    ensures ok ==> Faithful(g, captured) && Closed(captured) && keys <= captured.Keys
    ensures !ok ==> exists k | k in keys :: !Traces(g, k)
  {
    captured := map[];
    var pending := keys;
    rounds := 0;
    hide Look, Traces;
    while pending != {}
      invariant rounds <= 4 && Climbing(g, keys, captured, pending, rounds) && Blames(g, keys, pending)
      invariant |captured| <= rounds * MAX_KEYS && |pending| <= MAX_KEYS
      decreases 4 - rounds
    {
      hide Climbing, Blames;
      StillBelow(g, keys, captured, pending, rounds);
      var frontier := Sorted(pending);
      ghost var was, before := pending, captured;
      var read: bool;
      read, captured, pending := Round(g, frontier, captured);
      if !read {
        FaultBlames(g, keys, was);
        return false, captured, rounds;
      }
      NextFrontier(g, keys, before, was, rounds, captured, pending);
      BlamesUp(g, keys, was, pending);
      rounds := rounds + 1;
      TopReached(g, keys, captured, pending, rounds);
      if |captured| + |pending| > CAPACITY {
        assert false; // "capacity exceeded" cannot be raised here
      }
    }
    ClosedAtEnd(g, keys, captured, rounds);
    return true, captured, rounds;
  }

  lemma StillBelow(g: Graph, keys: set<Ref>, captured: Captured, pending: set<Ref>, n: nat)
    requires Climbing(g, keys, captured, pending, n) && pending != {} && n <= 4
    ensures n < 4 && Faithful(g, captured)
  {
    var r :| r in pending;
    assert n > 0 ==> 1 <= Level(r.kind) <= 4 - n;
  }

  lemma TopReached(g: Graph, keys: set<Ref>, captured: Captured, pending: set<Ref>, n: nat)
    requires Climbing(g, keys, captured, pending, n) && n > 0
    ensures n == 4 ==> pending == {}
  {
    assert n == 4 ==> forall r | r in pending :: 1 <= Level(r.kind) <= 0;
  }

  // ---- resolving with a memo

  /** The Arena that an entry inherits. */
  ghost function Inherited(captured: Captured, r: Ref): Option<Id>
    requires Closed(captured) && r in captured
    decreases Level(r.kind)
  {
    if captured[r].parent.None? then captured[r].arena else Inherited(captured, captured[r].parent.value)
  }

  lemma {:induction false} InheritedTraced(g: Graph, captured: Captured, r: Ref)
    requires Faithful(g, captured) && Closed(captured) && r in captured
    ensures Traces(g, r) && TracedArena(g, r) == Inherited(captured, r)
    decreases Level(r.kind)
  {
    hide Look;
    assert Look(g, r) == Some(captured[r]);
    if captured[r].parent.Some? {
      LookUp(g, r);
      InheritedTraced(g, captured, captured[r].parent.value);
    }
  }

  ghost predicate Right(captured: Captured, resolved: map<Ref, Option<Id>>)
    requires Closed(captured)
  {
    forall r | r in resolved :: r in captured && resolved[r] == Inherited(captured, r)
  }

  /** Walks up from `key` until something is known, then remembers it for the whole trail. */
  method ResolveOne(captured: Captured, key: Ref, memo: map<Ref, Option<Id>>) returns (resolved: map<Ref, Option<Id>>)
    requires Closed(captured) && key in captured && Right(captured, memo)
    ensures Right(captured, resolved) && key in resolved && memo.Keys <= resolved.Keys
  {
    resolved := memo;
    var trail, current, arena := [], key, None;
    var rooted := false;
    while current !in resolved && !rooted
      invariant current in captured && Inherited(captured, current) == Inherited(captured, key)
      invariant forall r | r in trail :: r in captured && Inherited(captured, r) == Inherited(captured, key)
      invariant key in trail || current == key
      invariant rooted ==> key in trail && arena == Inherited(captured, key)
      decreases Level(current.kind), if rooted then 0 else 1
    {
      trail := trail + [current];
      var e := captured[current];
      if e.parent.None? {
        arena, rooted := e.arena, true;
      } else {
        current := e.parent.value;
      }
    }
    if !rooted { arena := resolved[current]; }
    for i := 0 to |trail|
      invariant Right(captured, resolved) && memo.Keys <= resolved.Keys
      invariant forall r | r in trail[..i] :: r in resolved
      invariant key in trail || key in resolved
    {
      resolved := resolved[trail[i] := arena];
    }
    assert trail[..|trail|] == trail;
  }

  method MembershipIds(g: Graph, keys: seq<Ref>) returns (r: Option<map<Ref, Option<Id>>>)
    ensures r.Some? <==>
            |keys| <= MAX_KEYS && Distinct(keys) && forall k | k in keys :: Traces(g, k)
    ensures r.Some? ==> (forall k :: k in r.value <==> k in keys)
    ensures r.Some? ==> forall k | k in keys :: r.value[k] == TracedArena(g, k)
  {
    hide Look, Traces, TracedArena, Inherited;
    if |keys| > MAX_KEYS || !Distinct(keys) { return None; }
    var all := set k | k in keys;
    var ok, captured, _ := CaptureAll(g, all);
    if !ok { return None; }
    forall k | k in keys ensures Traces(g, k) && TracedArena(g, k) == Inherited(captured, k) {
      InheritedTraced(g, captured, k);
    }
    var resolved := map[];
    for i := 0 to |keys|
      invariant Right(captured, resolved) && forall k | k in keys[..i] :: k in resolved
    {
      resolved := ResolveOne(captured, keys[i], resolved);
    }
    assert keys[..|keys|] == keys;
    return Some(map k | k in all :: resolved[k]);
  }

  predicate Distinct(keys: seq<Ref>) {
    |set k | k in keys| == |keys|
  }

  /** Wherever the one-by-one walk answers, the batch gives the same Arena. */
  lemma BatchAgrees(g: Graph, k: Ref)
    requires Membership(g, k).Placed?
    ensures Traces(g, k) && TracedArena(g, k) == Membership(g, k).arena
  {
    ClimbTraces(g, k, {});
  }
}
