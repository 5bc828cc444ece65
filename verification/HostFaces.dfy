/**
 What an operation of the host does to the part of the state that a client can tell: whether the host is
 disposed, its connection, the mutation in work, and which streams, authorizations and read slots there are.
 */
module HostFaces {
  import opened Basics
  import opened HostState
  import opened HostSteps
  import opened HostInvariant
  import opened HostCalm
  import opened HostOperations
  import opened HostRuns

  // ---- handles

  /** An id that nothing has used: no control, no handle, no target of a cancel, and not the connection. */
  predicate Free(s: State, id: Id) {
    && id !in s.seen && id !in s.generated && id !in s.cancelled
    && (s.connection.Some? ==> s.connection.value.id != id && s.connection.value.read != Some(id))
  }

  lemma FreeExact(s: State, id: Id)
    requires Belongs(s) && Separate(s)
    ensures HandleAvailable(s, id) <==> Free(s, id)
  {
  }

  /** The `i`-th try is the first that yields a free handle. */
  ghost predicate DrawnAt(s: State, tries: seq<Option<Id>>, i: nat, h: Id) {
    && i < 16 && i < |tries| && tries[i] == Some(h) && Free(s, h)
    && forall j | 0 <= j < i :: tries[j].Some? && !Free(s, tries[j].value)
  }

  /** The tries yield the handle `h`. */
  ghost predicate Draws(s: State, tries: seq<Option<Id>>, h: Id) {
    |s.generated| < MAX_CONTROLS && exists i: nat :: DrawnAt(s, tries, i, h)
  }

  ghost predicate Drawable(s: State, tries: seq<Option<Id>>) {
    exists h: Id :: Draws(s, tries, h)
  }

  ghost predicate AllTaken(s: State, tries: seq<Option<Id>>, n: nat) {
    n <= |tries| && forall j | 0 <= j < n :: tries[j].Some? && !Free(s, tries[j].value)
  }

  /** There are too many handles, or sixteen tries in a row have hit one that is taken. */
  ghost predicate Exhausts(s: State, tries: seq<Option<Id>>) {
    || |s.generated| >= MAX_CONTROLS
    || AllTaken(s, tries, 16)
  }

  lemma {:induction false} PickExact(s: State, tries: seq<Option<Id>>, i: nat)
    requires Belongs(s) && Separate(s) && i <= 16 && AllTaken(s, tries, i)
    ensures var (t, h) := PickHandle(s, tries, i);
      && (h.Some? ==> t == s.(generated := s.generated + {h.value}) && exists k: nat :: DrawnAt(s, tries, k, h.value))
      && (h.None? ==> t == (if AllTaken(s, tries, 16) then Clear(s) else s))
      && (h.None? ==> forall x: Id, k: nat :: !DrawnAt(s, tries, k, x))
    decreases 16 - i
  {
    hide Belongs, Separate, Clear, HandleAvailable, Free;
    if i < 16 && i < |tries| && tries[i].Some? {
      FreeExact(s, tries[i].value);
      if HandleAvailable(s, tries[i].value) {
        assert DrawnAt(s, tries, i, tries[i].value);
      } else {
        PickExact(s, tries, i + 1);
      }
    }
  }

  /** A handle is drawn if and only if the tries yield one; the host is cleared exactly when they are exhausted. */
  lemma UniqueExact(s: State, tries: seq<Option<Id>>)
    requires StateInv(s)
    ensures var (t, h) := UniqueHandle(s, tries);
      && (h.Some? ==> Draws(s, tries, h.value) && !Exhausts(s, tries) && t == s.(generated := s.generated + {h.value}))
      && (h.None? ==> t == if Exhausts(s, tries) then Clear(s) else s)
      && (forall x: Id | Draws(s, tries, x) :: h == Some(x))
  {
    hide Belongs, Separate, Owned, Tokens, Recorded, Flagged, Clear, PickHandle, Free, DrawnAt, AllTaken;
    if |s.generated| < MAX_CONTROLS {
      assert AllTaken(s, tries, 0) by { NoneTaken(s, tries); }
      PickExact(s, tries, 0);
      var h := PickHandle(s, tries, 0).1;
      forall x: Id | Draws(s, tries, x) ensures h == Some(x) {
        if h.Some? { DrawnOnce(s, tries, x, h.value); }
      }
      if h.Some? { NotExhausted(s, tries, h.value); }
    }
  }

  lemma NoneTaken(s: State, tries: seq<Option<Id>>)
    ensures AllTaken(s, tries, 0)
  {
  }

  lemma DrawnOnce(s: State, tries: seq<Option<Id>>, x: Id, h: Id)
    requires Draws(s, tries, x) && Draws(s, tries, h)
    ensures h == x
  {
    hide Free;
    var i: nat :| DrawnAt(s, tries, i, x);
    var k: nat :| DrawnAt(s, tries, k, h);
    assert i == k;
  }

  lemma NotExhausted(s: State, tries: seq<Option<Id>>, h: Id)
    requires Draws(s, tries, h)
    ensures !Exhausts(s, tries)
  {
    hide Free;
    var i: nat :| DrawnAt(s, tries, i, h);
    assert tries[i] == Some(h);
  }

  lemma UniqueDrawn(s: State, tries: seq<Option<Id>>, x: Id)
    requires StateInv(s) && Draws(s, tries, x)
    ensures UniqueHandle(s, tries) == (s.(generated := s.generated + {x}), Some(x))
  {
    hide StateInv, UniqueHandle, Draws, Exhausts, Clear;
    UniqueExact(s, tries);
  }

  lemma UniqueExhausted(s: State, tries: seq<Option<Id>>)
    requires StateInv(s) && Exhausts(s, tries)
    ensures UniqueHandle(s, tries) == (Clear(s), None)
  {
    hide StateInv, UniqueHandle, Draws, Exhausts, Clear;
    UniqueExact(s, tries);
  }

  lemma UniqueNone(s: State, tries: seq<Option<Id>>)
    requires StateInv(s) && !Exhausts(s, tries) && !Drawable(s, tries)
    ensures UniqueHandle(s, tries) == (s, None)
  {
    hide StateInv, UniqueHandle, Draws, Exhausts, Clear;
    UniqueExact(s, tries);
  }

  // ---- faces of the operations

  datatype Face = Face(
    disposed: bool,
    connection: Option<Connection>,
    work: Option<Generation>,
    streams: set<Id>,
    objects: map<Id, Stream>,
    authorizations: map<Id, Generation>,
    readSlots: nat,
    generations: nat,               // mutations begun so far
    reserved: multiset<Generation>) // aliases that are still to be taken

  function FaceOf(s: State): Face {
    Face(s.disposed, s.connection, s.work, s.streams, s.objects, s.authorizations, s.readSlots,
         s.nextGeneration, s.reserved)
  }

  /** After a clear: nothing is left. */
  function Bare(f: Face): Face {
    Face(true, None, None, {}, f.objects, map[], 0, f.generations, multiset{})
  }

  /** After the mutation in work has ended: its authorizations and streams are gone, and reads are untouched. */
  function Ended(s: State): Face {
    FaceOf(s).(work := None, streams := ReadStreams(s), authorizations := map[], reserved := multiset{})
  }

  lemma ClearFace(s: State)
    ensures FaceOf(Clear(s)) == Bare(FaceOf(s))
  {
  }

  lemma CancelFace(s: State, hs: set<Handle>)
    ensures FaceOf(CancelAll(s, hs)) == FaceOf(s) && ReadStreams(CancelAll(s, hs)) == ReadStreams(s)
  {
  }

  lemma OnlyReads(s: State, g: Generation)
    requires Belongs(s) && s.Owns(g)
    ensures StreamsWithout(s.streams, s.objects, g) == ReadStreams(s) && Without(s.authorizations, g) == map[]
    ensures s.reserved[g := 0] == multiset{}
  {
  }

  lemma NoneOf(s: State, g: Generation)
    requires Belongs(s) && !s.Owns(g)
    ensures StreamsWithout(s.streams, s.objects, g) == s.streams && Without(s.authorizations, g) == s.authorizations
    ensures s.reserved[g := 0] == s.reserved
  {
  }

  lemma FinishFace(s: State, g: Generation)
    requires Belongs(s)
    ensures FaceOf(FinishMutation(s, g).0) == if s.Owns(g) then Ended(s) else FaceOf(s)
    ensures ReadStreams(FinishMutation(s, g).0) == ReadStreams(s)
  {
    if s.Owns(g) { OnlyReads(s, g); } else { NoneOf(s, g); }
    hide Belongs, StreamsWithout, Without, Retired, PendingWithout, CancelCells;
    assert ReadStreams(s) <= s.streams;
  }

  lemma ReleaseFace(s: State, mutation: Option<Generation>)
    requires Belongs(s)
    ensures FaceOf(Release(s, mutation)) ==
      if mutation.None? then FaceOf(s).(readSlots := LessOne(s.readSlots))
      else if s.Owns(mutation.value) then Ended(s)
      else FaceOf(s)
  {
    hide Belongs, FinishMutation, Ended;
    if mutation.Some? { FinishFace(s, mutation.value); }
  }

  /** One reservation of `g` is used up. */
  function OneLess(f: Face, g: Generation): Face {
    f.(reserved := f.reserved[g := LessOne(f.reserved[g])])
  }

  lemma AliasFace(s: State, id: Id, g: Generation)
    ensures FaceOf(Alias(s, id, g)) == OneLess(FaceOf(s), g) && ReadStreams(Alias(s, id, g)) == ReadStreams(s)
  {
    hide CancelAll, Link;
    LinkFace(s, id, g);
    CancelFace(Link(s, id, g), {OfMutation(g)});
  }

  lemma LinkFace(s: State, id: Id, g: Generation)
    ensures FaceOf(Link(s, id, g)) == OneLess(FaceOf(s), g) && ReadStreams(Link(s, id, g)) == ReadStreams(s)
  {
  }

  lemma PendingFace(s: State, id: Id, mutation: Option<Generation>)
    ensures FaceOf(InsertPending(s, id, mutation)) == FaceOf(s)
  {
    hide CancelAll;
    CancelFace(s, {HandleOf(mutation, id)});
  }

  lemma MutationPendingFace(s: State, id: Id, g: Generation)
    ensures FaceOf(MutationPending(s, id, g)) == OneLess(FaceOf(s), g)
  {
    hide Alias, InsertPending;
    AliasFace(s, id, g);
    PendingFace(Alias(s, id, g), id, Some(g));
  }

  lemma ReserveFace(s: State, g: Generation, n: nat)
    requires Used(s) <= MAX_ALIASES
    ensures var (t, ok) := Reserve(s, g, n);
      && (ok <==> Used(s) + n <= MAX_ALIASES)
      && FaceOf(t) == if ok then FaceOf(s).(reserved := s.reserved[g := s.reserved[g] + n]) else Bare(FaceOf(s))
  {
    hide Used, Clear;
    ClearFace(s);
  }

  /** One more stream; its handle takes the reservation of its mutation. */
  function Opening(s: State, h: Id, control: Id, mutation: Option<Generation>): Face {
    var f := if mutation.Some? then OneLess(FaceOf(s), mutation.value) else FaceOf(s);
    f.(streams := s.streams + {h},
       objects := s.objects[h := Stream(mutation, control, mutation.Some?, false, 0, -1, false)])
  }

  lemma OpenStreamFace(s: State, h: Id, control: Id, mutation: Option<Generation>)
    ensures FaceOf(OpenStream(s, h, control, mutation))
         == Opening(s, h, control, mutation)
  {
    hide Alias;
    if mutation.Some? { AliasFace(s, h, mutation.value); }
  }

  lemma CloseStreamFace(s: State, id: Id)
    requires Belongs(s)
    ensures FaceOf(CloseStream(s, id)) ==
      if id !in s.streams then FaceOf(s)
      else if id in ReadStreams(s)
      then FaceOf(s).(streams := s.streams - {id}, readSlots := LessOne(s.readSlots))
      else Ended(s)
  {
    if id in s.streams && id in s.objects && s.objects[id].mutation.Some? {
      FinishFace(s, s.objects[id].mutation.value);
    }
    hide FinishMutation, Ended;
  }

  lemma CancelPlainFace(s: State, target: Id)
    requires target in s.streams ==> target in s.objects
    ensures FaceOf(CancelPlain(s, target)) ==
      if target in s.streams then FaceOf(s).(streams := s.streams - {target}, readSlots := LessOne(s.readSlots))
      else FaceOf(s)
  {
    hide CancelAll, HandleOf, DropStream;
    if target in s.pending {
      CancelFace(s, {HandleOf(s.pending[target], target)});
    }
    var t := if target in s.pending then CancelAll(s, {HandleOf(s.pending[target], target)}) else s;
    if target in t.streams && target in t.objects { DropFace(t, target); }
  }

  lemma DropFace(s: State, id: Id)
    requires id in s.objects
    ensures FaceOf(DropStream(s, id)) == FaceOf(s).(streams := s.streams - {id}, readSlots := LessOne(s.readSlots))
  {
  }

  lemma CancelTargetFace(s: State, target: Id)
    requires Belongs(s)
    ensures FaceOf(CancelTarget(s, target).0) ==
      if |s.cancelled| >= MAX_CONTROLS && target !in s.cancelled then Bare(FaceOf(s))
      else if target in s.aliases then Ended(s)
      else if target in s.streams then FaceOf(s).(streams := s.streams - {target}, readSlots := LessOne(s.readSlots))
      else FaceOf(s)
  {
    ClearFace(s);
    if target in s.aliases { FinishFace(s, s.aliases[target]); }
    assert s.streams <= s.objects.Keys && (target in s.aliases ==> s.work == Some(s.aliases[target]));
    hide Belongs, Clear, FinishMutation, CancelPlain, Ended;
    CancelPlainFace(Mark(s, target), target);
  }

  // ---- expiry of authorizations

  /** One of the listed authorizations is there. */
  predicate Expires(s: State, expired: seq<Id>) {
    exists a | a in expired :: a in s.authorizations
  }

  lemma {:induction false} ExpiredExact(s: State, expired: seq<Id>)
    requires Belongs(s)
    ensures ExpiredOwners(s, expired) != [] <==> Expires(s, expired)
    ensures forall g | g in ExpiredOwners(s, expired) :: s.work == Some(g)
    decreases |expired|
  {
    if expired != [] {
      ExpiredExact(s, expired[1..]);
      assert expired == [expired[0]] + expired[1..];
      assert forall a :: a in expired <==> a == expired[0] || a in expired[1..];
      if expired[0] in s.authorizations {
        assert s.work == Some(s.authorizations[expired[0]]);
      }
      hide Belongs;
    }
  }

  lemma FinishEachStep(s: State, gs: seq<Generation>)
    ensures FinishEach(s, gs) == if gs == [] then s else FinishEach(FinishMutation(s, gs[0]).0, gs[1..])
  {
  }

  lemma {:induction false} FinishEachFace(s: State, gs: seq<Generation>, g: Generation)
    requires StateInv(s) && 1 <= g <= s.nextGeneration && (forall i | 0 <= i < |gs| :: gs[i] == g)
    ensures FaceOf(FinishEach(s, gs)) == if gs != [] && s.Owns(g) then Ended(s) else FaceOf(s)
    ensures ReadStreams(FinishEach(s, gs)) == ReadStreams(s)
    decreases |gs|
  {
    FinishEachStep(s, gs);
    hide StateInv, Belongs, FinishMutation, ReadStreams, FinishEach;
    if gs != [] {
      StateBelongs(s);
      FinishKeeps(s, g);
      FinishFace(s, g);
      FinishEachFace(FinishMutation(s, g).0, gs[1..], g);
    }
  }

  lemma ExpireFace(s: State, expired: seq<Id>)
    requires StateInv(s)
    ensures FaceOf(ExpireAuthorizations(s, expired)) == if Expires(s, expired) then Ended(s) else FaceOf(s)
    ensures !Expires(s, expired) ==> ExpireAuthorizations(s, expired) == s
  {
    StateBelongs(s);
    var gs := ExpiredOwners(s, expired);
    hide StateInv, Belongs, Ended, ExpiredOwners, Expires, FinishMutation;
    ExpiredExact(s, expired);
    if gs != [] {
      forall i | 0 <= i < |gs| ensures s.work == Some(gs[i]) {
        assert gs[i] in gs;
      }
      WorkRange(s);
      FinishEachFace(s, gs, gs[0]);
    }
  }

  lemma WorkRange(s: State)
    requires Belongs(s) && s.work.Some?
    ensures 1 <= s.work.value <= s.nextGeneration
  {
  }

  // ---- answers

  /** The control is still registered, uncancelled and on its connection, and its mutation is the one in work. */
  predicate Awaited(s: State, id: Id, connectionId: Id, mutation: Option<Generation>) {
    && id in s.pending && HandleOf(mutation, id) !in s.tokens && s.Bound(connectionId)
    && (mutation.Some? ==> s.work == mutation)
  }

  lemma UnpendInv(s: State, id: Id)
    requires StateInv(s)
    ensures StateInv(s.(pending := s.pending - {id}))
  {
    hide StateInv;
    UnpendKeeps(s, id);
  }

  lemma UnpendHandles(s: State, id: Id, tries: seq<Option<Id>>)
    ensures var t := s.(pending := s.pending - {id});
      && (Exhausts(t, tries) <==> Exhausts(s, tries))
      && (forall x: Id :: Draws(t, tries, x) <==> Draws(s, tries, x))
      && (Drawable(t, tries) <==> Drawable(s, tries))
      && FaceOf(t) == FaceOf(s) && ReadStreams(t) == ReadStreams(s)
  {
    var t := s.(pending := s.pending - {id});
    assert forall x: Id :: Free(t, x) <==> Free(s, x);
    assert forall x: Id, i: nat :: DrawnAt(t, tries, i, x) <==> DrawnAt(s, tries, i, x);
  }

  /** The face after an answer that is not published: the mutation ends, or a read slot is given back. */
  function Refused(s: State, mutation: Option<Generation>): Face {
    if mutation.None? then FaceOf(s).(readSlots := LessOne(s.readSlots))
    else if s.work == mutation then Ended(s)
    else FaceOf(s)
  }

  /** A response opens a stream under the handle drawn; without one it is refused, or the host is cleared. */
  ghost predicate Responds(s: State, control: Id, mutation: Option<Generation>, tries: seq<Option<Id>>, f: Face) {
    && (forall x: Id | Draws(s, tries, x) :: f == Opening(s, x, control, mutation))
    && (Exhausts(s, tries) ==> f == Bare(FaceOf(s)))
    && (!Exhausts(s, tries) && !Drawable(s, tries) ==> f == Refused(s, mutation))
  }

  lemma RespondDrawn(s: State, control: Id, mutation: Option<Generation>, tries: seq<Option<Id>>, x: Id)
    requires StateInv(s) && Draws(s, tries, x)
    ensures FaceOf(Respond(s, control, mutation, tries))
         == Opening(s, x, control, mutation)
  {
    hide StateInv, UniqueHandle, Draws, OpenStream;
    UniqueDrawn(s, tries, x);
    OpenStreamFace(s.(generated := s.generated + {x}), x, control, mutation);
  }

  lemma RespondExhausted(s: State, control: Id, mutation: Option<Generation>, tries: seq<Option<Id>>)
    requires StateInv(s) && Exhausts(s, tries)
    ensures FaceOf(Respond(s, control, mutation, tries)) == Bare(FaceOf(s))
  {
    hide StateInv, UniqueHandle, Exhausts, OpenStream, Clear, Release;
    UniqueExhausted(s, tries);
    ClearFace(s);
    ClearBelongs(s);
    ReleaseFace(Clear(s), mutation);
  }

  lemma RespondNone(s: State, control: Id, mutation: Option<Generation>, tries: seq<Option<Id>>)
    requires StateInv(s) && !Exhausts(s, tries) && !Drawable(s, tries)
    ensures FaceOf(Respond(s, control, mutation, tries)) == Refused(s, mutation)
  {
    hide StateInv, Belongs, UniqueHandle, Drawable, Exhausts, OpenStream, Release, ReadStreams;
    StateBelongs(s);
    UniqueNone(s, tries);
    ReleaseFace(s, mutation);
  }

  lemma RespondFace(s: State, control: Id, mutation: Option<Generation>, tries: seq<Option<Id>>)
    requires StateInv(s)
    ensures Responds(s, control, mutation, tries, FaceOf(Respond(s, control, mutation, tries)))
  {
    hide StateInv, Draws, Drawable, Exhausts, Respond, FaceOf, Refused, Bare, Opening;
    forall x: Id | Draws(s, tries, x)
      ensures FaceOf(Respond(s, control, mutation, tries))
           == Opening(s, x, control, mutation)
    {
      RespondDrawn(s, control, mutation, tries, x);
    }
    if Exhausts(s, tries) {
      RespondExhausted(s, control, mutation, tries);
    } else if !Drawable(s, tries) {
      RespondNone(s, control, mutation, tries);
    }
  }

  lemma ClearBelongs(s: State)
    ensures Belongs(Clear(s))
  {
  }

  lemma UnpendResponds(s: State, id: Id, mutation: Option<Generation>, tries: seq<Option<Id>>, f: Face)
    requires Responds(s.(pending := s.pending - {id}), id, mutation, tries, f)
    ensures Responds(s, id, mutation, tries, f)
  {
    UnpendHandles(s, id, tries);
    hide Draws, Exhausts, ReadStreams;
  }

  lemma FinishStreamFace(s: State, id: Id, connectionId: Id, mutation: Option<Generation>, ok: bool,
                         tries: seq<Option<Id>>)
    requires StateInv(s)
    ensures var f := FaceOf(FinishStream(s, id, connectionId, mutation, ok, tries));
      if ok && Awaited(s, id, connectionId, mutation) then Responds(s, id, mutation, tries, f)
      else f == if mutation.Some? || id in s.pending then Refused(s, mutation) else FaceOf(s)
  {
    var t := s.(pending := s.pending - {id});
    hide StateInv, Belongs, Respond, Release, Responds, FaceOf, Refused;
    UnpendKeeps(s, id);
    if ok && Awaited(s, id, connectionId, mutation) {
      RespondFace(t, id, mutation, tries);
      UnpendResponds(s, id, mutation, tries, FaceOf(Respond(t, id, mutation, tries)));
    } else {
      StateBelongs(t);
      RefusedFace(s, id, mutation);
    }
  }

  lemma RefusedFace(s: State, id: Id, mutation: Option<Generation>)
    requires Belongs(s.(pending := s.pending - {id}))
    ensures var t := s.(pending := s.pending - {id});
      FaceOf(t) == FaceOf(s) && FaceOf(Release(t, mutation)) == Refused(s, mutation)
  {
    hide Release, Belongs;
    ReleaseFace(s.(pending := s.pending - {id}), mutation);
  }

  /** An authorization is published under the handle drawn, if the clock can be read; else the mutation ends. */
  ghost predicate Authorizes(s: State, g: Generation, tries: seq<Option<Id>>, clock: bool, f: Face) {
    && (Exhausts(s, tries) ==> f == Bare(FaceOf(s)))
    && (forall x: Id | clock && Draws(s, tries, x) ::
          f == OneLess(FaceOf(s), g).(authorizations := s.authorizations[x := g]))
    && (!Exhausts(s, tries) && !(clock && Drawable(s, tries)) ==> f == Ended(s))
  }

  lemma GrantDrawn(s: State, g: Generation, tries: seq<Option<Id>>, clock: bool, x: Id)
    requires StateInv(s) && s.Owns(g) && Draws(s, tries, x)
    ensures FaceOf(Grant(s, g, tries, clock))
         == if clock then OneLess(FaceOf(s), g).(authorizations := s.authorizations[x := g]) else Ended(s)
  {
    hide StateInv, Belongs, UniqueHandle, Draws, Alias, FinishMutation, Ended;
    StateBelongs(s);
    UniqueDrawn(s, tries, x);
    HandedFace(s, x, g);
  }

  lemma GrantExhausted(s: State, g: Generation, tries: seq<Option<Id>>, clock: bool)
    requires StateInv(s) && Exhausts(s, tries)
    ensures FaceOf(Grant(s, g, tries, clock)) == Bare(FaceOf(s))
  {
    hide StateInv, UniqueHandle, Exhausts, Alias, FinishMutation, Clear;
    UniqueExhausted(s, tries);
    ClearFace(s);
    ClearBelongs(s);
    FinishFace(Clear(s), g);
  }

  lemma GrantNone(s: State, g: Generation, tries: seq<Option<Id>>, clock: bool)
    requires StateInv(s) && s.Owns(g) && !Exhausts(s, tries) && !Drawable(s, tries)
    ensures FaceOf(Grant(s, g, tries, clock)) == Ended(s)
  {
    hide StateInv, Belongs, UniqueHandle, Drawable, Exhausts, Alias, FinishMutation, Ended;
    StateBelongs(s);
    UniqueNone(s, tries);
    FinishFace(s, g);
  }

  lemma GrantFace(s: State, g: Generation, tries: seq<Option<Id>>, clock: bool)
    requires StateInv(s) && s.Owns(g)
    ensures Authorizes(s, g, tries, clock, FaceOf(Grant(s, g, tries, clock)))
  {
    hide StateInv, Draws, Exhausts, Grant, FaceOf, Ended, Bare;
    forall x: Id | Draws(s, tries, x)
      ensures FaceOf(Grant(s, g, tries, clock))
           == if clock then OneLess(FaceOf(s), g).(authorizations := s.authorizations[x := g]) else Ended(s)
    {
      GrantDrawn(s, g, tries, clock, x);
    }
    if Exhausts(s, tries) {
      GrantExhausted(s, g, tries, clock);
    } else if !Drawable(s, tries) {
      GrantNone(s, g, tries, clock);
    }
  }

  lemma HandedFace(s: State, h: Id, g: Generation)
    requires Belongs(s) && s.Owns(g)
    ensures var u := Alias(s.(generated := s.generated + {h}), h, g);
      && FaceOf(FinishMutation(u, g).0) == Ended(s)
      && FaceOf(u.(authorizations := u.authorizations[h := g]))
         == OneLess(FaceOf(s), g).(authorizations := s.authorizations[h := g])
  {
    var t := s.(generated := s.generated + {h});
    HandedBelongs(s, h);
    hide Belongs, Alias, FinishMutation, ReadStreams;
    AliasFace(t, h, g);
    AliasBelongs(t, h, g);
    FinishFace(Alias(t, h, g), g);
  }

  lemma HandedBelongs(s: State, h: Id)
    requires Belongs(s)
    ensures var t := s.(generated := s.generated + {h}); Belongs(t) && ReadStreams(t) == ReadStreams(s)
  {
  }

  lemma AliasBelongs(s: State, id: Id, g: Generation)
    requires Belongs(s) && s.Owns(g)
    ensures Belongs(Alias(s, id, g))
  {
    LinkBelongs(s, id, g);
    hide Link, Belongs, CancelAll;
    CancelBelong(Link(s, id, g), {OfMutation(g)});
  }

  lemma CancelBelong(s: State, hs: set<Handle>)
    requires Belongs(s)
    ensures Belongs(CancelAll(s, hs))
  {
  }

  lemma UnpendGrants(s: State, id: Id, g: Generation, tries: seq<Option<Id>>, clock: bool, f: Face)
    requires Authorizes(s.(pending := s.pending - {id}), g, tries, clock, f)
    ensures Authorizes(s, g, tries, clock, f)
  {
    UnpendHandles(s, id, tries);
    hide Draws, Exhausts, ReadStreams;
  }

  lemma FinishAuthorizeFace(s: State, id: Id, connectionId: Id, g: Generation, ok: bool, tries: seq<Option<Id>>,
                            clock: bool)
    requires StateInv(s)
    ensures var f := FaceOf(FinishAuthorize(s, id, connectionId, g, ok, tries, clock));
      if ok && Awaited(s, id, connectionId, Some(g)) then Authorizes(s, g, tries, clock, f)
      else f == if s.Owns(g) then Ended(s) else FaceOf(s)
  {
    var t := s.(pending := s.pending - {id});
    hide StateInv, Belongs, Grant, FinishMutation, Authorizes, FaceOf, Ended;
    UnpendKeeps(s, id);
    if ok && Awaited(s, id, connectionId, Some(g)) {
      GrantFace(t, g, tries, clock);
      UnpendGrants(s, id, g, tries, clock, FaceOf(Grant(t, g, tries, clock)));
    } else {
      StateBelongs(t);
      EndedFace(s, id, g);
    }
  }

  lemma EndedFace(s: State, id: Id, g: Generation)
    requires Belongs(s.(pending := s.pending - {id}))
    ensures var t := s.(pending := s.pending - {id});
      FaceOf(FinishMutation(t, g).0) == if s.Owns(g) then Ended(s) else FaceOf(s)
  {
    hide FinishMutation, Belongs;
    FinishFace(s.(pending := s.pending - {id}), g);
  }

  // ---- starts

  lemma NothingReserved(s: State)
    requires Belongs(s) && s.work.None?
    ensures s.reserved == multiset{}
  {
  }

  /** Two aliases are reserved, and one is taken at once. */
  function OneMore(f: Face, g: Generation): Face {
    f.(reserved := f.reserved[g := f.reserved[g] + 1])
  }

  lemma OpenMutationFace(s: State, id: Id)
    requires Used(s) <= MAX_ALIASES
    ensures var (t, ok) := OpenMutation(s, id);
      && (ok <==> Used(s) + 2 <= MAX_ALIASES)
      && FaceOf(t) ==
         if ok then OneMore(FaceOf(s), s.nextGeneration).(work := Some(s.nextGeneration)) else Bare(FaceOf(s))
  {
    var g := s.nextGeneration;
    hide Reserve, MutationPending, Used;
    ReserveFace(s, g, 2);
    var (t, ok) := Reserve(s, g, 2);
    MutationPendingFace(t.(work := Some(g)), id, g);
  }

  lemma StartMutationFace(s: State, id: Id)
    requires StateInv(s)
    ensures var (t, ok) := StartMutation(s, id);
      && (ok <==> s.work.None? && |s.aliases| + |s.history| + 2 <= MAX_ALIASES)
      && FaceOf(t) ==
         if s.work.Some? then FaceOf(s)
         else
           var f := FaceOf(s).(generations := s.nextGeneration + 1);
           if ok then f.(work := Some(s.nextGeneration + 1), reserved := multiset{s.nextGeneration + 1}) else Bare(f)
  {
    hide StateInv, Belongs, OpenMutation, Used, Bare;
    if s.work.None? {
      NothingUsed(s);
      StateBelongs(s);
      NothingReserved(s);
      OpenMutationFace(s.(nextGeneration := s.nextGeneration + 1), id);
    }
  }

  lemma NothingUsed(s: State)
    requires StateInv(s) && s.work.None?
    ensures var t := s.(nextGeneration := s.nextGeneration + 1);
      Used(t) == |s.aliases| + |s.history| <= MAX_ALIASES
  {
    StateBelongs(s);
    NothingReserved(s);
    hide Belongs, Separate, Owned, Tokens, Recorded, Flagged, ClosedCancelled;
  }

  lemma ConsumeFace(s: State, id: Id, a: Id, g: Generation)
    requires Used(s) <= MAX_ALIASES
    ensures var (t, ok) := Consume(s, id, a, g);
      && (ok <==> Used(s) + 2 <= MAX_ALIASES)
      && FaceOf(t) == (if ok then OneMore(FaceOf(s), g).(authorizations := s.authorizations - {a}) else Bare(FaceOf(s)))
  {
    hide Reserve, MutationPending, Used;
    ReserveFace(s, g, 2);
    var (t, ok) := Reserve(s, g, 2);
    MutationPendingFace(t.(authorizations := t.authorizations - {a}), id, g);
  }

  lemma OpenReadFace(s: State, id: Id)
    ensures FaceOf(OpenRead(s, id)) == FaceOf(s).(readSlots := s.readSlots + 1)
  {
    hide InsertPending;
    PendingFace(s.(readSlots := s.readSlots + 1), id, None);
  }

  /** A pull claims the reader of a stream, or lets go of it. */
  function Claimed(s: State, stream: Id, pulling: bool): Face
    requires stream in s.objects
  {
    FaceOf(s).(objects := s.objects[stream := s.objects[stream].(pulling := pulling)])
  }

  lemma OpenPullFace(s: State, id: Id, stream: Id)
    requires stream in s.objects && Used(s) <= MAX_ALIASES
    ensures var (t, ok) := OpenPull(s, id, stream);
      && (ok <==> s.objects[stream].mutation.None? || Used(s) + 1 <= MAX_ALIASES)
      && FaceOf(t) == if ok then Claimed(s, stream, true) else Bare(Claimed(s, stream, true))
  {
    var o := s.objects[stream];
    var t := s.(objects := s.objects[stream := o.(pulling := true)]);
    assert Used(t) == Used(s);
    hide Reserve, MutationPending, InsertPending, Used;
    if o.mutation.None? {
      PendingFace(t, id, None);
    } else {
      ReserveFace(t, o.mutation.value, 1);
      MutationPendingFace(Reserve(t, o.mutation.value, 1).0, id, o.mutation.value);
    }
  }

  lemma LetGoFace(s: State, id: Id, stream: Id)
    requires stream in s.objects && Belongs(s)
    ensures var t := LetGo(s, id, stream);
      FaceOf(t) == Claimed(s, stream, false) && ReadStreams(t) == ReadStreams(s) && Belongs(t)
  {
  }

  // ---- expiry keeps the number of ids

  lemma FinishCount(s: State, g: Generation)
    requires Separate(s)
    ensures var t := FinishMutation(s, g).0; |t.aliases| + |t.history| == |s.aliases| + |s.history|
  {
    hide CancelCells, PendingWithout, StreamsWithout;
    MovedCount(s.aliases, s.history, g, s.CellOf(OfMutation(g)).Dispatched?);
  }

  lemma {:induction false} FinishEachCount(s: State, gs: seq<Generation>)
    requires StateInv(s) && forall i | 0 <= i < |gs| :: 1 <= gs[i] <= s.nextGeneration
    ensures var t := FinishEach(s, gs); |t.aliases| + |t.history| == |s.aliases| + |s.history|
    decreases |gs|
  {
    FinishEachStep(s, gs);
    hide StateInv, Separate, FinishMutation, FinishEach;
    if gs != [] {
      StateSeparate(s);
      FinishKeeps(s, gs[0]);
      FinishCount(s, gs[0]);
      FinishTrims(s, gs[0]);
      FinishEachCount(FinishMutation(s, gs[0]).0, gs[1..]);
    }
  }

  lemma ExpireCount(s: State, expired: seq<Id>)
    requires StateInv(s)
    ensures var t := ExpireAuthorizations(s, expired); |t.aliases| + |t.history| == |s.aliases| + |s.history|
  {
    StateBelongs(s);
    hide StateInv, Belongs, FinishEach, ExpiredOwners;
    ExpiredOwnersRange(s, expired);
    FinishEachCount(s, ExpiredOwners(s, expired));
  }
}
