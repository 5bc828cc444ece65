/** The state invariant across the compound operations of the host. */
module HostOperations {
  import opened Basics
  import opened HostState
  import opened HostInvariant

  // ---- small updates

  lemma ConnectedKeeps(s: State, c: Option<Connection>)
    requires StateInv(s) && !s.disposed
    ensures StateInv(s.(connection := c))
  {
    CellsFrame(s, s.(connection := c));
    ConnectedMaps(s, c);
    hide Belongs, Separate, Owned, Tokens, Recorded, Flagged, ClosedCancelled;
  }

  lemma ConnectedMaps(s: State, c: Option<Connection>)
    requires Belongs(s) && Separate(s) && ClosedCancelled(s)
    ensures var t := s.(connection := c); Belongs(t) && Separate(t) && ClosedCancelled(t)
  {
  }

  lemma SlotsKeep(s: State, n: nat)
    requires StateInv(s) && (s.disposed ==> n == 0)
    ensures StateInv(s.(readSlots := n))
  {
    CellsFrame(s, s.(readSlots := n));
    SlotsMaps(s, n);
    hide Belongs, Separate, Owned, Tokens, Recorded, Flagged, ClosedCancelled;
  }

  lemma SlotsMaps(s: State, n: nat)
    requires Belongs(s) && Separate(s) && ClosedCancelled(s)
    ensures var t := s.(readSlots := n); Belongs(t) && Separate(t) && ClosedCancelled(t)
  {
  }

  lemma SeenKeeps(s: State, id: Id)
    requires StateInv(s) && !s.disposed && id !in s.generated
    ensures StateInv(s.(seen := s.seen + {id}))
  {
    CellsFrame(s, s.(seen := s.seen + {id}));
    SeenMaps(s, id);
    hide Belongs, Separate, Owned, Tokens, Recorded, Flagged, ClosedCancelled;
  }

  lemma SeenMaps(s: State, id: Id)
    requires Belongs(s) && Separate(s) && ClosedCancelled(s) && id !in s.generated
    ensures var t := s.(seen := s.seen + {id}); Belongs(t) && Separate(t) && ClosedCancelled(t)
  {
  }

  lemma UnpendKeeps(s: State, id: Id)
    requires StateInv(s)
    ensures StateInv(s.(pending := s.pending - {id}))
  {
    CellsFrame(s, s.(pending := s.pending - {id}));
    UnpendMaps(s, id);
    UnpendEmptied(s, id);
    hide Belongs, Separate, Owned, Tokens, Recorded, Flagged, ClosedCancelled, Emptied;
  }

  lemma UnpendMaps(s: State, id: Id)
    requires Belongs(s) && Separate(s) && ClosedCancelled(s)
    ensures var t := s.(pending := s.pending - {id}); Belongs(t) && Separate(t) && ClosedCancelled(t)
  {
  }

  lemma UnpendEmptied(s: State, id: Id)
    requires Emptied(s)
    ensures Emptied(s.(pending := s.pending - {id}))
  {
  }

  lemma ReleaseKeeps(s: State, mutation: Option<Generation>)
    requires StateInv(s)
    requires mutation.Some? ==> 1 <= mutation.value <= s.nextGeneration
    requires s.disposed ==> s.readSlots == 0
    ensures StateInv(Release(s, mutation))
  {
    hide StateInv, FinishMutation;
    if mutation.Some? {
      FinishKeeps(s, mutation.value);
    } else {
      SlotsKeep(s, LessOne(s.readSlots));
    }
  }

  // ---- streams

  /** A stream object enters the table under a handle that is already an alias, if it needs one. */
  ghost predicate Publishes(s: State, handle: Id, o: Stream) {
    && handle in s.generated && !o.pulling && o.dispatched == o.mutation.Some? && !s.disposed
    && (o.mutation.Some? ==> handle in s.aliases && Some(s.aliases[handle]) == o.mutation)
    && o.mutation == OwnerOf(s, handle)
  }

  function Published(s: State, handle: Id, o: Stream): State {
    s.(streams := s.streams + {handle}, objects := s.objects[handle := o])
  }

  lemma PublishedBelongs(s: State, handle: Id, o: Stream)
    requires Belongs(s) && Publishes(s, handle, o)
    ensures Belongs(Published(s, handle, o))
  {
  }

  lemma PublishedSeparate(s: State, handle: Id, o: Stream)
    requires Separate(s) && Publishes(s, handle, o)
    ensures Separate(Published(s, handle, o))
  {
  }

  lemma PublishedCells(s: State, handle: Id, o: Stream)
    requires Owned(s) && Tokens(s) && Recorded(s) && Flagged(s) && Publishes(s, handle, o)
    ensures var t := Published(s, handle, o); Owned(t) && Tokens(t) && Recorded(t) && Flagged(t)
  {
  }

  lemma PublishedClosed(s: State, handle: Id, o: Stream)
    requires ClosedCancelled(s) && Emptied(s) && Publishes(s, handle, o)
    ensures ClosedCancelled(Published(s, handle, o)) && Emptied(Published(s, handle, o))
  {
  }

  lemma PublishedKeeps(s: State, handle: Id, o: Stream)
    requires StateInv(s) && Publishes(s, handle, o)
    ensures StateInv(Published(s, handle, o))
  {
    PublishedBelongs(s, handle, o);
    PublishedSeparate(s, handle, o);
    PublishedCells(s, handle, o);
    PublishedClosed(s, handle, o);
    hide Belongs, Separate, Owned, Tokens, Recorded, Flagged, ClosedCancelled, Emptied;
  }

  lemma OpenStreamKeeps(s: State, handle: Id, control: Id, mutation: Option<Generation>)
    requires StateInv(s) && !s.disposed && handle in s.generated
    requires handle !in s.owner && handle !in s.objects
    requires mutation.Some? ==> s.work == mutation && s.reserved[mutation.value] > 0
    ensures StateInv(OpenStream(s, handle, control, mutation))
  {
    var o := Stream(mutation, control, mutation.Some?, false, 0, -1, false);
    hide StateInv;
    if mutation.Some? {
      AliasKeeps(s, handle, mutation.value);
      AliasShape(s, handle, mutation.value);
      AliasGenerated(s, handle, mutation.value);
      PublishedKeeps(Alias(s, handle, mutation.value), handle, o);
    } else {
      PublishedKeeps(s, handle, o);
    }
  }

  lemma AliasGenerated(s: State, id: Id, g: Generation)
    ensures Alias(s, id, g).generated == s.generated
  {
    if id in s.cancelled {
      assert Alias(s, id, g).generated == Link(s, id, g).generated;
    }
  }

  /** What a request must still hold when its answer arrives. */
  ghost predicate Entitled(s: State, mutation: Option<Generation>) {
    mutation.Some? ==>
      && 1 <= mutation.value <= s.nextGeneration
      && (s.Owns(mutation.value) ==> s.reserved[mutation.value] > 0)
  }

  lemma FreshHandle(s: State, h: Id)
    requires Separate(s) && !s.disposed && HandleAvailable(s, h)
    ensures h !in s.owner && h !in s.objects
  {
  }

  lemma RespondKeeps(s: State, control: Id, mutation: Option<Generation>, tries: seq<Option<Id>>)
    requires StateInv(s) && !s.disposed && Entitled(s, mutation) && (mutation.Some? ==> s.work == mutation)
    ensures StateInv(Respond(s, control, mutation, tries))
  {
    UniqueHandleKeeps(s, tries);
    var (t, h) := UniqueHandle(s, tries);
    if h.Some? {
      FreshHandle(s, h.value);
      hide StateInv, UniqueHandle, OpenStream, HandleAvailable, Clear;
      OpenStreamKeeps(t, h.value, control, mutation);
    } else {
      ClearSlots(s);
      hide StateInv, UniqueHandle, Release, Clear;
      ReleaseKeeps(t, mutation);
    }
  }

  lemma ClearSlots(s: State)
    ensures Clear(s).readSlots == 0 && Clear(s).nextGeneration == s.nextGeneration && Clear(s).disposed
  {
  }

  lemma FinishStreamKeeps(s: State, id: Id, connectionId: Id, mutation: Option<Generation>, ok: bool,
                          tries: seq<Option<Id>>)
    requires StateInv(s) && Entitled(s, mutation) && (s.disposed ==> s.readSlots == 0 && s.connection.None?)
    ensures StateInv(FinishStream(s, id, connectionId, mutation, ok, tries))
  {
    var t := s.(pending := s.pending - {id});
    hide StateInv, Respond, Release;
    UnpendKeeps(s, id);
    ReleaseKeeps(t, mutation);
    if id in s.pending && HandleOf(mutation, id) !in s.tokens && s.Bound(connectionId)
       && (mutation.Some? ==> s.Owns(mutation.value)) {
      if ok {
        RespondKeeps(t, id, mutation, tries);
      }
    }
  }

  // ---- authorize

  ghost predicate Grantable(s: State, a: Id, g: Generation) {
    a in s.aliases && s.aliases[a] == g && !s.disposed
  }

  lemma GrantedKeeps(s: State, a: Id, g: Generation)
    requires StateInv(s) && Grantable(s, a, g)
    ensures StateInv(s.(authorizations := s.authorizations[a := g]))
  {
    CellsFrame(s, s.(authorizations := s.authorizations[a := g]));
    GrantedMaps(s, a, g);
    hide Belongs, Separate, Owned, Tokens, Recorded, Flagged, ClosedCancelled;
  }

  lemma GrantedMaps(s: State, a: Id, g: Generation)
    requires Belongs(s) && Separate(s) && ClosedCancelled(s) && Grantable(s, a, g)
    ensures var t := s.(authorizations := s.authorizations[a := g]);
      Belongs(t) && Separate(t) && ClosedCancelled(t)
  {
  }

  lemma GrantKeeps(s: State, g: Generation, tries: seq<Option<Id>>, clock: bool)
    requires StateInv(s) && !s.disposed && s.work == Some(g) && s.reserved[g] > 0 && 1 <= g <= s.nextGeneration
    ensures StateInv(Grant(s, g, tries, clock))
  {
    UniqueHandleKeeps(s, tries);
    var (t, h) := UniqueHandle(s, tries);
    if h.Some? {
      FreshHandle(s, h.value);
      AliasShape(t, h.value, g);
      hide StateInv, UniqueHandle, Alias, FinishMutation, HandleAvailable, Clear;
      AliasKeeps(t, h.value, g);
      if clock {
        GrantedKeeps(Alias(t, h.value, g), h.value, g);
      } else {
        FinishKeeps(Alias(t, h.value, g), g);
      }
    } else {
      ClearSlots(s);
      hide StateInv, UniqueHandle, FinishMutation, Clear;
      FinishKeeps(t, g);
    }
  }

  lemma FinishAuthorizeKeeps(s: State, id: Id, connectionId: Id, g: Generation, ok: bool,
                             tries: seq<Option<Id>>, clock: bool)
    requires StateInv(s) && Entitled(s, Some(g)) && (s.disposed ==> s.connection.None?)
    ensures StateInv(FinishAuthorize(s, id, connectionId, g, ok, tries, clock))
  {
    var t := s.(pending := s.pending - {id});
    UnpendKeeps(s, id);
    hide StateInv, Grant, FinishMutation;
    FinishKeeps(t, g);
    if s.Bound(connectionId) && s.Owns(g) {
      GrantKeeps(t, g, tries, clock);
    }
  }

  // ---- closing, cancelling and reading a stream

  function Delisted(s: State, id: Id, h: Handle): State {
    s.(streams := s.streams - {id}, tokens := s.tokens + {h})
  }

  lemma DelistedMaps(s: State, id: Id, h: Handle)
    requires Belongs(s) && Separate(s) && ClosedCancelled(s) && (id in s.objects ==> s.objects[id].Token() == h)
    ensures var t := Delisted(s, id, h); Belongs(t) && Separate(t) && ClosedCancelled(t)
  {
  }

  lemma DelistedCells(s: State, id: Id, h: Handle)
    requires Owned(s) && Tokens(s) && Recorded(s) && Flagged(s) && h.OfControl?
    ensures var t := Delisted(s, id, h); Owned(t) && Tokens(t) && Recorded(t) && Flagged(t)
  {
  }

  lemma DelistedKeeps(s: State, id: Id, h: Handle)
    requires StateInv(s) && h.OfControl? && (id in s.objects ==> s.objects[id].Token() == h)
    ensures StateInv(Delisted(s, id, h))
  {
    DelistedMaps(s, id, h);
    DelistedCells(s, id, h);
    hide Belongs, Separate, Owned, Tokens, Recorded, Flagged, ClosedCancelled;
  }

  lemma StreamOwner(s: State, id: Id)
    requires Belongs(s) && id in s.streams
    ensures id in s.objects
    ensures s.objects[id].mutation.Some? ==>
      s.work == s.objects[id].mutation && 1 <= s.objects[id].mutation.value <= s.nextGeneration
  {
  }

  lemma DropStreamKeeps(s: State, id: Id)
    requires StateInv(s) && !s.disposed && id in s.objects && s.objects[id].mutation.None?
    ensures StateInv(DropStream(s, id))
  {
    hide StateInv;
    DelistedKeeps(s, id, s.objects[id].Token());
    SlotsKeep(Delisted(s, id, s.objects[id].Token()), LessOne(s.readSlots));
  }

  lemma CloseStreamKeeps(s: State, id: Id)
    requires StateInv(s)
    ensures StateInv(CloseStream(s, id))
  {
    if id in s.streams {
      StreamOwner(s, id);
      assert !s.disposed;
      hide StateInv, FinishMutation, DropStream;
      if s.objects[id].mutation.Some? {
        FinishKeeps(s, s.objects[id].mutation.value);
      } else {
        DropStreamKeeps(s, id);
      }
    }
  }

  /** Nothing of the mutation can start any more. */
  ghost predicate Settled(s: State, g: Generation) {
    !s.CellOf(OfMutation(g)).Idle? && OfMutation(g) in s.tokens
  }

  lemma MarkKeeps(s: State, target: Id)
    requires StateInv(s) && !s.disposed
    requires target in s.owner ==> Settled(s, s.owner[target])
    ensures StateInv(Mark(s, target))
  {
    MarkCells(s, target);
    MarkMaps(s, target);
    hide Belongs, Separate, Owned, Tokens, Recorded, Flagged, ClosedCancelled;
  }

  lemma MarkCells(s: State, target: Id)
    requires Owned(s) && Tokens(s) && Recorded(s) && Flagged(s)
    requires target in s.owner ==> Settled(s, s.owner[target])
    ensures var t := Mark(s, target); Owned(t) && Tokens(t) && Recorded(t) && Flagged(t)
  {
  }

  lemma MarkMaps(s: State, target: Id)
    requires Belongs(s) && Separate(s) && ClosedCancelled(s)
    ensures var t := Mark(s, target); Belongs(t) && Separate(t) && ClosedCancelled(t)
  {
  }

  lemma CancelPlainKeeps(s: State, target: Id)
    requires StateInv(s) && !s.disposed && target !in s.aliases
    ensures StateInv(CancelPlain(s, target))
  {
    assert target in s.pending ==> s.pending[target].None?;
    assert target in s.streams ==> target in s.objects && s.objects[target].mutation.None?;
    hide StateInv, DropStream;
    var t := if target in s.pending then CancelAll(s, {OfControl(target)}) else s;
    CancelAllKeeps(s, {OfControl(target)});
    if target in s.streams {
      DropStreamKeeps(t, target);
    }
  }

  /** A retired id has a settled cell. */
  lemma RetiredSettled(s: State, id: Id)
    requires Separate(s) && Recorded(s) && !s.disposed && id !in s.aliases && id in s.owner
    ensures !s.CellOf(OfMutation(s.owner[id])).Idle?
  {
  }

  lemma FinishedShape(s: State, g: Generation)
    ensures !FinishMutation(s, g).0.CellOf(OfMutation(g)).Idle?
    ensures FinishMutation(s, g).0.owner == s.owner && FinishMutation(s, g).0.disposed == s.disposed
  {
    CancelledCell(s, {OfMutation(g)}, OfMutation(g));
  }

  lemma CancelTargetKeeps(s: State, target: Id)
    requires StateInv(s) && !s.disposed
    ensures StateInv(CancelTarget(s, target).0)
  {
    hide StateInv, Clear, FinishMutation, CancelPlain, Mark;
    if |s.cancelled| >= MAX_CONTROLS && target !in s.cancelled {
      ClearKeeps(s);
    } else if target in s.aliases {
      CancelAliasKeeps(s, target);
    } else {
      CancelOtherKeeps(s, target);
    }
  }

  lemma CancelAliasKeeps(s: State, target: Id)
    requires StateInv(s) && !s.disposed && target in s.aliases
    ensures StateInv(Mark(FinishMutation(s, s.aliases[target]).0, target))
  {
    var g := s.aliases[target];
    assert s.owner[target] == g && 1 <= g <= s.nextGeneration;
    hide StateInv, FinishMutation;
    FinishKeeps(s, g);
    FinishedShape(s, g);
    MarkKeeps(FinishMutation(s, g).0, target);
  }

  lemma CancelOtherKeeps(s: State, target: Id)
    requires StateInv(s) && !s.disposed && target !in s.aliases
    ensures StateInv(CancelPlain(Mark(s, target), target))
  {
    if target in s.owner {
      RetiredSettled(s, target);
    }
    hide StateInv, CancelPlain;
    MarkKeeps(s, target);
    CancelPlainKeeps(Mark(s, target), target);
  }

  /** Reading a stream changes nothing but its reader and its pulling flag. */
  ghost predicate SameStream(o: Stream, p: Stream) {
    o.mutation == p.mutation && o.control == p.control && o.dispatched == p.dispatched
  }

  lemma ObjectMaps(s: State, id: Id, o: Stream)
    requires Belongs(s) && Separate(s) && ClosedCancelled(s) && id in s.objects && SameStream(s.objects[id], o)
    ensures var t := s.(objects := s.objects[id := o]); Belongs(t) && Separate(t) && ClosedCancelled(t)
  {
  }

  lemma ObjectKeeps(s: State, id: Id, o: Stream)
    requires StateInv(s) && id in s.objects && SameStream(s.objects[id], o)
    ensures StateInv(s.(objects := s.objects[id := o]))
  {
    var t := s.(objects := s.objects[id := o]);
    ObjectMaps(s, id, o);
    ObjectCells(s, id, o);
    hide Belongs, Separate, Owned, Tokens, Recorded, Flagged, ClosedCancelled;
  }

  lemma ObjectCells(s: State, id: Id, o: Stream)
    requires Owned(s) && Tokens(s) && Recorded(s) && Flagged(s) && id in s.objects && SameStream(s.objects[id], o)
    ensures var t := s.(objects := s.objects[id := o]); Owned(t) && Tokens(t) && Recorded(t) && Flagged(t)
  {
  }

  // ---- dispatch, and consuming an authorization

  lemma BegunKeeps(s: State, id: Id)
    requires StateInv(s) && id in s.owner && s.CellOf(OfMutation(s.owner[id])).Idle?
    ensures StateInv(s.(cells := s.cells[OfMutation(s.owner[id]) := Dispatched]))
  {
    BegunCells(s, id);
    BegunMaps(s, s.cells[OfMutation(s.owner[id]) := Dispatched]);
    hide Belongs, Separate, Owned, Tokens, Recorded, Flagged, ClosedCancelled;
  }

  lemma BegunCells(s: State, id: Id)
    requires Owned(s) && Tokens(s) && Recorded(s) && Flagged(s)
    requires id in s.owner && s.CellOf(OfMutation(s.owner[id])).Idle?
    ensures var t := s.(cells := s.cells[OfMutation(s.owner[id]) := Dispatched]);
      Owned(t) && Tokens(t) && Recorded(t) && Flagged(t)
  {
  }

  lemma BegunMaps(s: State, cells: map<Handle, Cell>)
    requires Belongs(s) && Separate(s) && ClosedCancelled(s)
    ensures var t := s.(cells := cells); Belongs(t) && Separate(t) && ClosedCancelled(t)
  {
  }

  lemma ConsumedKeeps(s: State, a: Id)
    requires StateInv(s)
    ensures StateInv(s.(authorizations := s.authorizations - {a}))
  {
    var t := s.(authorizations := s.authorizations - {a});
    CellsFrame(s, t);
    ConsumedMaps(s, a);
    hide Belongs, Separate, Owned, Tokens, Recorded, Flagged, ClosedCancelled, Emptied;
  }

  lemma ConsumedMaps(s: State, a: Id)
    requires Belongs(s) && Separate(s) && ClosedCancelled(s) && Emptied(s)
    ensures var t := s.(authorizations := s.authorizations - {a});
      Belongs(t) && Separate(t) && ClosedCancelled(t) && Emptied(t)
  {
  }

  // ---- starting and expiring mutations

  lemma ControlNoStream(s: State, id: Id)
    requires StateInv(s) && !s.disposed && id in s.seen
    ensures id !in s.objects
  {
    hide Belongs, Owned, Tokens, Recorded, Flagged, ClosedCancelled, Emptied;
  }

  lemma MutationPendingKeeps(s: State, id: Id, g: Generation)
    requires StateInv(s) && !s.disposed
    requires s.work == Some(g) && s.reserved[g] > 0 && id in s.seen && id !in s.owner
    requires 1 <= g <= s.nextGeneration
    ensures StateInv(MutationPending(s, id, g))
  {
    AliasShape(s, id, g);
    ControlNoStream(s, id);
    hide StateInv, InsertPending, Alias;
    AliasKeeps(s, id, g);
    InsertPendingKeeps(Alias(s, id, g), id, Some(g));
  }

  lemma NextGenerationKeeps(s: State)
    requires StateInv(s)
    ensures StateInv(s.(nextGeneration := s.nextGeneration + 1))
  {
    hide Belongs, Separate, Owned, Tokens, Recorded, Flagged;
    NextGenerationCells(s);
    NextGenerationOwner(s);
  }

  lemma NextGenerationOwner(s: State)
    requires Belongs(s) && Separate(s)
    ensures var t := s.(nextGeneration := s.nextGeneration + 1); Belongs(t) && Separate(t)
  {
  }

  lemma NextGenerationCells(s: State)
    requires Owned(s) && Tokens(s) && Recorded(s) && Flagged(s)
    ensures var t := s.(nextGeneration := s.nextGeneration + 1); Owned(t) && Tokens(t) && Recorded(t) && Flagged(t)
  {
  }

  lemma OpenedBelongs(s: State, g: Generation)
    requires Belongs(s) && s.work.None? && 1 <= g <= s.nextGeneration
    ensures Belongs(s.(work := Some(g), reserved := s.reserved[g := s.reserved[g] + 2]))
  {
  }

  lemma OpenedCells(s: State, g: Generation, r: multiset<Generation>)
    requires Owned(s) && Tokens(s) && Recorded(s) && Flagged(s) && s.work.None?
    ensures var t := s.(work := Some(g), reserved := r); Owned(t) && Tokens(t) && Recorded(t) && Flagged(t)
  {
  }

  lemma OpenedKeeps(s: State, g: Generation)
    requires StateInv(s) && !s.disposed && s.work.None? && 1 <= g <= s.nextGeneration
    requires Used(s) + 2 <= MAX_ALIASES
    ensures StateInv(s.(work := Some(g), reserved := s.reserved[g := s.reserved[g] + 2]))
  {
    var r := s.reserved[g := s.reserved[g] + 2];
    OpenedBelongs(s, g);
    OpenedCells(s, g, r);
    ReservedCount(s.reserved, g, 2);
    assert Separate(s.(work := Some(g), reserved := r));
    assert ClosedCancelled(s.(work := Some(g), reserved := r));
  }

  lemma OpenedPending(s: State, g: Generation, id: Id)
    requires StateInv(s) && !s.disposed && s.work.None? && 1 <= g <= s.nextGeneration
    requires Used(s) + 2 <= MAX_ALIASES && id in s.seen && id !in s.owner
    ensures StateInv(MutationPending(s.(work := Some(g), reserved := s.reserved[g := s.reserved[g] + 2]), id, g))
  {
    OpenedKeeps(s, g);
    var o := s.(work := Some(g), reserved := s.reserved[g := s.reserved[g] + 2]);
    MutationPendingKeeps(o, id, g);
  }

  lemma OpenMutationKeeps(s: State, id: Id)
    requires StateInv(s) && !s.disposed && s.work.None? && s.nextGeneration >= 1
    requires id in s.seen && id !in s.owner
    ensures StateInv(OpenMutation(s, id).0)
  {
    hide StateInv, MutationPending, Clear;
    var g := s.nextGeneration;
    if Reserve(s, g, 2).1 {
      OpenedPending(s, g, id);
    } else {
      ClearKeeps(s);
    }
  }

  lemma StartMutationKeeps(s: State, id: Id)
    requires StateInv(s) && !s.disposed && id in s.seen && id !in s.owner
    ensures StateInv(StartMutation(s, id).0)
  {
    hide StateInv, OpenMutation;
    if s.work.None? {
      NextGenerationKeeps(s);
      OpenMutationKeeps(s.(nextGeneration := s.nextGeneration + 1), id);
    }
  }

  /** Expiry finishes mutations, so the state it leaves is reached by finishing. */
  /** What finishing mutations leaves as it was, or only makes smaller. */
  ghost predicate Trims(s: State, t: State) {
    && t.connection == s.connection && t.seen == s.seen && t.owner == s.owner && t.disposed == s.disposed
    && t.nextGeneration == s.nextGeneration && t.pending.Keys <= s.pending.Keys && t.objects == s.objects
    && (forall a | a in t.authorizations :: a in s.authorizations && t.authorizations[a] == s.authorizations[a])
  }

  lemma FinishTrims(s: State, g: Generation)
    ensures Trims(s, FinishMutation(s, g).0)
  {
  }

  lemma {:induction false} FinishEachKeeps(s: State, gs: seq<Generation>)
    requires StateInv(s) && forall i | 0 <= i < |gs| :: 1 <= gs[i] <= s.nextGeneration
    ensures StateInv(FinishEach(s, gs))
    ensures Trims(s, FinishEach(s, gs))
    decreases |gs|
  {
    hide StateInv, FinishMutation;
    if gs != [] {
      FinishKeeps(s, gs[0]);
      FinishTrims(s, gs[0]);
      FinishEachKeeps(FinishMutation(s, gs[0]).0, gs[1..]);
    }
  }

  lemma {:induction false} ExpiredOwnersRange(s: State, expired: seq<Id>)
    requires Belongs(s)
    ensures forall i | 0 <= i < |ExpiredOwners(s, expired)| ::
      1 <= ExpiredOwners(s, expired)[i] <= s.nextGeneration
  {
    if expired != [] {
      ExpiredOwnersRange(s, expired[1..]);
    }
  }
}
