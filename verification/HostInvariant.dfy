/** What every operation on the host's state keeps. */
module HostInvariant {
  import opened Basics
  import opened HostState

  // ---- updates outside the shared cells

  ghost predicate SameCells(s: State, t: State) {
    && t.cells == s.cells && t.tokens == s.tokens && t.owner == s.owner && t.cancelled == s.cancelled
    && t.history == s.history && t.objects == s.objects && t.work == s.work
    && t.nextGeneration == s.nextGeneration
  }

  /** An update that leaves the shared cells and their owners alone keeps what speaks of them. */
  lemma CellsFrame(s: State, t: State)
    requires Owned(s) && Tokens(s) && Recorded(s) && Flagged(s) && SameCells(s, t)
    ensures Owned(t) && Tokens(t) && Recorded(t) && Flagged(t)
  {
  }

  // ---- CancelAll: only cells and tokens change, and no cell returns to idle

  lemma CancelledCell(s: State, hs: set<Handle>, h: Handle)
    ensures CancelAll(s, hs).CellOf(h) == if h in hs then s.CellOf(h).Cancel() else s.CellOf(h)
  {
  }

  lemma CancelAllOwned(s: State, hs: set<Handle>)
    requires Owned(s)
    ensures Owned(CancelAll(s, hs))
  {
  }

  lemma CancelAllTokens(s: State, hs: set<Handle>)
    requires Tokens(s) && forall g: Generation | OfMutation(g) in hs :: 1 <= g <= s.nextGeneration
    ensures Tokens(CancelAll(s, hs))
  {
  }

  lemma CancelAllRecorded(s: State, hs: set<Handle>)
    requires Recorded(s)
    ensures Recorded(CancelAll(s, hs))
  {
  }

  lemma CancelAllFlagged(s: State, hs: set<Handle>)
    requires Flagged(s)
    ensures Flagged(CancelAll(s, hs))
  {
  }

  lemma CancelAllRest(s: State, hs: set<Handle>)
    requires Belongs(s) && Separate(s) && ClosedCancelled(s) && Emptied(s)
    ensures var t := CancelAll(s, hs); Belongs(t) && Separate(t) && ClosedCancelled(t) && Emptied(t)
  {
  }

  lemma CancelAllKeeps(s: State, hs: set<Handle>)
    requires StateInv(s)
    requires forall g: Generation | OfMutation(g) in hs :: 1 <= g <= s.nextGeneration
    ensures StateInv(CancelAll(s, hs))
  {
    CancelAllOwned(s, hs);
    CancelAllTokens(s, hs);
    CancelAllRecorded(s, hs);
    CancelAllFlagged(s, hs);
    CancelAllRest(s, hs);
  }

  // ---- Clear

  /** Whatever was joined to a mutation is past idle once `clear` has cancelled the live handles. */
  lemma NothingIdle(s: State)
    requires Owned(s)
    ensures var c := CancelAll(s, LiveHandles(s));
      forall id | id in s.owner :: !c.CellOf(OfMutation(s.owner[id])).Idle? && OfMutation(s.owner[id]) in c.tokens
  {
  }

  lemma StreamTokensLive(s: State)
    requires Belongs(s)
    ensures forall g: Generation | OfMutation(g) in StreamTokens(s.streams, s.objects) :: s.work == Some(g)
  {
  }

  lemma ClearTokens(s: State)
    requires Belongs(s) && Tokens(s)
    ensures Tokens(Clear(s))
  {
    var c := CancelAll(s, LiveHandles(s));
    assert forall g: Generation | OfMutation(g) in LiveHandles(s) :: 1 <= g <= s.nextGeneration;
    CancelAllTokens(s, LiveHandles(s));
    StreamTokensLive(s);
    assert s.work.Some? ==> !c.CellOf(OfMutation(s.work.value)).Idle?;
  }

  lemma ClearClosed(s: State)
    requires ClosedCancelled(s)
    ensures ClosedCancelled(Clear(s))
  {
  }

  lemma ClearOwned(s: State)
    requires Owned(s)
    ensures Owned(Clear(s))
  {
    NothingIdle(s);
  }

  lemma ClearFlagged(s: State)
    requires Flagged(s)
    ensures Flagged(Clear(s))
  {
    CancelAllFlagged(s, LiveHandles(s));
  }

  lemma ClearEmpties(s: State)
    requires !s.panicked
    ensures var t := Clear(s); Belongs(t) && Separate(t) && Recorded(t) && Emptied(t) && Used(t) == 0
  {
  }

  lemma ClearKeeps(s: State)
    requires StateInv(s)
    ensures StateInv(Clear(s))
  {
    ClearOwned(s);
    ClearTokens(s);
    ClearFlagged(s);
    ClearClosed(s);
    ClearEmpties(s);
  }

  // ---- FinishMutation

  /** The part of `finish_mutation` after the cell and token are cancelled. */
  function Retire(s: State, g: Generation, dispatched: bool): State {
    s.(work := if s.Owns(g) then None else s.work,
       pending := (map id | id in s.pending && s.pending[id] != Some(g) :: s.pending[id]),
       authorizations := Without(s.authorizations, g),
       streams := (set id | id in s.streams && (id in s.objects ==> s.objects[id].mutation != Some(g))),
       history := s.history + (map id | id in s.aliases && s.aliases[id] == g :: dispatched),
       aliases := Without(s.aliases, g),
       reserved := s.reserved[g := 0])
  }

  lemma RetireBelongs(s: State, g: Generation, d: bool)
    requires Belongs(s)
    ensures Belongs(Retire(s, g, d))
  {
  }

  lemma RetireSeparate(s: State, g: Generation, d: bool)
    requires Separate(s)
    ensures Separate(Retire(s, g, d))
  {
  }

  /** Retiring moves ids from `aliases` to `history`; none is lost and none is counted twice. */
  lemma MovedCount(a: map<Id, Generation>, h: map<Id, bool>, g: Generation, d: bool)
    requires a.Keys !! h.Keys
    ensures |Without(a, g)| + |h + Retired(a, g, d)| == |a| + |h|
  {
    var kept, moved := Without(a, g), Retired(a, g, d);
    assert a.Keys == kept.Keys + moved.Keys;
    DisjointCount(kept.Keys, moved.Keys);
    assert (h + moved).Keys == h.Keys + moved.Keys;
    DisjointCount(h.Keys, moved.Keys);
    hide Without, Retired;
  }

  lemma DisjointCount(s: set<Id>, t: set<Id>)
    requires s !! t
    ensures |s + t| == |s| + |t|
  {
  }

  lemma RetireUsed(s: State, g: Generation, d: bool)
    requires s.aliases.Keys !! s.history.Keys
    ensures Used(Retire(s, g, d)) <= Used(s)
  {
    MovedCount(s.aliases, s.history, g, d);
  }

  lemma RetireOwned(s: State, g: Generation, d: bool)
    requires Owned(s) && !s.CellOf(OfMutation(g)).Idle? && OfMutation(g) in s.tokens
    ensures Owned(Retire(s, g, d))
  {
  }

  lemma RetireRecorded(s: State, g: Generation)
    requires Recorded(s) && Separate(s) && !s.CellOf(OfMutation(g)).Idle? && OfMutation(g) in s.tokens
    ensures Recorded(Retire(s, g, s.CellOf(OfMutation(g)).Dispatched?))
  {
  }

  lemma RetireClosed(s: State, g: Generation, d: bool)
    requires ClosedCancelled(s) && OfMutation(g) in s.tokens
    ensures ClosedCancelled(Retire(s, g, d))
  {
  }

  lemma RetireRest(s: State, g: Generation, d: bool)
    requires Tokens(s) && Flagged(s)
    ensures Tokens(Retire(s, g, d)) && Flagged(Retire(s, g, d))
  {
  }

  lemma RetireEmptied(s: State, g: Generation, d: bool)
    requires Emptied(s)
    ensures Emptied(Retire(s, g, d))
  {
  }

  lemma RetireKeeps(s: State, g: Generation)
    requires StateInv(s) && !s.CellOf(OfMutation(g)).Idle? && OfMutation(g) in s.tokens
    ensures StateInv(Retire(s, g, s.CellOf(OfMutation(g)).Dispatched?))
  {
    var d := s.CellOf(OfMutation(g)).Dispatched?;
    RetireBelongs(s, g, d);
    RetireSeparate(s, g, d);
    RetireUsed(s, g, d);
    RetireOwned(s, g, d);
    RetireRecorded(s, g);
    RetireClosed(s, g, d);
    RetireRest(s, g, d);
    RetireEmptied(s, g, d);
  }

  lemma FinishIsRetire(s: State, g: Generation)
    ensures var c := CancelAll(s, {OfMutation(g)});
      && !c.CellOf(OfMutation(g)).Idle? && OfMutation(g) in c.tokens
      && FinishMutation(s, g).0 == Retire(c, g, c.CellOf(OfMutation(g)).Dispatched?)
  {
  }

  lemma FinishKeeps(s: State, g: Generation)
    requires StateInv(s) && 1 <= g <= s.nextGeneration
    ensures StateInv(FinishMutation(s, g).0)
  {
    CancelAllKeeps(s, {OfMutation(g)});
    FinishIsRetire(s, g);
    RetireKeeps(CancelAll(s, {OfMutation(g)}), g);
  }

  // ---- Alias, Reserve, InsertPending, UniqueHandle

  lemma LinkBelongs(s: State, id: Id, g: Generation)
    requires Belongs(s) && s.work == Some(g)
    ensures Belongs(Link(s, id, g))
  {
  }

  lemma LinkSeparate(s: State, id: Id, g: Generation)
    requires Separate(s) && s.reserved[g] > 0 && id in s.seen + s.generated && id !in s.owner
    ensures Separate(Link(s, id, g))
  {
  }

  lemma LinkCells(s: State, id: Id, g: Generation)
    requires Tokens(s) && Flagged(s) && ClosedCancelled(s) && id !in s.objects
    ensures var t := Link(s, id, g); Tokens(t) && Flagged(t) && ClosedCancelled(t)
  {
  }

  lemma LinkRecorded(s: State, id: Id, g: Generation)
    requires Recorded(s) && Separate(s) && id !in s.owner
    ensures Recorded(Link(s, id, g))
  {
  }

  lemma LinkEmptied(s: State, id: Id, g: Generation)
    requires Emptied(s) && s.work.Some?
    ensures Emptied(Link(s, id, g))
  {
  }

  lemma LinkUsed(s: State, id: Id, g: Generation)
    requires s.reserved[g] > 0
    ensures Used(Link(s, id, g)) <= Used(s)
  {
    var t := Link(s, id, g);
    assert t.aliases.Keys == s.aliases.Keys + {id};
  }

  lemma LinkKeepsBut(s: State, id: Id, g: Generation)
    requires StateInv(s) && s.work == Some(g) && s.reserved[g] > 0
    requires id in s.seen + s.generated && id !in s.owner && id !in s.objects
    ensures var t := Link(s, id, g);
      && Belongs(t) && Separate(t) && Tokens(t) && Recorded(t) && Flagged(t) && ClosedCancelled(t)
      && Emptied(t) && Used(t) <= MAX_ALIASES
  {
    LinkBelongs(s, id, g);
    LinkSeparate(s, id, g);
    LinkCells(s, id, g);
    LinkRecorded(s, id, g);
    LinkEmptied(s, id, g);
    LinkUsed(s, id, g);
  }

  lemma AliasShape(s: State, id: Id, g: Generation)
    ensures var t := Alias(s, id, g);
      && id in t.aliases && t.aliases[id] == g && id in t.owner && t.owner[id] == g
      && t.reserved[g] == LessOne(s.reserved[g])
      && t.disposed == s.disposed && t.nextGeneration == s.nextGeneration && t.work == s.work
      && (id in s.seen ==> id in t.seen)
  {
    hide CancelCells;
    if id in s.cancelled {
      assert Alias(s, id, g).aliases == Link(s, id, g).aliases;
    }
  }

  lemma AliasKeeps(s: State, id: Id, g: Generation)
    requires StateInv(s) && s.work == Some(g) && s.reserved[g] > 0
    requires id in s.seen + s.generated && id !in s.owner && id !in s.objects
    ensures StateInv(Alias(s, id, g))
  {
    LinkKeepsBut(s, id, g);
    if id in s.cancelled {
      LinkCancelledOwned(s, id, g);
      LinkCancelled(Link(s, id, g), g);
    } else {
      LinkOwned(s, id, g);
    }
  }

  lemma LinkCancelled(t: State, g: Generation)
    requires Belongs(t) && Separate(t) && Tokens(t) && Recorded(t) && Flagged(t) && ClosedCancelled(t)
    requires Emptied(t) && Used(t) <= MAX_ALIASES && 1 <= g <= t.nextGeneration
    requires Owned(CancelAll(t, {OfMutation(g)}))
    ensures StateInv(CancelAll(t, {OfMutation(g)}))
  {
    CancelAllTokens(t, {OfMutation(g)});
    CancelAllRecorded(t, {OfMutation(g)});
    CancelAllFlagged(t, {OfMutation(g)});
    CancelAllRest(t, {OfMutation(g)});
  }

  lemma LinkCancelledOwned(s: State, id: Id, g: Generation)
    requires Owned(s) && 1 <= g <= s.nextGeneration
    ensures Owned(CancelAll(Link(s, id, g), {OfMutation(g)}))
  {
  }

  lemma LinkOwned(s: State, id: Id, g: Generation)
    requires Owned(s) && s.work == Some(g) && 1 <= g <= s.nextGeneration && id !in s.cancelled
    ensures Owned(Link(s, id, g))
  {
  }

  lemma ReservedBelongs(s: State, g: Generation, count: nat)
    requires Belongs(s) && s.work == Some(g)
    ensures Belongs(s.(reserved := s.reserved[g := s.reserved[g] + count]))
  {
  }

  lemma ReservedRest(s: State, r: multiset<Generation>)
    requires Separate(s) && ClosedCancelled(s) && Emptied(s) && s.work.Some?
    ensures var t := s.(reserved := r); Separate(t) && ClosedCancelled(t) && Emptied(t)
  {
  }

  lemma ReservedKeeps(s: State, g: Generation, count: nat)
    requires StateInv(s) && s.work == Some(g) && Used(s) + count <= MAX_ALIASES
    ensures StateInv(s.(reserved := s.reserved[g := s.reserved[g] + count]))
  {
    var r := s.reserved[g := s.reserved[g] + count];
    ReservedBelongs(s, g, count);
    CellsFrame(s, s.(reserved := r));
    ReservedRest(s, r);
    ReservedCount(s.reserved, g, count);
  }

  lemma ReservedCount(r: multiset<Generation>, g: Generation, count: nat)
    ensures |r[g := r[g] + count]| == |r| + count
  {
  }

  lemma ReserveKeeps(s: State, g: Generation, count: nat)
    requires StateInv(s) && s.work == Some(g)
    ensures StateInv(Reserve(s, g, count).0)
  {
    hide Belongs, Separate, Owned, Tokens, Recorded, Flagged, ClosedCancelled, Emptied, Clear;
    ClearKeeps(s);
    if Reserve(s, g, count).1 {
      ReservedKeeps(s, g, count);
    }
  }

  lemma HandedOut(s: State, id: Id)
    requires StateInv(s) && !s.disposed && HandleAvailable(s, id)
    ensures StateInv(s.(generated := s.generated + {id}))
  {
    HandedOutSeparate(s, id);
    CellsFrame(s, s.(generated := s.generated + {id}));
    HandedOutRest(s, id);
  }

  lemma HandedOutRest(s: State, id: Id)
    requires Belongs(s) && ClosedCancelled(s) && Emptied(s) && !s.disposed
    ensures var t := s.(generated := s.generated + {id}); Belongs(t) && ClosedCancelled(t) && Emptied(t)
  {
  }

  lemma HandedOutSeparate(s: State, id: Id)
    requires Separate(s) && HandleAvailable(s, id)
    ensures Separate(s.(generated := s.generated + {id}))
  {
  }

  /** A handle is new, or nothing was handed out and the state is as before or cleared. */
  ghost predicate HandleOutcome(s: State, t: State, h: Option<Id>) {
    && (h.Some? ==> t == s.(generated := s.generated + {h.value}) && HandleAvailable(s, h.value))
    && (h.None? ==> t == s || t == Clear(s))
  }

  lemma {:induction false} PickHandleOutcome(s: State, tries: seq<Option<Id>>, i: nat)
    requires i <= 16
    ensures var (t, h) := PickHandle(s, tries, i); HandleOutcome(s, t, h)
    decreases 16 - i
  {
    if i < 16 && i < |tries| && tries[i].Some? && !HandleAvailable(s, tries[i].value) {
      PickHandleOutcome(s, tries, i + 1);
    }
  }

  lemma UniqueHandleKeeps(s: State, tries: seq<Option<Id>>)
    requires StateInv(s) && !s.disposed
    ensures var (t, h) := UniqueHandle(s, tries); StateInv(t) && HandleOutcome(s, t, h)
  {
    ClearKeeps(s);
    PickHandleOutcome(s, tries, 0);
    var (t, h) := UniqueHandle(s, tries);
    if h.Some? {
      HandedOut(s, h.value);
    }
  }

  lemma PendedBelongs(s: State, id: Id, mutation: Option<Generation>)
    requires Belongs(s) && Separate(s) && id in s.seen
    requires mutation.Some? ==> id in s.aliases && mutation == Some(s.aliases[id])
    ensures var t := s.(pending := s.pending[id := mutation]); Belongs(t) && Separate(t)
  {
  }

  lemma PendedKeeps(s: State, id: Id, mutation: Option<Generation>)
    requires StateInv(s) && id in s.seen && !s.disposed
    requires mutation.Some? ==> id in s.aliases && mutation == Some(s.aliases[id])
    ensures StateInv(s.(pending := s.pending[id := mutation]))
  {
    hide Belongs, Separate, Owned, Tokens, Recorded, Flagged, ClosedCancelled, Emptied;
    PendedBelongs(s, id, mutation);
    PendedRest(s, id, mutation);
    CellsFrame(s, s.(pending := s.pending[id := mutation]));
  }

  lemma PendedRest(s: State, id: Id, mutation: Option<Generation>)
    requires ClosedCancelled(s) && !s.disposed
    ensures ClosedCancelled(s.(pending := s.pending[id := mutation]))
    ensures Emptied(s.(pending := s.pending[id := mutation]))
  {
  }

  lemma InsertPendingKeeps(s: State, id: Id, mutation: Option<Generation>)
    requires StateInv(s) && id in s.seen && !s.disposed
    requires mutation.Some? ==> id in s.aliases && mutation == Some(s.aliases[id])
    requires mutation.Some? ==> 1 <= mutation.value <= s.nextGeneration
    ensures StateInv(InsertPending(s, id, mutation))
  {
    hide StateInv;
    var h := HandleOf(mutation, id);
    if id in s.cancelled {
      CancelAllKeeps(s, {h});
      PendedKeeps(CancelAll(s, {h}), id, mutation);
    } else {
      PendedKeeps(s, id, mutation);
    }
  }
}
