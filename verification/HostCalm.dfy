/** What the operations of the host leave alone: settled cells, read slots and stream readers. */
module HostCalm {
  import opened Basics
  import opened HostState
  import opened HostSteps
  import opened HostInvariant
  import opened HostTasks

  function ReadStreams(s: State): set<Id> {
    set x | x in s.streams && x in s.objects && s.objects[x].mutation.None?
  }

  /** No cell is dispatched, and none goes back to idle. */
  ghost predicate Settles(s: State, t: State) {
    forall h: Handle {:trigger t.CellOf(h)} ::
      t.CellOf(h) == s.CellOf(h) || (s.CellOf(h).Idle? && t.CellOf(h).Cancelled?)
  }

  /** Tokens and the list of cancelled ids only grow, until the host is disposed. */
  ghost predicate Remembers(s: State, t: State) {
    && s.tokens <= t.tokens
    && (s.disposed ==> t.disposed)
    && (t.disposed || s.cancelled <= t.cancelled)
  }

  ghost predicate SlotsSame(s: State, t: State) {
    t.disposed || (t.readSlots == s.readSlots && ReadStreams(t) == ReadStreams(s))
  }

  /** Streams may close, but none opens and no reader moves. */
  ghost predicate StreamsSame(s: State, t: State) {
    t.streams <= s.streams && t.objects == s.objects
  }

  ghost predicate Calm(s: State, t: State) {
    Settles(s, t) && Remembers(s, t) && SlotsSame(s, t) && StreamsSame(s, t)
  }

  lemma CalmTrans(s: State, t: State, u: State)
    requires Calm(s, t) && Calm(t, u)
    ensures Calm(s, u)
  {
    SettlesTrans(s, t, u);
    hide Settles;
  }

  lemma SettlesTrans(s: State, t: State, u: State)
    requires Settles(s, t) && Settles(t, u)
    ensures Settles(s, u)
  {
  }

  /** An update of none of these is calm. */
  lemma CalmFrame(s: State, t: State)
    requires t.cells == s.cells && t.tokens == s.tokens && t.disposed == s.disposed && t.cancelled == s.cancelled
    requires t.readSlots == s.readSlots && t.streams == s.streams && t.objects == s.objects
    ensures Calm(s, t)
  {
  }

  lemma CancelAllCalm(s: State, hs: set<Handle>)
    ensures Calm(s, CancelAll(s, hs))
  {
  }

  lemma ClearSettles(s: State)
    ensures Settles(s, Clear(s))
  {
    CancelAllCalm(s, LiveHandles(s));
  }

  lemma ClearCalm(s: State)
    ensures Calm(s, Clear(s))
  {
    ClearSettles(s);
    hide Settles, CancelCells, LiveHandles, StreamTokens;
  }

  lemma RetireCalm(s: State, g: Generation, d: bool)
    ensures Calm(s, Retire(s, g, d))
  {
  }

  lemma FinishCalm(s: State, g: Generation)
    ensures Calm(s, FinishMutation(s, g).0)
  {
    var c := CancelAll(s, {OfMutation(g)});
    FinishIsRetire(s, g);
    hide Calm, FinishMutation, CancelAll, Retire;
    CancelAllCalm(s, {OfMutation(g)});
    RetireCalm(c, g, c.CellOf(OfMutation(g)).Dispatched?);
    CalmTrans(s, c, FinishMutation(s, g).0);
  }

  lemma ReserveCalm(s: State, g: Generation, n: nat)
    ensures Calm(s, Reserve(s, g, n).0)
  {
    hide Calm, Clear;
    ClearCalm(s);
    CalmFrame(s, s.(reserved := s.reserved[g := s.reserved[g] + n]));
  }

  lemma AliasCalm(s: State, id: Id, g: Generation)
    ensures Calm(s, Alias(s, id, g))
  {
    CalmFrame(s, Link(s, id, g));
    hide Calm, Link, CancelAll;
    CancelAllCalm(Link(s, id, g), {OfMutation(g)});
    CalmTrans(s, Link(s, id, g), CancelAll(Link(s, id, g), {OfMutation(g)}));
  }

  lemma PendedCalm(s: State, id: Id, mutation: Option<Generation>)
    ensures Calm(s, s.(pending := s.pending[id := mutation]))
  {
    CalmFrame(s, s.(pending := s.pending[id := mutation]));
  }

  lemma InsertPendingCalm(s: State, id: Id, mutation: Option<Generation>)
    ensures Calm(s, InsertPending(s, id, mutation))
  {
    var c := CancelAll(s, {HandleOf(mutation, id)});
    hide Calm, CancelAll;
    CancelAllCalm(s, {HandleOf(mutation, id)});
    PendedCalm(s, id, mutation);
    PendedCalm(c, id, mutation);
    CalmTrans(s, c, c.(pending := c.pending[id := mutation]));
  }

  lemma MutationPendingCalm(s: State, id: Id, g: Generation)
    ensures Calm(s, MutationPending(s, id, g))
  {
    hide Calm, Alias, InsertPending;
    AliasCalm(s, id, g);
    InsertPendingCalm(Alias(s, id, g), id, Some(g));
    CalmTrans(s, Alias(s, id, g), MutationPending(s, id, g));
  }

  lemma HandleCalm(s: State, tries: seq<Option<Id>>)
    ensures Calm(s, UniqueHandle(s, tries).0)
  {
    HandleOutcomes(s, tries);
    var (t, h) := UniqueHandle(s, tries);
    ClearCalm(s);
    CalmFrame(s, s);
    if h.Some? {
      CalmFrame(s, s.(generated := s.generated + {h.value}));
    }
    hide Calm, UniqueHandle, Clear, HandleAvailable;
  }

  lemma OpenMutationCalm(s: State, id: Id)
    ensures Calm(s, OpenMutation(s, id).0)
  {
    var g := s.nextGeneration;
    var (t, ok) := Reserve(s, g, 2);
    hide Calm, Reserve, MutationPending;
    ReserveCalm(s, g, 2);
    if ok {
      var w := t.(work := Some(g));
      CalmFrame(t, w);
      MutationPendingCalm(w, id, g);
      CalmTrans(s, t, w);
      CalmTrans(s, w, MutationPending(w, id, g));
    }
  }

  lemma StartMutationCalm(s: State, id: Id)
    ensures Calm(s, StartMutation(s, id).0)
  {
    hide Calm, OpenMutation;
    if s.work.Some? {
      CalmFrame(s, s);
    } else {
      var n := s.(nextGeneration := s.nextGeneration + 1);
      CalmFrame(s, n);
      OpenMutationCalm(n, id);
      CalmTrans(s, n, OpenMutation(n, id).0);
    }
  }

  lemma {:induction false} FinishEachCalm(s: State, gs: seq<Generation>)
    ensures Calm(s, FinishEach(s, gs))
    decreases |gs|
  {
    hide Calm, FinishMutation;
    CalmFrame(s, s);
    if gs != [] {
      FinishCalm(s, gs[0]);
      FinishEachCalm(FinishMutation(s, gs[0]).0, gs[1..]);
      CalmTrans(s, FinishMutation(s, gs[0]).0, FinishEach(s, gs));
    }
  }

  lemma ExpireCalm(s: State, expired: seq<Id>)
    ensures Calm(s, ExpireAuthorizations(s, expired))
  {
    hide Calm, FinishEach, ExpiredOwners;
    FinishEachCalm(s, ExpiredOwners(s, expired));
  }

  lemma GrantCalm(s: State, g: Generation, tries: seq<Option<Id>>, clock: bool)
    ensures Calm(s, Grant(s, g, tries, clock))
  {
    var (t, h) := UniqueHandle(s, tries);
    hide Calm, UniqueHandle, Alias, FinishMutation;
    HandleCalm(s, tries);
    if h.None? {
      FinishCalm(t, g);
      CalmTrans(s, t, FinishMutation(t, g).0);
    } else {
      var u := Alias(t, h.value, g);
      AliasCalm(t, h.value, g);
      CalmTrans(s, t, u);
      FinishCalm(u, g);
      CalmTrans(s, u, FinishMutation(u, g).0);
      var v := u.(authorizations := u.authorizations[h.value := g]);
      CalmFrame(u, v);
      CalmTrans(s, u, v);
    }
  }

  lemma FinishAuthorizeCalm(s: State, id: Id, connectionId: Id, g: Generation, ok: bool,
                            tries: seq<Option<Id>>, clock: bool)
    ensures Calm(s, FinishAuthorize(s, id, connectionId, g, ok, tries, clock))
  {
    var t := s.(pending := s.pending - {id});
    hide Calm, Grant, FinishMutation;
    CalmFrame(s, t);
    GrantCalm(t, g, tries, clock);
    FinishCalm(t, g);
    CalmTrans(s, t, Grant(t, g, tries, clock));
    CalmTrans(s, t, FinishMutation(t, g).0);
  }

  lemma ConsumeCalm(s: State, id: Id, a: Id, g: Generation)
    ensures Calm(s, Consume(s, id, a, g).0)
  {
    var (t, ok) := Reserve(s, g, 2);
    hide Calm, Reserve, MutationPending;
    ReserveCalm(s, g, 2);
    if ok {
      var u := t.(authorizations := t.authorizations - {a});
      CalmFrame(t, u);
      MutationPendingCalm(u, id, g);
      CalmTrans(s, t, u);
      CalmTrans(s, u, MutationPending(u, id, g));
    }
  }

  lemma MarkCalm(s: State, target: Id)
    ensures Calm(s, Mark(s, target))
  {
  }
}
