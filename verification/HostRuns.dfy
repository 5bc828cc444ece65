/** Every step of the host keeps the invariant, so every run does. */
module HostRuns {
  import opened Basics
  import opened HostState
  import opened HostSteps
  import opened HostInvariant
  import opened HostOperations
  import opened HostTasks

  // ---- no operation but a grant adds an authorization

  ghost predicate Within(s: State, t: State) {
    forall a | a in t.authorizations :: a in s.authorizations && t.authorizations[a] == s.authorizations[a]
  }

  lemma FinishWithin(s: State, g: Generation)
    ensures Within(s, FinishMutation(s, g).0)
  {
  }

  lemma ReserveWithin(s: State, g: Generation, n: nat)
    ensures Within(s, Reserve(s, g, n).0)
  {
    if Reserve(s, g, n).1 {
      assert Within(s, s.(reserved := s.reserved[g := s.reserved[g] + n]));
    } else {
      assert Within(s, Clear(s));
    }
  }

  lemma AliasWithin(s: State, id: Id, g: Generation)
    ensures Within(s, Alias(s, id, g))
  {
    if id in s.cancelled {
      assert Within(s, CancelAll(Link(s, id, g), {OfMutation(g)}));
    }
  }

  lemma InsertPendingWithin(s: State, id: Id, mutation: Option<Generation>)
    ensures Within(s, InsertPending(s, id, mutation))
  {
    if id in s.cancelled {
      assert Within(s, CancelAll(s, {HandleOf(mutation, id)}));
    }
  }

  lemma MutationPendingWithin(s: State, id: Id, g: Generation)
    ensures Within(s, MutationPending(s, id, g))
  {
    AliasWithin(s, id, g);
    InsertPendingWithin(Alias(s, id, g), id, Some(g));
    hide Alias, InsertPending;
  }

  lemma HandleWithin(s: State, tries: seq<Option<Id>>)
    ensures Within(s, UniqueHandle(s, tries).0)
  {
    HandleOutcomes(s, tries);
    var (t, h) := UniqueHandle(s, tries);
    if h.None? {
      assert Within(s, Clear(s));
    }
  }

  lemma ReleaseWithin(s: State, mutation: Option<Generation>)
    ensures Within(s, Release(s, mutation))
  {
    if mutation.Some? {
      FinishWithin(s, mutation.value);
    }
  }

  lemma RespondWithin(s: State, control: Id, mutation: Option<Generation>, tries: seq<Option<Id>>)
    ensures Within(s, Respond(s, control, mutation, tries))
  {
    HandleWithin(s, tries);
    var (t, h) := UniqueHandle(s, tries);
    hide UniqueHandle, Release, Alias;
    if h.Some? {
      if mutation.Some? {
        AliasWithin(t, h.value, mutation.value);
      }
    } else {
      ReleaseWithin(t, mutation);
    }
  }

  lemma FinishStreamWithin(s: State, id: Id, connectionId: Id, mutation: Option<Generation>, ok: bool,
                           tries: seq<Option<Id>>)
    ensures Within(s, FinishStream(s, id, connectionId, mutation, ok, tries))
  {
    var t := s.(pending := s.pending - {id});
    hide Respond, Release;
    ReleaseWithin(t, mutation);
    RespondWithin(t, id, mutation, tries);
  }

  lemma CloseWithin(s: State, id: Id)
    ensures Within(s, CloseStream(s, id))
  {
    hide FinishMutation;
    if id in s.streams && id in s.objects && s.objects[id].mutation.Some? {
      FinishWithin(s, s.objects[id].mutation.value);
    }
  }

  lemma CancelTargetWithin(s: State, target: Id)
    ensures Within(s, CancelTarget(s, target).0)
  {
    hide FinishMutation, Clear, CancelPlain;
    if |s.cancelled| >= MAX_CONTROLS && target !in s.cancelled {
      ClearWithin(s);
    } else if target in s.aliases {
      FinishWithin(s, s.aliases[target]);
    } else {
      CancelPlainWithin(Mark(s, target), target);
    }
  }

  lemma ClearWithin(s: State)
    ensures Within(s, Clear(s))
  {
  }

  lemma CancelPlainWithin(s: State, target: Id)
    ensures Within(s, CancelPlain(s, target))
  {
    hide CancelCells;
  }

  // ---- the three shapes of a step

  /** Only the state changes. */
  lemma StateStep(y: System, t: State)
    requires Inv(y) && StateInv(t) && Within(y.state, t)
    requires forall i | i in y.tasks :: TaskOk(t, i, y.tasks[i])
    ensures Inv(System(t, y.tasks))
  {
    hide StateInv, TaskOk;
  }

  /** The task `id` ends. */
  lemma DropStep(y: System, id: Id, t: State)
    requires Inv(y) && StateInv(t) && Within(y.state, t)
    requires forall i | i in y.tasks && i != id :: TaskOk(t, i, y.tasks[i])
    ensures Inv(Drop(y, id, t))
  {
    hide StateInv, TaskOk;
  }

  /** The task `id` starts or moves on. */
  lemma MoveStep(y: System, id: Id, k: Task, t: State)
    requires Inv(y) && StateInv(t) && Within(y.state, t) && TaskOk(t, id, k)
    requires forall i | i in y.tasks && i != id :: TaskOk(t, i, y.tasks[i])
    requires Holds(k) ==> (forall i | i in y.tasks && i != id && Holds(y.tasks[i]) ::
                             y.tasks[i].generation != k.generation)
    requires Holds(k) ==> (forall a | a in t.authorizations :: t.authorizations[a] != k.generation)
    requires Pulls(k) ==> (forall i | i in y.tasks && i != id && Pulls(y.tasks[i]) ::
                             y.tasks[i].stream != k.stream)
    ensures Inv(System(t, y.tasks[id := k]))
  {
    hide StateInv, TaskOk;
  }

  // ---- the steps, one by one

  lemma ClearStep(y: System)
    requires Inv(y)
    ensures Inv(y.(state := Clear(y.state)))
  {
    var s := y.state;
    ClearKeeps(s);
    assert Within(s, Clear(s));
    hide StateInv, TaskOk, Clear;
    forall i | i in y.tasks ensures TaskOk(Clear(s), i, y.tasks[i]) {
      ClearTask(s, i, y.tasks[i]);
    }
    StateStep(y, Clear(s));
  }

  lemma AcceptTask(s: State, id: Id, i: Id, k: Task)
    requires TaskOk(s, i, k)
    ensures TaskOk(s.(seen := s.seen + {id}), i, k)
  {
  }

  lemma AcceptedTask(s: State, id: Id, c: Command)
    requires Separate(s) && !s.disposed && id !in s.aliases && id !in s.history && id !in s.seen
    ensures TaskOk(s.(seen := s.seen + {id}), id, Accepted(c))
  {
  }

  lemma StateSeparate(s: State)
    requires StateInv(s)
    ensures Separate(s) && (s.disposed ==> s.connection.None? && s.readSlots == 0)
  {
    hide Belongs, Separate, Owned, Tokens, Recorded, Flagged, ClosedCancelled;
  }

  lemma AcceptedFacts(y: System, id: Id)
    requires TasksOk(y) && IsAccepted(y, id)
    ensures !y.state.disposed ==> id in y.state.seen && id !in y.state.owner
  {
    assert TaskOk(y.state, id, y.tasks[id]);
  }

  lemma AcceptStep(y: System, id: Id, c: Command)
    requires Inv(y)
    ensures Inv(DoAccept(y, id, c))
  {
    var s := y.state;
    hide StateInv, Clear, TaskOk, Separate;
    ClearStep(y);
    StateSeparate(s);
    if !s.disposed && |s.seen| < MAX_CONTROLS
       && !(id in s.generated || id in s.aliases || id in s.history || id in s.seen) {
      var t := s.(seen := s.seen + {id});
      SeenKeeps(s, id);
      AcceptedTask(s, id, c);
      forall i | i in y.tasks ensures TaskOk(t, i, y.tasks[i]) {
        AcceptTask(s, id, i, y.tasks[i]);
      }
      MoveStep(y, id, Accepted(c), t);
    }
    hide Inv;
  }

  lemma ConnectStep(y: System, id: Id, tries: seq<Option<Id>>)
    requires Inv(y)
    ensures Inv(Drop(y, id, Connecting(y.state, tries)))
  {
    var s := y.state;
    hide StateInv, TaskOk, UniqueHandle;
    if !s.disposed && s.connection.None? {
      var (t, h) := UniqueHandle(s, tries);
      var u := Connecting(s, tries);
      UniqueHandleKeeps(s, tries);
      HandleWithin(s, tries);
      if h.Some? {
        ConnectedKeeps(t, Some(Connection(h.value, None)));
      }
      forall i | i in y.tasks ensures TaskOk(u, i, y.tasks[i]) {
        HandleTask(s, tries, i, y.tasks[i]);
        ConnectedTask(t, u.connection, i, y.tasks[i]);
      }
      DropStep(y, id, u);
    } else {
      DropStep(y, id, s);
    }
  }

  lemma ConnectedTask(s: State, c: Option<Connection>, i: Id, k: Task)
    requires TaskOk(s, i, k)
    ensures TaskOk(s.(connection := c), i, k)
  {
  }

  lemma ReadAccessStep(y: System, id: Id, connectionId: Id, tries: seq<Option<Id>>, clock: bool)
    requires Inv(y)
    ensures Inv(Drop(y, id, GrantingRead(y.state, connectionId, tries, clock)))
  {
    var s := y.state;
    hide StateInv, TaskOk, UniqueHandle, Separate;
    StateSeparate(s);
    if s.Bound(connectionId) {
      var (t, h) := UniqueHandle(s, tries);
      var u := GrantingRead(s, connectionId, tries, clock);
      UniqueHandleKeeps(s, tries);
      HandleWithin(s, tries);
      if h.Some? {
        ConnectedKeeps(t, u.connection);
      }
      forall i | i in y.tasks ensures TaskOk(u, i, y.tasks[i]) {
        HandleTask(s, tries, i, y.tasks[i]);
        ConnectedTask(t, u.connection, i, y.tasks[i]);
      }
      DropStep(y, id, u);
    } else {
      DropStep(y, id, s);
    }
  }

  lemma OpenReadKeeps(s: State, id: Id)
    requires StateInv(s) && !s.disposed && id in s.seen
    ensures StateInv(OpenRead(s, id)) && Within(s, OpenRead(s, id))
  {
    hide StateInv, InsertPending;
    SlotsKeep(s, s.readSlots + 1);
    InsertPendingKeeps(s.(readSlots := s.readSlots + 1), id, None);
    InsertPendingWithin(s.(readSlots := s.readSlots + 1), id, None);
  }

  lemma OpenReadTask(s: State, id: Id, i: Id, k: Task)
    requires TaskOk(s, i, k) && i != id
    ensures TaskOk(OpenRead(s, id), i, k)
  {
    hide TaskOk, InsertPending;
    SlotsTask(s, s.readSlots + 1, i, k);
    PendingTask(s.(readSlots := s.readSlots + 1), id, None, i, k);
  }

  lemma ReadStarted(y: System, id: Id, connectionId: Id)
    requires Inv(y) && IsAccepted(y, id) && !y.state.disposed
    ensures Inv(System(OpenRead(y.state, id), y.tasks[id := Reading(connectionId)]))
  {
    var s := y.state;
    hide StateInv, TaskOk, OpenRead;
    AcceptedFacts(y, id);
    OpenReadKeeps(s, id);
    forall i | i in y.tasks && i != id ensures TaskOk(OpenRead(s, id), i, y.tasks[i]) {
      OpenReadTask(s, id, i, y.tasks[i]);
    }
    ReadingTask(s, id, connectionId);
    MoveStep(y, id, Reading(connectionId), OpenRead(s, id));
  }

  /** A command that is refused leaves the state alone. */
  lemma RefuseStep(y: System, id: Id)
    requires Inv(y)
    ensures Inv(Drop(y, id, y.state))
  {
    hide StateInv, TaskOk;
    DropStep(y, id, y.state);
  }

  lemma BoundLive(y: System, connectionId: Id)
    requires Inv(y) && y.state.Bound(connectionId)
    ensures !y.state.disposed
  {
    hide TasksOk, Single, SinglePull, StateInv, Separate;
    StateSeparate(y.state);
  }

  lemma StartReadStep(y: System, id: Id, c: Command, live: bool)
    requires Inv(y) && IsAccepted(y, id) && c.Read?
    ensures Inv(StartingRead(y, id, c, live))
  {
    hide Inv, OpenRead, Drop;
    RefuseStep(y, id);
    if y.state.Bound(c.connection) {
      BoundLive(y, c.connection);
      ReadStarted(y, id, c.connection);
    }
  }

  lemma SlotsTask(s: State, n: nat, i: Id, k: Task)
    requires TaskOk(s, i, k)
    ensures TaskOk(s.(readSlots := n), i, k)
  {
  }

  lemma ReadingTask(s: State, id: Id, connectionId: Id)
    requires id in s.seen
    ensures TaskOk(OpenRead(s, id), id, Reading(connectionId))
  {
    if id in s.cancelled {
      assert OpenRead(s, id).seen == s.seen;
    }
  }

  /** No other task holds the mutation that the task `id` holds. */
  lemma OnlyHolder(y: System, id: Id, i: Id)
    requires Single(y) && id in y.tasks && Holds(y.tasks[id]) && i in y.tasks && i != id
    ensures !(Holds(y.tasks[i]) && y.tasks[i].generation == y.tasks[id].generation)
  {
  }

  lemma HolderEntitled(y: System, id: Id)
    requires Inv(y) && id in y.tasks && Holds(y.tasks[id])
    ensures Entitled(y.state, Some(y.tasks[id].generation))
  {
    hide Belongs, Separate, Tokens, Recorded, Flagged, ClosedCancelled, Emptied, Single, SinglePull;
    assert TaskOk(y.state, id, y.tasks[id]);
  }

  lemma EndStreamStep(y: System, id: Id, mutation: Option<Generation>, ok: bool, tries: seq<Option<Id>>)
    requires Inv(y) && id in y.tasks && (y.tasks[id].Reading? || y.tasks[id].Executing?)
    requires mutation == if y.tasks[id].Executing? then Some(y.tasks[id].generation) else None
    ensures Inv(Drop(y, id, FinishStream(y.state, id, y.tasks[id].connection, mutation, ok, tries)))
  {
    var s, k := y.state, y.tasks[id];
    var t := FinishStream(s, id, k.connection, mutation, ok, tries);
    hide StateInv, TaskOk, FinishStream, Separate;
    StateSeparate(s);
    if mutation.Some? {
      HolderEntitled(y, id);
    }
    FinishStreamKeeps(s, id, k.connection, mutation, ok, tries);
    FinishStreamWithin(s, id, k.connection, mutation, ok, tries);
    forall i | i in y.tasks && i != id ensures TaskOk(t, i, y.tasks[i]) {
      if mutation.Some? {
        OnlyHolder(y, id, i);
      }
      FinishStreamTask(s, id, k.connection, mutation, ok, tries, i, y.tasks[i]);
    }
    DropStep(y, id, t);
  }

  // ---- authorize

  lemma ExpireKeeps(s: State, expired: seq<Id>)
    requires StateInv(s)
    ensures var t := ExpireAuthorizations(s, expired);
      && StateInv(t) && Within(s, t) && t.disposed == s.disposed && t.nextGeneration == s.nextGeneration
      && t.seen == s.seen && t.owner == s.owner
  {
    StateBelongs(s);
    hide StateInv, Belongs;
    ExpiredOwnersRange(s, expired);
    FinishEachKeeps(s, ExpiredOwners(s, expired));
  }

  lemma StateBelongs(s: State)
    requires StateInv(s)
    ensures Belongs(s) && Owned(s)
  {
    hide Belongs, Owned;
  }

  lemma OpenMutationTask(s: State, id: Id, i: Id, k: Task)
    requires TaskOk(s, i, k) && i != id && (Holds(k) ==> k.generation != s.nextGeneration)
    ensures TaskOk(OpenMutation(s, id).0, i, k)
  {
    var g := s.nextGeneration;
    hide TaskOk, Reserve, MutationPending;
    ReserveTask(s, g, 2, i, k);
    var (t, ok) := Reserve(s, g, 2);
    if ok {
      WorkTask(t, g, i, k);
      MutationPendingTask(t.(work := Some(g)), id, g, i, k);
    }
  }

  lemma WorkTask(s: State, g: Generation, i: Id, k: Task)
    requires TaskOk(s, i, k) && (Holds(k) ==> k.generation != g)
    ensures TaskOk(s.(work := Some(g)), i, k)
  {
  }

  lemma NextGenerationTask(s: State, i: Id, k: Task)
    requires TaskOk(s, i, k)
    ensures TaskOk(s.(nextGeneration := s.nextGeneration + 1), i, k)
  {
  }

  lemma StartMutationTask(s: State, id: Id, i: Id, k: Task)
    requires TaskOk(s, i, k) && i != id && (Holds(k) ==> k.generation <= s.nextGeneration)
    ensures TaskOk(StartMutation(s, id).0, i, k)
  {
    hide TaskOk, OpenMutation;
    if s.work.None? {
      NextGenerationTask(s, i, k);
      OpenMutationTask(s.(nextGeneration := s.nextGeneration + 1), id, i, k);
    }
  }

  lemma OpenMutationWithin(s: State, id: Id)
    ensures Within(s, OpenMutation(s, id).0)
  {
    hide Reserve, MutationPending;
    var (t, ok) := Reserve(s, s.nextGeneration, 2);
    ReserveWithin(s, s.nextGeneration, 2);
    if ok {
      MutationPendingWithin(t.(work := Some(s.nextGeneration)), id, s.nextGeneration);
    }
  }

  lemma StartMutationWithin(s: State, id: Id)
    ensures Within(s, StartMutation(s, id).0)
  {
    hide OpenMutation;
    if s.work.None? {
      OpenMutationWithin(s.(nextGeneration := s.nextGeneration + 1), id);
    }
  }

  lemma ReserveShape(s: State, g: Generation, n: nat)
    ensures Reserve(s, g, n).1 ==>
      var t := Reserve(s, g, n).0;
      t.nextGeneration == s.nextGeneration && t.seen == s.seen && t.owner == s.owner && t.disposed == s.disposed
      && t.work == s.work && t.reserved[g] == s.reserved[g] + n
  {
    hide Clear;
  }

  lemma OpenMutationShape(s: State, id: Id)
    requires id in s.seen && OpenMutation(s, id).1
    ensures var t := OpenMutation(s, id).0;
      && t.nextGeneration == s.nextGeneration && id in t.seen && id in t.owner
      && t.owner[id] == s.nextGeneration && t.reserved[s.nextGeneration] >= 1
      && id in t.pending && t.pending[id] == Some(s.nextGeneration)
  {
    var g := s.nextGeneration;
    hide Reserve, MutationPending;
    ReserveShape(s, g, 2);
    MutationPendingShape(Reserve(s, g, 2).0.(work := Some(g)), id, g);
  }

  /** The started mutation is the newest one, and its authorize may still take one alias. */
  lemma Started(s: State, id: Id)
    requires id in s.seen && StartMutation(s, id).1
    ensures var t := StartMutation(s, id).0;
      && t.nextGeneration == s.nextGeneration + 1 && id in t.seen && id in t.owner
      && t.owner[id] == t.nextGeneration && t.reserved[t.nextGeneration] >= 1
      && id in t.pending && t.pending[id] == Some(t.nextGeneration)
  {
    hide OpenMutation;
    OpenMutationShape(s.(nextGeneration := s.nextGeneration + 1), id);
  }

  lemma MutationPendingShape(s: State, id: Id, g: Generation)
    ensures var t := MutationPending(s, id, g);
      && t.nextGeneration == s.nextGeneration && (id in s.seen ==> id in t.seen) && id in t.owner
      && t.owner[id] == g && t.reserved[g] == LessOne(s.reserved[g]) && id in t.pending && t.pending[id] == Some(g)
  {
    AliasShape(s, id, g);
    hide Alias;
    InsertPendingShape(Alias(s, id, g), id, Some(g));
    hide InsertPending;
  }

  lemma InsertPendingShape(s: State, id: Id, mutation: Option<Generation>)
    ensures var t := InsertPending(s, id, mutation);
      && t.nextGeneration == s.nextGeneration && t.seen == s.seen && t.owner == s.owner && t.reserved == s.reserved
      && id in t.pending && t.pending[id] == mutation
  {
    hide CancelCells;
    if id in s.cancelled {
      assert InsertPending(s, id, mutation).owner == s.owner;
    }
  }

  /** Every generation known to a task or an authorization has been handed out. */
  lemma KnownGenerations(y: System)
    requires Inv(y)
    ensures forall i | i in y.tasks && Holds(y.tasks[i]) :: y.tasks[i].generation <= y.state.nextGeneration
    ensures forall a | a in y.state.authorizations :: y.state.authorizations[a] <= y.state.nextGeneration
  {
    hide StateInv, Single, SinglePull;
    StateBelongs(y.state);
    forall i | i in y.tasks && Holds(y.tasks[i]) ensures y.tasks[i].generation <= y.state.nextGeneration {
      assert TaskOk(y.state, i, y.tasks[i]);
    }
  }

  lemma ExpireTask(s: State, expired: seq<Id>, i: Id, k: Task)
    requires TaskOk(s, i, k)
    ensures TaskOk(ExpireAuthorizations(s, expired), i, k)
  {
    hide TaskOk, FinishEach, ExpiredOwners;
    FinishEachTask(s, ExpiredOwners(s, expired), i, k);
  }

  lemma AuthorizeState(y: System, id: Id, expired: seq<Id>)
    requires Inv(y) && IsAccepted(y, id) && !y.state.disposed
    ensures var t := StartMutation(ExpireAuthorizations(y.state, expired), id).0;
      StateInv(t) && Within(y.state, t)
      && forall i | i in y.tasks && i != id :: TaskOk(t, i, y.tasks[i])
  {
    var s := y.state;
    var e := ExpireAuthorizations(s, expired);
    hide StateInv, TaskOk, StartMutation, ExpireAuthorizations;
    AcceptedFacts(y, id);
    ExpireKeeps(s, expired);
    StartMutationKeeps(e, id);
    StartMutationWithin(e, id);
    KnownGenerations(y);
    forall i | i in y.tasks && i != id ensures TaskOk(StartMutation(e, id).0, i, y.tasks[i]) {
      ExpireTask(s, expired, i, y.tasks[i]);
      StartMutationTask(e, id, i, y.tasks[i]);
    }
  }

  lemma AuthorizingTask(s: State, id: Id, connectionId: Id)
    requires id in s.seen && id in s.owner && s.owner[id] == s.nextGeneration && s.reserved[s.nextGeneration] >= 1
    requires id in s.pending && s.pending[id] == Some(s.nextGeneration)
    ensures TaskOk(s, id, Authorizing(connectionId, s.nextGeneration))
  {
  }

  lemma AuthorizeStarted(y: System, id: Id, connectionId: Id, expired: seq<Id>)
    requires Inv(y) && IsAccepted(y, id) && !y.state.disposed
    requires StartMutation(ExpireAuthorizations(y.state, expired), id).1
    ensures var t := StartMutation(ExpireAuthorizations(y.state, expired), id).0;
      Inv(System(t, y.tasks[id := Authorizing(connectionId, t.nextGeneration)]))
  {
    var e := ExpireAuthorizations(y.state, expired);
    var t := StartMutation(e, id).0;
    hide StateInv, TaskOk, StartMutation, ExpireAuthorizations;
    AcceptedFacts(y, id);
    ExpireKeeps(y.state, expired);
    Started(e, id);
    AuthorizingTask(t, id, connectionId);
    AuthorizeState(y, id, expired);
    KnownGenerations(y);
    MoveStep(y, id, Authorizing(connectionId, t.nextGeneration), t);
  }

  lemma StartAuthorizeStep(y: System, id: Id, c: Command, expired: seq<Id>)
    requires Inv(y) && IsAccepted(y, id) && c.Authorize?
    ensures Inv(StartingAuthorize(y, id, c, expired))
  {
    hide Inv, StartMutation, ExpireAuthorizations, Drop, TaskOk, StateInv, Within;
    RefuseStep(y, id);
    if y.state.Bound(c.connection) {
      BoundLive(y, c.connection);
      var (t, ok) := StartMutation(ExpireAuthorizations(y.state, expired), id);
      if ok {
        AuthorizeStarted(y, id, c.connection, expired);
      } else {
        AuthorizeState(y, id, expired);
        DropStep(y, id, t);
      }
    }
  }

  /** Without an earlier authorization, a grant leaves at most one, and it is for `g`. */
  lemma GrantAuthorizations(s: State, g: Generation, tries: seq<Option<Id>>, clock: bool)
    requires forall a :: a !in s.authorizations
    ensures var t := Grant(s, g, tries, clock);
      forall a, b | a in t.authorizations && b in t.authorizations :: a == b && t.authorizations[a] == g
  {
    hide UniqueHandle, Alias, FinishMutation;
    var (t, h) := UniqueHandle(s, tries);
    HandleWithin(s, tries);
    if h.None? {
      FinishWithin(t, g);
    } else {
      var u := Alias(t, h.value, g);
      AliasWithin(t, h.value, g);
      FinishWithin(u, g);
    }
  }

  lemma GrantStep(y: System, id: Id, t: State, g: Generation)
    requires Inv(y) && StateInv(t)
    requires forall i | i in y.tasks && i != id :: TaskOk(t, i, y.tasks[i])
    requires forall i | i in y.tasks && i != id && Holds(y.tasks[i]) :: y.tasks[i].generation != g
    requires forall a, b | a in t.authorizations && b in t.authorizations :: a == b && t.authorizations[a] == g
    ensures Inv(Drop(y, id, t))
  {
    hide StateInv, TaskOk;
  }

  /** While a task holds the current mutation, nothing is authorized. */
  lemma HeldUnauthorized(y: System, id: Id)
    requires Inv(y) && id in y.tasks && Holds(y.tasks[id]) && y.state.Owns(y.tasks[id].generation)
    ensures forall a :: a !in y.state.authorizations
  {
    hide StateInv, SinglePull, TasksOk;
    StateBelongs(y.state);
  }

  lemma EndAuthorizeStep(y: System, id: Id, ok: bool, tries: seq<Option<Id>>, clock: bool)
    requires Inv(y) && id in y.tasks && y.tasks[id].Authorizing?
    ensures var k := y.tasks[id];
      Inv(Drop(y, id, FinishAuthorize(y.state, id, k.connection, k.generation, ok, tries, clock)))
  {
    var s, k, g := y.state, y.tasks[id], y.tasks[id].generation;
    var t := FinishAuthorize(s, id, k.connection, g, ok, tries, clock);
    hide StateInv, TaskOk, FinishAuthorize, Separate;
    StateSeparate(s);
    HolderEntitled(y, id);
    FinishAuthorizeKeeps(s, id, k.connection, g, ok, tries, clock);
    forall i | i in y.tasks && i != id ensures TaskOk(t, i, y.tasks[i]) {
      OnlyHolder(y, id, i);
      FinishAuthorizeTask(s, id, k.connection, g, ok, tries, clock, i, y.tasks[i]);
    }
    if Grants(s, id, k.connection, g, ok) {
      HeldUnauthorized(y, id);
      FinishAuthorizeGrants(s, id, k.connection, g, ok, tries, clock);
      forall i | i in y.tasks && i != id && Holds(y.tasks[i]) ensures y.tasks[i].generation != g {
        OnlyHolder(y, id, i);
      }
      GrantStep(y, id, t, g);
    } else {
      FinishAuthorizeWithin(s, id, k.connection, g, ok, tries, clock);
      DropStep(y, id, t);
    }
  }

  predicate Grants(s: State, id: Id, connectionId: Id, g: Generation, ok: bool) {
    id in s.pending && s.Owns(g) && OfMutation(g) !in s.tokens && s.Bound(connectionId) && ok
  }

  lemma FinishAuthorizeGrants(s: State, id: Id, connectionId: Id, g: Generation, ok: bool,
                              tries: seq<Option<Id>>, clock: bool)
    requires Grants(s, id, connectionId, g, ok) && forall a :: a !in s.authorizations
    ensures var t := FinishAuthorize(s, id, connectionId, g, ok, tries, clock);
      forall a, b | a in t.authorizations && b in t.authorizations :: a == b && t.authorizations[a] == g
  {
    hide Grant, FinishMutation;
    GrantAuthorizations(s.(pending := s.pending - {id}), g, tries, clock);
  }

  lemma FinishAuthorizeWithin(s: State, id: Id, connectionId: Id, g: Generation, ok: bool,
                              tries: seq<Option<Id>>, clock: bool)
    requires !Grants(s, id, connectionId, g, ok)
    ensures Within(s, FinishAuthorize(s, id, connectionId, g, ok, tries, clock))
  {
    hide Grant, FinishMutation;
    FinishWithin(s.(pending := s.pending - {id}), g);
  }

  // ---- execute

  lemma ConsumeKeeps(s: State, id: Id, a: Id, g: Generation)
    requires StateInv(s) && !s.disposed && s.work == Some(g) && 1 <= g <= s.nextGeneration
    requires id in s.seen && id !in s.owner
    ensures StateInv(Consume(s, id, a, g).0)
  {
    hide StateInv, Reserve, MutationPending;
    ReserveKeeps(s, g, 2);
    ReserveShape(s, g, 2);
    var (t, ok) := Reserve(s, g, 2);
    if ok {
      ConsumedKeeps(t, a);
      MutationPendingKeeps(t.(authorizations := t.authorizations - {a}), id, g);
    }
  }

  lemma ConsumedTask(s: State, a: Id, i: Id, k: Task)
    requires TaskOk(s, i, k)
    ensures TaskOk(s.(authorizations := s.authorizations - {a}), i, k)
  {
  }

  lemma ConsumeTask(s: State, id: Id, a: Id, g: Generation, i: Id, k: Task)
    requires TaskOk(s, i, k) && i != id && !(Holds(k) && k.generation == g)
    ensures TaskOk(Consume(s, id, a, g).0, i, k)
  {
    hide TaskOk, Reserve, MutationPending;
    ReserveTask(s, g, 2, i, k);
    var (t, ok) := Reserve(s, g, 2);
    if ok {
      ConsumedTask(t, a, i, k);
      MutationPendingTask(t.(authorizations := t.authorizations - {a}), id, g, i, k);
    }
  }

  /** The consumed authorization is gone. */
  lemma ConsumeWithin(s: State, id: Id, a: Id, g: Generation)
    ensures var (t, ok) := Consume(s, id, a, g); Within(s, t) && (ok ==> a !in t.authorizations)
  {
    hide Reserve, MutationPending;
    ReserveWithin(s, g, 2);
    var (t, ok) := Reserve(s, g, 2);
    if ok {
      MutationPendingWithin(t.(authorizations := t.authorizations - {a}), id, g);
    }
  }

  lemma ConsumeShape(s: State, id: Id, a: Id, g: Generation)
    requires id in s.seen && Consume(s, id, a, g).1
    ensures var t := Consume(s, id, a, g).0;
      && id in t.seen && id in t.owner && t.owner[id] == g && t.reserved[g] >= 1
      && id in t.pending && t.pending[id] == Some(g)
  {
    hide Reserve, MutationPending;
    ReserveShape(s, g, 2);
    var t := Reserve(s, g, 2).0;
    MutationPendingShape(t.(authorizations := t.authorizations - {a}), id, g);
  }

  lemma ExecutingTask(s: State, id: Id, connectionId: Id, g: Generation)
    requires id in s.seen && id in s.owner && s.owner[id] == g && s.reserved[g] >= 1
    requires id in s.pending && s.pending[id] == Some(g)
    ensures TaskOk(s, id, Executing(connectionId, g, None))
  {
  }

  lemma Authorized(s: State, a: Id)
    requires StateInv(s) && a in s.authorizations
    ensures s.work == Some(s.authorizations[a]) && 1 <= s.authorizations[a] <= s.nextGeneration
  {
    hide StateInv;
    StateBelongs(s);
  }

  lemma ExpiredStep(y: System, expired: seq<Id>)
    requires Inv(y)
    ensures Inv(y.(state := ExpireAuthorizations(y.state, expired)))
  {
    hide StateInv, TaskOk, ExpireAuthorizations;
    ExpireKeeps(y.state, expired);
    forall i | i in y.tasks ensures TaskOk(ExpireAuthorizations(y.state, expired), i, y.tasks[i]) {
      ExpireTask(y.state, expired, i, y.tasks[i]);
    }
    StateStep(y, ExpireAuthorizations(y.state, expired));
  }

  lemma ConsumeStep(y: System, id: Id, connectionId: Id, a: Id, g: Generation)
    requires Inv(y) && IsAccepted(y, id) && !y.state.disposed
    requires a in y.state.authorizations && y.state.authorizations[a] == g
    ensures var (t, ok) := Consume(y.state, id, a, g);
      Inv(if ok then System(t, y.tasks[id := Executing(connectionId, g, None)]) else Drop(y, id, t))
  {
    var s := y.state;
    var (t, ok) := Consume(s, id, a, g);
    hide StateInv, TaskOk, Consume, SinglePull, TasksOk;
    AcceptedFacts(y, id);
    Authorized(s, a);
    ConsumeKeeps(s, id, a, g);
    ConsumeWithin(s, id, a, g);
    assert forall i | i in y.tasks :: !(Holds(y.tasks[i]) && y.tasks[i].generation == g);
    forall i | i in y.tasks && i != id ensures TaskOk(t, i, y.tasks[i]) {
      TaskAt(y, i);
      ConsumeTask(s, id, a, g, i, y.tasks[i]);
    }
    if ok {
      ConsumeShape(s, id, a, g);
      ExecutingTask(t, id, connectionId, g);
      MoveStep(y, id, Executing(connectionId, g, None), t);
    } else {
      DropStep(y, id, t);
    }
  }

  lemma TaskAt(y: System, i: Id)
    requires TasksOk(y) && i in y.tasks
    ensures TaskOk(y.state, i, y.tasks[i])
  {
    hide TaskOk;
  }

  lemma StartExecuteStep(y: System, id: Id, c: Command, expired: seq<Id>)
    requires Inv(y) && IsAccepted(y, id) && c.Execute?
    ensures Inv(StartingExecute(y, id, c, expired))
  {
    hide Inv, Consume, ExpireAuthorizations, StateInv, Within;
    RefuseStep(y, id);
    if y.state.Bound(c.connection) {
      BoundLive(y, c.connection);
      var z := y.(state := ExpireAuthorizations(y.state, expired));
      ExpiredStep(y, expired);
      InvState(y);
      ExpireKeeps(y.state, expired);
      RefuseStep(z, id);
      if c.authorization in z.state.authorizations {
        ConsumeStep(z, id, c.connection, c.authorization, z.state.authorizations[c.authorization]);
      }
    }
  }

  lemma InvState(y: System)
    requires Inv(y)
    ensures StateInv(y.state)
  {
    hide StateInv, TasksOk, Single, SinglePull;
  }

  lemma BegunTask(s: State, cells: map<Handle, Cell>, i: Id, k: Task)
    requires TaskOk(s, i, k)
    ensures TaskOk(s.(cells := cells), i, k)
  {
  }

  lemma HeldGeneration(y: System, id: Id)
    requires Inv(y) && id in y.tasks && Holds(y.tasks[id])
    ensures id in y.state.owner && y.state.owner[id] == y.tasks[id].generation
  {
    hide StateInv, Single, SinglePull;
    assert TaskOk(y.state, id, y.tasks[id]);
  }

  lemma HeldTask(s: State, id: Id, k: Task, n: Task)
    requires TaskOk(s, id, k) && k.Executing? && n.Executing? && n.generation == k.generation
    ensures TaskOk(s, id, n)
  {
  }

  lemma HolderAlone(y: System, id: Id)
    requires Inv(y) && id in y.tasks && Holds(y.tasks[id])
    ensures forall i | i in y.tasks && i != id && Holds(y.tasks[i]) ::
              y.tasks[i].generation != y.tasks[id].generation
    ensures forall a | a in y.state.authorizations :: y.state.authorizations[a] != y.tasks[id].generation
  {
    hide StateInv, TasksOk, SinglePull;
  }

  lemma BegunTasks(y: System, cells: map<Handle, Cell>)
    requires Inv(y)
    ensures forall i | i in y.tasks :: TaskOk(y.state.(cells := cells), i, y.tasks[i])
  {
    hide StateInv, Single, SinglePull, TaskOk;
    forall i | i in y.tasks ensures TaskOk(y.state.(cells := cells), i, y.tasks[i]) {
      BegunTask(y.state, cells, i, y.tasks[i]);
    }
  }

  lemma BegunMove(y: System, id: Id, cells: map<Handle, Cell>, n: Task)
    requires Inv(y) && id in y.tasks && y.tasks[id].Executing? && StateInv(y.state.(cells := cells))
    requires n.Executing? && n.generation == y.tasks[id].generation
    ensures Inv(System(y.state.(cells := cells), y.tasks[id := n]))
  {
    var t := y.state.(cells := cells);
    hide Inv, StateInv, TaskOk;
    BegunTasks(y, cells);
    HolderAlone(y, id);
    HeldTask(t, id, y.tasks[id], n);
    MoveStep(y, id, n, t);
  }

  lemma BeginStep(y: System, id: Id)
    requires Inv(y) && id in y.tasks && y.tasks[id].Executing?
    ensures Inv(Beginning(y, id, y.tasks[id]))
  {
    var s, k := y.state, y.tasks[id];
    hide Inv, StateInv;
    InvState(y);
    HeldGeneration(y, id);
    if k.begun.Some? { return; }
    if s.CellOf(OfMutation(k.generation)).Idle? {
      BegunKeeps(s, id);
      BegunMove(y, id, s.cells[OfMutation(k.generation) := Dispatched], k.(begun := Some(true)));
    } else {
      BegunMove(y, id, s.cells, k.(begun := Some(false)));
    }
  }

  // ---- pull

  lemma ObjectTask(s: State, stream: Id, o: Stream, i: Id, k: Task)
    requires TaskOk(s, i, k) && stream in s.objects
    requires Pulls(k) && k.stream == stream ==> o.pulling && o.mutation == s.objects[stream].mutation
    ensures TaskOk(s.(objects := s.objects[stream := o]), i, k)
  {
  }

  lemma PullKeeps(s: State, id: Id, stream: Id)
    requires StateInv(s) && !s.disposed && id in s.seen && id !in s.owner && stream in s.streams && stream in s.objects
    ensures StateInv(OpenPull(s, id, stream).0) && Within(s, OpenPull(s, id, stream).0)
  {
    hide StateInv, Reserve, MutationPending, InsertPending, Belongs;
    StateBelongs(s);
    StreamOwner(s, stream);
    var o := s.objects[stream];
    var t := s.(objects := s.objects[stream := o.(pulling := true)]);
    ObjectKeeps(s, stream, o.(pulling := true));
    if o.mutation.None? {
      InsertPendingKeeps(t, id, None);
      InsertPendingWithin(t, id, None);
    } else {
      var g := o.mutation.value;
      ReserveKeeps(t, g, 1);
      ReserveWithin(t, g, 1);
      ReserveShape(t, g, 1);
      if Reserve(t, g, 1).1 {
        MutationPendingKeeps(Reserve(t, g, 1).0, id, g);
        MutationPendingWithin(Reserve(t, g, 1).0, id, g);
      }
    }
  }

  lemma PullTask(s: State, id: Id, stream: Id, i: Id, k: Task)
    requires TaskOk(s, i, k) && i != id && stream in s.objects && !s.disposed
    requires s.objects[stream].mutation.Some? ==> s.work == s.objects[stream].mutation
    ensures TaskOk(OpenPull(s, id, stream).0, i, k)
  {
    var o := s.objects[stream];
    var t := s.(objects := s.objects[stream := o.(pulling := true)]);
    ObjectTask(s, stream, o.(pulling := true), i, k);
    if o.mutation.None? {
      PendingTask(t, id, None, i, k);
      hide TaskOk, InsertPending;
    } else {
      PullAliasTask(t, id, o.mutation.value, i, k);
      hide TaskOk, Reserve, MutationPending;
    }
  }

  /** A pull reserves the alias it takes, so whoever holds the mutation keeps a reservation. */
  lemma PullAliasTask(s: State, id: Id, g: Generation, i: Id, k: Task)
    requires TaskOk(s, i, k) && i != id && s.work == Some(g)
    ensures var (t, ok) := Reserve(s, g, 1); TaskOk(if ok then MutationPending(t, id, g) else t, i, k)
  {
    ReserveTask(s, g, 1, i, k);
    ReserveShape(s, g, 1);
    var (t, ok) := Reserve(s, g, 1);
    hide Reserve, MutationPending;
    if ok {
      MutationPendingTask(t, id, g, i, k);
    }
  }

  lemma OpenPullShape(s: State, id: Id, stream: Id)
    requires stream in s.objects && id in s.seen && id !in s.owner && OpenPull(s, id, stream).1
    ensures var t := OpenPull(s, id, stream).0;
      id in t.seen && stream in t.objects && t.objects[stream].pulling && PullOwned(t, id, stream)
  {
    var o := s.objects[stream];
    var t := s.(objects := s.objects[stream := o.(pulling := true)]);
    hide Reserve, MutationPending, InsertPending;
    if o.mutation.None? {
      InsertPendingObjects(t, id, None);
      InsertPendingOwner(t, id, None);
    } else {
      ReserveObjects(t, o.mutation.value, 1);
      MutationPendingObjects(Reserve(t, o.mutation.value, 1).0, id, o.mutation.value);
      MutationPendingOwner(Reserve(t, o.mutation.value, 1).0, id, o.mutation.value);
    }
  }

  lemma InsertPendingOwner(s: State, id: Id, mutation: Option<Generation>)
    ensures InsertPending(s, id, mutation).owner == s.owner
    ensures id in InsertPending(s, id, mutation).pending && InsertPending(s, id, mutation).pending[id] == mutation
  {
    hide CancelCells;
    if id in s.cancelled {
      assert InsertPending(s, id, mutation).owner == s.owner;
    }
  }

  lemma MutationPendingOwner(s: State, id: Id, g: Generation)
    ensures OwnerOf(MutationPending(s, id, g), id) == Some(g)
  {
    hide Alias, InsertPending;
    AliasShape(s, id, g);
    InsertPendingOwner(Alias(s, id, g), id, Some(g));
  }

  lemma InsertPendingObjects(s: State, id: Id, mutation: Option<Generation>)
    ensures InsertPending(s, id, mutation).objects == s.objects && InsertPending(s, id, mutation).seen == s.seen
  {
    hide CancelCells;
    if id in s.cancelled {
      assert InsertPending(s, id, mutation).seen == s.seen;
    }
  }

  lemma ReserveObjects(s: State, g: Generation, n: nat)
    ensures Reserve(s, g, n).1 ==> Reserve(s, g, n).0.objects == s.objects && Reserve(s, g, n).0.seen == s.seen
  {
    hide Clear;
  }

  lemma MutationPendingObjects(s: State, id: Id, g: Generation)
    ensures MutationPending(s, id, g).objects == s.objects && MutationPending(s, id, g).seen == s.seen
  {
    hide Alias, InsertPending;
    AliasObjects(s, id, g);
    AliasSeen(s, id, g);
    InsertPendingObjects(Alias(s, id, g), id, Some(g));
  }

  lemma AliasSeen(s: State, id: Id, g: Generation)
    ensures Alias(s, id, g).seen == s.seen
  {
    if id in s.cancelled {
      assert Alias(s, id, g).seen == Link(s, id, g).seen;
    }
  }

  lemma PullingTask(s: State, id: Id, connectionId: Id, stream: Id, ack: int)
    requires id in s.seen && stream in s.objects && s.objects[stream].pulling && PullOwned(s, id, stream)
    ensures TaskOk(s, id, Pulling(connectionId, stream, ack))
  {
  }

  /** Nobody pulls a stream whose flag is down. */
  lemma Unpulled(y: System, stream: Id)
    requires TasksOk(y) && stream in y.state.objects && !y.state.objects[stream].pulling
    ensures forall i | i in y.tasks && Pulls(y.tasks[i]) :: y.tasks[i].stream != stream
  {
    forall i | i in y.tasks && Pulls(y.tasks[i]) ensures y.tasks[i].stream != stream {
      assert TaskOk(y.state, i, y.tasks[i]);
    }
  }

  lemma PullOthers(y: System, id: Id, stream: Id)
    requires Inv(y) && IsAccepted(y, id) && !y.state.disposed
    requires stream in y.state.streams && stream in y.state.objects
    ensures var t := OpenPull(y.state, id, stream).0;
      StateInv(t) && Within(y.state, t) && forall i | i in y.tasks && i != id :: TaskOk(t, i, y.tasks[i])
  {
    var s := y.state;
    hide StateInv, TaskOk, OpenPull, Belongs, Within;
    AcceptedFacts(y, id);
    PullKeeps(s, id, stream);
    StateBelongs(s);
    StreamOwner(s, stream);
    forall i | i in y.tasks && i != id ensures TaskOk(OpenPull(s, id, stream).0, i, y.tasks[i]) {
      PullTask(s, id, stream, i, y.tasks[i]);
    }
  }

  lemma PullStarted(y: System, id: Id, connectionId: Id, stream: Id, ack: int)
    requires Inv(y) && IsAccepted(y, id) && !y.state.disposed
    requires stream in y.state.streams && stream in y.state.objects && !y.state.objects[stream].pulling
    requires OpenPull(y.state, id, stream).1
    ensures Inv(System(OpenPull(y.state, id, stream).0, y.tasks[id := Pulling(connectionId, stream, ack)]))
  {
    var t := OpenPull(y.state, id, stream).0;
    hide StateInv, TaskOk, OpenPull, Within, Single, SinglePull;
    AcceptedFacts(y, id);
    PullOthers(y, id, stream);
    OpenPullShape(y.state, id, stream);
    PullingTask(t, id, connectionId, stream, ack);
    Unpulled(y, stream);
    MoveStep(y, id, Pulling(connectionId, stream, ack), t);
  }

  lemma PullRefused(y: System, id: Id, stream: Id)
    requires Inv(y) && IsAccepted(y, id) && !y.state.disposed
    requires stream in y.state.streams && stream in y.state.objects
    ensures Inv(Drop(y, id, OpenPull(y.state, id, stream).0))
  {
    hide Inv, StateInv, TaskOk, OpenPull, Within;
    PullOthers(y, id, stream);
    DropStep(y, id, OpenPull(y.state, id, stream).0);
  }

  lemma StartPullStep(y: System, id: Id, c: Command)
    requires Inv(y) && IsAccepted(y, id) && c.Pull?
    ensures Inv(StartingPull(y, id, c))
  {
    hide Inv, OpenPull;
    RefuseStep(y, id);
    if y.state.Bound(c.connection) && c.stream in y.state.streams && c.stream in y.state.objects
       && !y.state.objects[c.stream].pulling {
      BoundLive(y, c.connection);
      PullRefused(y, id, c.stream);
      if OpenPull(y.state, id, c.stream).1 {
        PullStarted(y, id, c.connection, c.stream, c.ack);
      }
    }
  }

  lemma PulledTask(s: State, id: Id, k: Task, outcome: Outcome)
    requires TaskOk(s, id, k) && k.Pulling?
    ensures TaskOk(s, id, Pulled(k.connection, k.stream, k.ack, outcome))
  {
  }

  lemma OnlyPull(y: System, id: Id, i: Id)
    requires SinglePull(y) && id in y.tasks && Pulls(y.tasks[id]) && i in y.tasks && i != id && Pulls(y.tasks[i])
    ensures y.tasks[i].stream != y.tasks[id].stream
  {
  }

  lemma ChunkStep(y: System, id: Id, o: Stream, outcome: Outcome)
    requires Inv(y) && id in y.tasks && y.tasks[id].Pulling? && y.tasks[id].stream in y.state.objects
    requires SameStream(y.state.objects[y.tasks[id].stream], o) && o.pulling
    ensures var k := y.tasks[id];
      Inv(System(y.state.(objects := y.state.objects[k.stream := o]),
                 y.tasks[id := Pulled(k.connection, k.stream, k.ack, outcome)]))
  {
    var s, k := y.state, y.tasks[id];
    var t := s.(objects := s.objects[k.stream := o]);
    hide StateInv, TaskOk;
    TaskAt(y, id);
    ObjectKeeps(s, k.stream, o);
    forall i | i in y.tasks ensures TaskOk(t, i, y.tasks[i]) {
      ObjectTask(s, k.stream, o, i, y.tasks[i]);
    }
    PulledTask(t, id, k, outcome);
    forall i | i in y.tasks && i != id && Pulls(y.tasks[i]) ensures y.tasks[i].stream != k.stream {
      OnlyPull(y, id, i);
    }
    MoveStep(y, id, Pulled(k.connection, k.stream, k.ack, outcome), t);
  }

  lemma PullingFlag(y: System, id: Id)
    requires Inv(y) && id in y.tasks && Pulls(y.tasks[id])
    ensures y.tasks[id].stream in y.state.objects && y.state.objects[y.tasks[id].stream].pulling
  {
    hide StateInv, Single, SinglePull;
    assert TaskOk(y.state, id, y.tasks[id]);
  }

  lemma ReadChunkStep(y: System, id: Id, live: bool, chunk: Option<bool>)
    requires Inv(y) && id in y.tasks && y.tasks[id].Pulling? && y.tasks[id].stream in y.state.objects
    ensures Inv(ReadingChunk(y, id, y.tasks[id], live, chunk))
  {
    var s, k := y.state, y.tasks[id];
    var o := s.objects[k.stream];
    var (p, outcome) := NextChunk(o, k.ack, PullCancelled(s, id, o), live, chunk);
    hide Inv, PullCancelled;
    PullingFlag(y, id);
    ChunkStep(y, id, p, outcome);
  }

  lemma LetGoKeeps(s: State, id: Id, stream: Id)
    requires StateInv(s) && stream in s.objects
    ensures StateInv(LetGo(s, id, stream)) && Within(s, LetGo(s, id, stream))
  {
    hide StateInv;
    UnpendKeeps(s, id);
    ObjectKeeps(s.(pending := s.pending - {id}), stream, s.objects[stream].(pulling := false));
  }

  lemma LetGoTask(s: State, id: Id, stream: Id, i: Id, k: Task)
    requires TaskOk(s, i, k) && i != id && stream in s.objects && (Pulls(k) ==> k.stream != stream)
    ensures TaskOk(LetGo(s, id, stream), i, k)
  {
    hide TaskOk;
    UnpendTask(s, id, i, k);
    ObjectTask(s.(pending := s.pending - {id}), stream, s.objects[stream].(pulling := false), i, k);
  }

  lemma LetGoOthers(y: System, id: Id)
    requires Inv(y) && id in y.tasks && y.tasks[id].Pulled? && y.tasks[id].stream in y.state.objects
    ensures var t := LetGo(y.state, id, y.tasks[id].stream);
      forall i | i in y.tasks && i != id ::
        TaskOk(t, i, y.tasks[i]) && TaskOk(CloseStream(t, y.tasks[id].stream), i, y.tasks[i])
  {
    var s, k := y.state, y.tasks[id];
    var t := LetGo(s, id, k.stream);
    hide StateInv, TaskOk, LetGo, CloseStream, Single;
    forall i | i in y.tasks && i != id
      ensures TaskOk(t, i, y.tasks[i]) && TaskOk(CloseStream(t, k.stream), i, y.tasks[i])
    {
      if Pulls(y.tasks[i]) {
        OnlyPull(y, id, i);
      }
      LetGoTask(s, id, k.stream, i, y.tasks[i]);
      CloseTask(t, k.stream, i, y.tasks[i]);
    }
  }

  lemma EndPullStep(y: System, id: Id)
    requires Inv(y) && id in y.tasks && y.tasks[id].Pulled? && y.tasks[id].stream in y.state.objects
    ensures Inv(Drop(y, id, EndingPull(y.state, id, y.tasks[id])))
  {
    var s, k := y.state, y.tasks[id];
    var t := LetGo(s, id, k.stream);
    hide Inv, StateInv, TaskOk, LetGo, CloseStream, Delivered, Drop;
    InvState(y);
    LetGoOthers(y, id);
    LetGoKeeps(s, id, k.stream);
    if Delivered(s, id, k).Failed? || Delivered(s, id, k).last {
      CloseStreamKeeps(t, k.stream);
      CloseWithin(t, k.stream);
      DropStep(y, id, CloseStream(t, k.stream));
    } else {
      DropStep(y, id, t);
    }
  }

  // ---- cancel, dispose and expiry

  lemma CancelStep(y: System, id: Id, target: Id)
    requires Inv(y) && !y.state.disposed
    ensures Inv(Drop(y, id, CancelTarget(y.state, target).0))
  {
    var s := y.state;
    var t := CancelTarget(s, target).0;
    hide StateInv, TaskOk, CancelTarget;
    CancelTargetKeeps(s, target);
    CancelTargetWithin(s, target);
    forall i | i in y.tasks ensures TaskOk(t, i, y.tasks[i]) {
      CancelTargetTask(s, target, i, y.tasks[i]);
    }
    DropStep(y, id, t);
  }

  lemma DisposeStep(y: System, id: Id)
    requires Inv(y)
    ensures Inv(Drop(y, id, Clear(y.state)))
  {
    hide Inv, Clear;
    ClearStep(y);
    RefuseStep(y.(state := Clear(y.state)), id);
  }

  lemma ExpireAuthorizationStep(y: System, a: Id)
    requires Inv(y) && a in y.state.authorizations
    ensures Inv(y.(state := FinishMutation(y.state, y.state.authorizations[a]).0))
  {
    var s, g := y.state, y.state.authorizations[a];
    hide StateInv, TaskOk, FinishMutation;
    Authorized(s, a);
    FinishKeeps(s, g);
    FinishWithin(s, g);
    forall i | i in y.tasks ensures TaskOk(FinishMutation(s, g).0, i, y.tasks[i]) {
      FinishTask(s, g, i, y.tasks[i]);
    }
    StateStep(y, FinishMutation(s, g).0);
  }

  lemma ExpireStreamStep(y: System, stream: Id)
    requires Inv(y)
    ensures Inv(y.(state := CloseStream(y.state, stream)))
  {
    hide StateInv, TaskOk, CloseStream;
    CloseStreamKeeps(y.state, stream);
    CloseWithin(y.state, stream);
    forall i | i in y.tasks ensures TaskOk(CloseStream(y.state, stream), i, y.tasks[i]) {
      CloseTask(y.state, stream, i, y.tasks[i]);
    }
    StateStep(y, CloseStream(y.state, stream));
  }

  // ---- every run

  lemma NextKeeps(y: System, p: Step)
    requires Inv(y)
    ensures Inv(Next(y, p))
  {
    hide Inv, Drop, Connecting, GrantingRead, StartingRead, StartingAuthorize, StartingExecute, StartingPull;
    hide FinishStream, FinishAuthorize, Beginning, ReadingChunk, EndingPull, CancelTarget, Clear, FinishMutation;
    hide CloseStream, DoAccept;
    match p
    case Accept(id, command) => AcceptStep(y, id, command);
    case Refuse(id) => RefuseStep(y, id);
    case DoConnect(id, tries) => ConnectStep(y, id, tries);
    case DoReadAccess(id, tries, clock) =>
      if IsAccepted(y, id) && y.tasks[id].command.ReadAccess? {
        ReadAccessStep(y, id, y.tasks[id].command.connection, tries, clock);
      }
    case StartRead(id, live) =>
      if IsAccepted(y, id) && y.tasks[id].command.Read? {
        StartReadStep(y, id, y.tasks[id].command, live);
      }
    case EndRead(id, ok, tries) =>
      if id in y.tasks && y.tasks[id].Reading? {
        EndStreamStep(y, id, None, ok, tries);
      }
    case StartAuthorize(id, expired) =>
      if IsAccepted(y, id) && y.tasks[id].command.Authorize? {
        StartAuthorizeStep(y, id, y.tasks[id].command, expired);
      }
    case EndAuthorize(id, ok, tries, clock) =>
      if id in y.tasks && y.tasks[id].Authorizing? {
        EndAuthorizeStep(y, id, ok, tries, clock);
      }
    case StartExecute(id, expired) =>
      if IsAccepted(y, id) && y.tasks[id].command.Execute? {
        StartExecuteStep(y, id, y.tasks[id].command, expired);
      }
    case Begin(id) =>
      if id in y.tasks && y.tasks[id].Executing? {
        BeginStep(y, id);
      }
    case EndExecute(id, ok, tries) =>
      if id in y.tasks && y.tasks[id].Executing? {
        EndStreamStep(y, id, Some(y.tasks[id].generation), ok && y.tasks[id].begun == Some(true), tries);
      }
    case StartPull(id) =>
      if IsAccepted(y, id) && y.tasks[id].command.Pull? {
        StartPullStep(y, id, y.tasks[id].command);
      }
    case ReadChunk(id, live, chunk) =>
      if id in y.tasks && y.tasks[id].Pulling? && y.tasks[id].stream in y.state.objects {
        ReadChunkStep(y, id, live, chunk);
      }
    case EndPull(id) =>
      if id in y.tasks && y.tasks[id].Pulled? && y.tasks[id].stream in y.state.objects {
        EndPullStep(y, id);
      }
    case DoCancel(id) =>
      if IsAccepted(y, id) && y.tasks[id].command.Cancel? && y.state.Bound(y.tasks[id].command.connection) {
        BoundLive(y, y.tasks[id].command.connection);
        CancelStep(y, id, y.tasks[id].command.target);
      }
    case DoDispose(id) => DisposeStep(y, id);
    case Disconnect => ClearStep(y);
    case ExpireAuthorization(a, g) =>
      if a in y.state.authorizations {
        ExpireAuthorizationStep(y, a);
      }
    case ExpireStream(id) => ExpireStreamStep(y, id);
  }

  lemma {:induction false} RunKeeps(y: System, steps: seq<Step>)
    requires Inv(y)
    ensures Inv(Run(y, steps))
    decreases |steps|
  {
    hide Inv, Next;
    if steps != [] {
      NextKeeps(y, steps[0]);
      RunKeeps(Next(y, steps[0]), steps[1..]);
    }
  }

  /** In every reachable state the invariant holds. */
  lemma Reachable(steps: seq<Step>)
    ensures Inv(Run(START, steps))
  {
    assert Inv(START);
    RunKeeps(START, steps);
    hide Inv;
  }
}
