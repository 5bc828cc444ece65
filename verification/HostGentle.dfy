/** How far the compound operations of the host reach: cells settle, readers stand still, read slots balance. */
module HostGentle {
  import opened Basics
  import opened HostState
  import opened HostSteps
  import opened HostOperations
  import opened HostTasks
  import opened HostRuns
  import opened HostCalm

  ghost predicate SameReader(o: Stream, p: Stream) {
    && p.mutation == o.mutation && p.control == o.control
    && p.nextSeq == o.nextSeq && p.previousAck == o.previousAck && p.done == o.done
  }

  /** Streams are opened under new handles only, never a cancelled one, and no reader moves. */
  ghost predicate Steady(s: State, t: State) {
    && (forall x | x in t.streams :: x in s.streams || x !in s.objects)
    && (forall x | x in s.objects :: x in t.objects && SameReader(s.objects[x], t.objects[x]))
    && (forall x | x in t.objects && x !in s.objects ::
          && t.objects[x].nextSeq == 0 && t.objects[x].previousAck == -1 && !t.objects[x].done
          && (t.disposed || x !in s.cancelled))
  }

  /** Read slots that are not held by an open read stream. */
  function Loose(s: State): int {
    s.readSlots - |ReadStreams(s)|
  }

  /** The loose slots change by `d`, provided there are enough of them to begin with. */
  ghost predicate Balanced(s: State, t: State, d: int) {
    || t.disposed
    || (Loose(s) >= 0 && Loose(s) + d >= 0 ==>
          Loose(t) == Loose(s) + d && t.readSlots <= s.readSlots + (if d > 0 then d else 0))
  }

  ghost predicate Gentle(s: State, t: State, d: int) {
    Settles(s, t) && Remembers(s, t) && Steady(s, t) && Balanced(s, t, d)
  }

  lemma CalmIsGentle(s: State, t: State)
    requires Calm(s, t)
    ensures Gentle(s, t, 0)
  {
    hide Settles, Remembers;
  }

  lemma SteadyTrans(s: State, t: State, u: State)
    requires Steady(s, t) && Steady(t, u) && Remembers(s, t) && Remembers(t, u)
    ensures Steady(s, u)
  {
  }

  lemma GentleTrans(s: State, t: State, u: State, d: int, e: int)
    requires Gentle(s, t, d) && Gentle(t, u, e) && (d == 0 || e == 0)
    ensures Gentle(s, u, d + e)
  {
    SettlesTrans(s, t, u);
    SteadyTrans(s, t, u);
    hide Settles, Steady, Loose;
  }

  lemma GentleFrame(s: State, t: State)
    requires t.cells == s.cells && t.tokens == s.tokens && t.disposed == s.disposed && t.cancelled == s.cancelled
    requires t.readSlots == s.readSlots && t.streams == s.streams && t.objects == s.objects
    ensures Gentle(s, t, 0)
  {
    hide Calm, Gentle;
    CalmFrame(s, t);
    CalmIsGentle(s, t);
  }

  // ---- streams and slots

  lemma ReaderReads(s: State, x: Id, o: Stream)
    requires x in s.objects && o.mutation == s.objects[x].mutation
    ensures ReadStreams(s.(objects := s.objects[x := o])) == ReadStreams(s)
  {
  }

  lemma ObjectGentle(s: State, x: Id, o: Stream)
    requires x in s.objects && SameReader(s.objects[x], o)
    ensures Gentle(s, s.(objects := s.objects[x := o]), 0)
  {
    ReaderReads(s, x, o);
    hide ReadStreams;
  }

  lemma SlotGentle(s: State, n: nat)
    ensures Gentle(s, s.(readSlots := n), n - s.readSlots)
  {
    assert ReadStreams(s.(readSlots := n)) == ReadStreams(s);
    hide ReadStreams;
  }

  lemma PublishedReads(s: State, handle: Id, o: Stream)
    requires handle !in s.objects
    ensures |ReadStreams(Published(s, handle, o))| == |ReadStreams(s)| + if o.mutation.None? then 1 else 0
  {
    var r := ReadStreams(s);
    assert handle !in r;
    assert ReadStreams(Published(s, handle, o)) == if o.mutation.None? then r + {handle} else r;
  }

  lemma PublishedGentle(s: State, handle: Id, o: Stream)
    requires handle !in s.objects && handle !in s.cancelled && o.nextSeq == 0 && o.previousAck == -1 && !o.done
    ensures Gentle(s, Published(s, handle, o), if o.mutation.None? then -1 else 0)
  {
    PublishedReads(s, handle, o);
    hide ReadStreams;
  }

  lemma DropReads(s: State, id: Id)
    requires id in s.streams && id in s.objects && s.objects[id].mutation.None?
    ensures |ReadStreams(s)| == |ReadStreams(DropStream(s, id))| + 1
  {
    assert ReadStreams(s) == ReadStreams(DropStream(s, id)) + {id};
  }

  lemma DropGentle(s: State, id: Id)
    requires id in s.streams && id in s.objects && s.objects[id].mutation.None?
    ensures Gentle(s, DropStream(s, id), 0)
  {
    DropReads(s, id);
    hide ReadStreams;
  }

  lemma OpenStreamGentle(s: State, handle: Id, control: Id, mutation: Option<Generation>)
    requires handle !in s.objects && handle !in s.cancelled
    ensures Gentle(s, OpenStream(s, handle, control, mutation), if mutation.None? then -1 else 0)
  {
    var o := Stream(mutation, control, mutation.Some?, false, 0, -1, false);
    hide Gentle, Alias, Calm;
    if mutation.Some? {
      var a := Alias(s, handle, mutation.value);
      AliasCalm(s, handle, mutation.value);
      AliasObjects(s, handle, mutation.value);
      CalmIsGentle(s, a);
      PublishedGentle(a, handle, o);
      GentleTrans(s, a, Published(a, handle, o), 0, 0);
    } else {
      PublishedGentle(s, handle, o);
    }
  }

  lemma ReleaseGentle(s: State, mutation: Option<Generation>)
    ensures Gentle(s, Release(s, mutation), if mutation.None? then -1 else 0)
  {
    hide Gentle, FinishMutation, Calm;
    if mutation.Some? {
      FinishCalm(s, mutation.value);
      CalmIsGentle(s, FinishMutation(s, mutation.value).0);
    } else {
      LessGentle(s);
    }
  }

  lemma LessGentle(s: State)
    ensures Gentle(s, s.(readSlots := LessOne(s.readSlots)), -1)
  {
    SlotGentle(s, LessOne(s.readSlots));
  }

  lemma HandleFresh(s: State, tries: seq<Option<Id>>)
    requires Separate(s) && !s.disposed
    ensures var (t, h) := UniqueHandle(s, tries); h.Some? ==> h.value !in t.objects && h.value !in t.cancelled
  {
    HandleOutcomes(s, tries);
    var (t, h) := UniqueHandle(s, tries);
    if h.Some? {
      FreshHandle(s, h.value);
    }
  }

  lemma RespondGentle(s: State, control: Id, mutation: Option<Generation>, tries: seq<Option<Id>>)
    requires Separate(s) && !s.disposed
    ensures Gentle(s, Respond(s, control, mutation, tries), if mutation.None? then -1 else 0)
  {
    var (t, h) := UniqueHandle(s, tries);
    var d := if mutation.None? then -1 else 0;
    hide Gentle, UniqueHandle, OpenStream, Release, Calm, Separate;
    HandleFresh(s, tries);
    HandleCalm(s, tries);
    CalmIsGentle(s, t);
    if h.Some? {
      OpenStreamGentle(t, h.value, control, mutation);
      GentleTrans(s, t, OpenStream(t, h.value, control, mutation), 0, d);
    } else {
      ReleaseGentle(t, mutation);
      GentleTrans(s, t, Release(t, mutation), 0, d);
    }
  }

  lemma FinishStreamGentle(s: State, id: Id, connectionId: Id, mutation: Option<Generation>, ok: bool,
                           tries: seq<Option<Id>>)
    requires Separate(s) && (s.disposed ==> s.connection.None?)
    requires !s.disposed && mutation.None? ==> id in s.pending
    ensures Gentle(s, FinishStream(s, id, connectionId, mutation, ok, tries), if mutation.None? then -1 else 0)
  {
    var t := s.(pending := s.pending - {id});
    var d := if mutation.None? then -1 else 0;
    hide Gentle, Respond, Release, Separate;
    UnpendSeparate(s, id);
    GentleFrame(s, t);
    DisposedGentle(s, t, d);
    ReleaseGentle(t, mutation);
    GentleTrans(s, t, Release(t, mutation), 0, d);
    if s.Bound(connectionId) {
      RespondGentle(t, id, mutation, tries);
      GentleTrans(s, t, Respond(t, id, mutation, tries), 0, d);
    }
  }

  /** After disposal there is nothing to balance. */
  lemma DisposedGentle(s: State, t: State, d: int)
    requires Gentle(s, t, 0)
    ensures t.disposed ==> Gentle(s, t, d)
  {
  }

  lemma CloseGentle(s: State, id: Id)
    ensures Gentle(s, CloseStream(s, id), 0)
  {
    hide Gentle, FinishMutation, Calm;
    if id !in s.streams || id !in s.objects {
      GentleFrame(s, s);
    } else if s.objects[id].mutation.Some? {
      FinishCalm(s, s.objects[id].mutation.value);
      CalmIsGentle(s, FinishMutation(s, s.objects[id].mutation.value).0);
    } else {
      DropGentle(s, id);
    }
  }

  lemma CancelPlainGentle(s: State, target: Id)
    requires target in s.streams && target in s.objects ==> s.objects[target].mutation.None?
    ensures Gentle(s, CancelPlain(s, target), 0)
  {
    var t := if target in s.pending then CancelAll(s, {HandleOf(s.pending[target], target)}) else s;
    hide Gentle, Calm;
    if target in s.pending {
      CancelAllCalm(s, {HandleOf(s.pending[target], target)});
      CalmIsGentle(s, t);
    } else {
      GentleFrame(s, s);
    }
    if target in t.streams && target in t.objects {
      DropGentle(t, target);
      GentleTrans(s, t, DropStream(t, target), 0, 0);
    }
  }

  lemma CancelAliasGentle(s: State, target: Id, g: Generation)
    ensures Gentle(s, Mark(FinishMutation(s, g).0, target), 0)
  {
    hide Gentle, Calm, FinishMutation;
    var t := FinishMutation(s, g).0;
    FinishCalm(s, g);
    MarkCalm(t, target);
    CalmTrans(s, t, Mark(t, target));
    CalmIsGentle(s, Mark(t, target));
  }

  lemma CancelOtherGentle(s: State, target: Id)
    requires Belongs(s) && target !in s.aliases
    ensures Gentle(s, CancelPlain(Mark(s, target), target), 0)
  {
    PlainStream(s, target);
    hide Gentle, Calm, CancelPlain, Belongs;
    MarkCalm(s, target);
    CalmIsGentle(s, Mark(s, target));
    CancelPlainGentle(Mark(s, target), target);
    GentleTrans(s, Mark(s, target), CancelPlain(Mark(s, target), target), 0, 0);
  }

  lemma CancelTargetGentle(s: State, target: Id)
    requires Belongs(s)
    ensures Gentle(s, CancelTarget(s, target).0, 0)
  {
    hide Gentle, Calm, Clear, FinishMutation, CancelPlain, Belongs, Mark;
    if |s.cancelled| >= MAX_CONTROLS && target !in s.cancelled {
      ClearCalm(s);
      CalmIsGentle(s, Clear(s));
    } else if target in s.aliases {
      CancelAliasGentle(s, target, s.aliases[target]);
    } else {
      CancelOtherGentle(s, target);
    }
  }

  lemma PlainStream(s: State, target: Id)
    requires Belongs(s)
    ensures target !in s.aliases && target in s.streams ==> target in s.objects && s.objects[target].mutation.None?
  {
  }

  lemma OpenReadGentle(s: State, id: Id)
    ensures Gentle(s, OpenRead(s, id), 1)
  {
    var t := s.(readSlots := s.readSlots + 1);
    hide Gentle, Calm, InsertPending;
    SlotGentle(s, s.readSlots + 1);
    InsertPendingCalm(t, id, None);
    CalmIsGentle(t, InsertPending(t, id, None));
    GentleTrans(s, t, InsertPending(t, id, None), 1, 0);
  }

  lemma OpenPullGentle(s: State, id: Id, stream: Id)
    requires stream in s.objects
    ensures Gentle(s, OpenPull(s, id, stream).0, 0)
  {
    var o := s.objects[stream];
    var t := s.(objects := s.objects[stream := o.(pulling := true)]);
    hide Gentle, Calm, InsertPending, Reserve, MutationPending;
    ObjectGentle(s, stream, o.(pulling := true));
    if o.mutation.None? {
      InsertPendingCalm(t, id, None);
      CalmIsGentle(t, InsertPending(t, id, None));
      GentleTrans(s, t, InsertPending(t, id, None), 0, 0);
    } else {
      var g := o.mutation.value;
      var u := Reserve(t, g, 1).0;
      ReserveCalm(t, g, 1);
      MutationPendingCalm(u, id, g);
      CalmIsGentle(t, u);
      CalmIsGentle(u, MutationPending(u, id, g));
      GentleTrans(s, t, u, 0, 0);
      GentleTrans(s, u, MutationPending(u, id, g), 0, 0);
    }
  }

  lemma LetGoGentle(s: State, id: Id, stream: Id)
    requires stream in s.objects
    ensures Gentle(s, LetGo(s, id, stream), 0)
  {
    var t := s.(pending := s.pending - {id});
    hide Gentle;
    GentleFrame(s, t);
    ObjectGentle(t, stream, s.objects[stream].(pulling := false));
    GentleTrans(s, t, LetGo(s, id, stream), 0, 0);
  }

  lemma EndingPullGentle(s: State, id: Id, k: Task)
    requires k.Pulled? && k.stream in s.objects
    ensures Gentle(s, EndingPull(s, id, k), 0)
  {
    var t := LetGo(s, id, k.stream);
    hide Gentle, LetGo, CloseStream, Delivered;
    LetGoGentle(s, id, k.stream);
    CloseGentle(t, k.stream);
    GentleTrans(s, t, CloseStream(t, k.stream), 0, 0);
  }

  // ---- commands

  lemma ConnectedGentle(s: State, tries: seq<Option<Id>>, c: Option<Connection>)
    ensures var t := UniqueHandle(s, tries).0; Gentle(s, t, 0) && Gentle(s, t.(connection := c), 0)
  {
    var t := UniqueHandle(s, tries).0;
    hide Gentle, Calm, UniqueHandle;
    HandleCalm(s, tries);
    CalmIsGentle(s, t);
    GentleFrame(t, t.(connection := c));
    GentleTrans(s, t, t.(connection := c), 0, 0);
  }

  lemma StartingAuthorizeGentle(y: System, id: Id, c: Command, expired: seq<Id>)
    requires c.Authorize?
    ensures Gentle(y.state, StartingAuthorize(y, id, c, expired).state, 0)
  {
    var e := ExpireAuthorizations(y.state, expired);
    hide Gentle, Calm, StartMutation, ExpireAuthorizations;
    GentleFrame(y.state, y.state);
    ExpireCalm(y.state, expired);
    StartMutationCalm(e, id);
    CalmTrans(y.state, e, StartMutation(e, id).0);
    CalmIsGentle(y.state, StartMutation(e, id).0);
  }

  lemma StartingExecuteGentle(y: System, id: Id, c: Command, expired: seq<Id>)
    requires c.Execute?
    ensures Gentle(y.state, StartingExecute(y, id, c, expired).state, 0)
  {
    var e := ExpireAuthorizations(y.state, expired);
    hide Gentle, Calm, Consume, ExpireAuthorizations;
    GentleFrame(y.state, y.state);
    ExpireCalm(y.state, expired);
    CalmIsGentle(y.state, e);
    if c.authorization in e.authorizations {
      var g := e.authorizations[c.authorization];
      ConsumeCalm(e, id, c.authorization, g);
      CalmTrans(y.state, e, Consume(e, id, c.authorization, g).0);
      CalmIsGentle(y.state, Consume(e, id, c.authorization, g).0);
    }
  }

  /** How many read requests a step puts in flight. */
  function ReadsAdded(y: System, p: Step): int {
    if p.StartRead? && IsAccepted(y, p.id) && y.tasks[p.id].command.Read?
       && MayRead(y.state, y.tasks[p.id].command, p.live) then 1
    else if p.EndRead? && p.id in y.tasks && y.tasks[p.id].Reading? then -1
    else 0
  }

  lemma StillPending(y: System, id: Id)
    requires Inv(y) && id in y.tasks && y.tasks[id].Reading? && !y.state.disposed
    ensures id in y.state.pending
  {
    hide StateInv, Single, SinglePull;
    assert TaskOk(y.state, id, y.tasks[id]);
  }

  /** Every step but a dispatch and the reading of a chunk. */
  lemma NextGentle(y: System, p: Step)
    requires Inv(y) && !p.Begin? && !p.ReadChunk?
    ensures Gentle(y.state, Next(y, p).state, ReadsAdded(y, p))
  {
    hide Inv, StateInv, Gentle, Calm, UniqueHandle, StartingAuthorize, StartingExecute, OpenRead, OpenPull, MayRead;
    hide FinishStream, FinishAuthorize, EndingPull, CancelTarget, Clear, FinishMutation, CloseStream;
    hide Separate, Belongs;
    var s := y.state;
    GentleFrame(s, s);
    InvState(y);
    StateSeparate(s);
    StateBelongs(s);
    UnboundAfter(s);
    match p
    case Accept(id, command) =>
      ClearCalm(s);
      CalmIsGentle(s, Clear(s));
      GentleFrame(s, s.(seen := s.seen + {id}));
    case DoConnect(id, tries) => ConnectedGentle(s, tries, Connecting(s, tries).connection);
    case DoReadAccess(id, tries, clock) =>
      if IsAccepted(y, id) && y.tasks[id].command.ReadAccess? {
        ConnectedGentle(s, tries, GrantingRead(s, y.tasks[id].command.connection, tries, clock).connection);
      }
    case StartRead(id, live) => OpenReadGentle(s, id);
    case EndRead(id, ok, tries) =>
      if id in y.tasks && y.tasks[id].Reading? {
        if !s.disposed { StillPending(y, id); }
        FinishStreamGentle(s, id, y.tasks[id].connection, None, ok, tries);
      }
    case StartAuthorize(id, expired) =>
      if IsAccepted(y, id) && y.tasks[id].command.Authorize? {
        StartingAuthorizeGentle(y, id, y.tasks[id].command, expired);
      }
    case EndAuthorize(id, ok, tries, clock) =>
      if id in y.tasks && y.tasks[id].Authorizing? {
        FinishAuthorizeCalm(s, id, y.tasks[id].connection, y.tasks[id].generation, ok, tries, clock);
        CalmIsGentle(s, FinishAuthorize(s, id, y.tasks[id].connection, y.tasks[id].generation, ok, tries, clock));
      }
    case StartExecute(id, expired) =>
      if IsAccepted(y, id) && y.tasks[id].command.Execute? {
        StartingExecuteGentle(y, id, y.tasks[id].command, expired);
      }
    case EndExecute(id, ok, tries) =>
      if id in y.tasks && y.tasks[id].Executing? {
        FinishStreamGentle(s, id, y.tasks[id].connection, Some(y.tasks[id].generation),
                           ok && y.tasks[id].begun == Some(true), tries);
      }
    case StartPull(id) =>
      if IsAccepted(y, id) && y.tasks[id].command.Pull? && y.tasks[id].command.stream in s.objects {
        OpenPullGentle(s, id, y.tasks[id].command.stream);
      }
    case EndPull(id) =>
      if id in y.tasks && y.tasks[id].Pulled? && y.tasks[id].stream in s.objects {
        EndingPullGentle(s, id, y.tasks[id]);
      }
    case DoCancel(id) =>
      if IsAccepted(y, id) && y.tasks[id].command.Cancel? {
        CancelTargetGentle(s, y.tasks[id].command.target);
      }
    case DoDispose(id) =>
      ClearCalm(s);
      CalmIsGentle(s, Clear(s));
    case Disconnect =>
      ClearCalm(s);
      CalmIsGentle(s, Clear(s));
    case ExpireAuthorization(a, g) =>
      FinishCalm(s, g);
      CalmIsGentle(s, FinishMutation(s, g).0);
    case ExpireStream(id) => CloseGentle(s, id);
    case Refuse(id) =>
  }

  lemma UnboundAfter(s: State)
    requires StateInv(s)
    ensures s.disposed ==> s.connection.None?
  {
    hide Belongs, Separate, Owned, Tokens, Recorded, Flagged, ClosedCancelled;
  }

  /** The reading of a chunk moves one reader; cells, cancellations and slots stay. */
  lemma ReadChunkGentle(y: System, id: Id, live: bool, chunk: Option<bool>)
    ensures var t := Next(y, ReadChunk(id, live, chunk)).state;
      Settles(y.state, t) && Remembers(y.state, t) && Balanced(y.state, t, 0)
  {
    if id in y.tasks && y.tasks[id].Pulling? && y.tasks[id].stream in y.state.objects {
      var x := y.tasks[id].stream;
      ReaderReads(y.state, x, Next(y, ReadChunk(id, live, chunk)).state.objects[x]);
    }
    hide ReadStreams;
  }

  /** A dispatch takes an idle cell and touches nothing else. */
  lemma BeginGentle(y: System, id: Id)
    ensures var t := Next(y, Begin(id)).state;
      Remembers(y.state, t) && Steady(y.state, t) && Balanced(y.state, t, 0)
  {
    assert ReadStreams(Next(y, Begin(id)).state) == ReadStreams(y.state);
    hide ReadStreams;
  }
}
