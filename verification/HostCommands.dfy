/** How a command proceeds: where it stands after each step, and what a pull reads and answers. */
module HostCommands {
  import opened Basics
  import opened HostState
  import opened HostSteps
  import opened HostCalm
  import opened HostRuns
  import opened HostFaces
  import opened HostEffects
  import opened HostLog

  function TaskOf(y: System, id: Id): Option<Task> {
    if id in y.tasks then Some(y.tasks[id]) else None
  }

  /** Where the command with this id stands after a step on it; None if it has ended or was never there. */
  function TaskAfter(y: System, p: Step, id: Id): Option<Task> {
    var s, k, c := y.state, TaskOf(y, id), CommandOf(y, id);
    match p
    case Accept(_, command) =>
      if !s.disposed && |s.seen| < MAX_CONTROLS && id !in s.seen && id !in s.generated
      then Some(Accepted(command)) else k
    case Refuse(_) => if c.Some? then None else k
    case DoConnect(_, _) => if c == Some(Connect) then None else k
    case DoReadAccess(_, _, _) => if c.Some? && c.value.ReadAccess? then None else k
    case StartRead(_, live) =>
      if c.None? || !c.value.Read? then k
      else if MayOpenRead(s, c.value, live) then Some(Reading(c.value.connection)) else None
    case EndRead(_, _, _) => if k.Some? && k.value.Reading? then None else k
    case StartAuthorize(_, expired) =>
      if c.None? || !c.value.Authorize? then k
      else if s.Bound(c.value.connection) && BeginsMutation(s, expired) && RoomForTwo(s)
      then Some(Authorizing(c.value.connection, s.nextGeneration + 1)) else None
    case EndAuthorize(_, _, _, _) => if k.Some? && k.value.Authorizing? then None else k
    case StartExecute(_, expired) =>
      if c.None? || !c.value.Execute? then k
      else if s.Bound(c.value.connection) && !Expires(s, expired) && c.value.authorization in s.authorizations
              && Used(s) + 2 <= MAX_ALIASES
      then Some(Executing(c.value.connection, s.authorizations[c.value.authorization], None)) else None
    case Begin(_) =>
      if k.Some? && k.value.Executing? && k.value.begun.None?
      then Some(k.value.(begun := Some(s.CellOf(OfMutation(k.value.generation)) == Idle))) else k
    case EndExecute(_, _, _) => if k.Some? && k.value.Executing? then None else k
    case StartPull(_) =>
      if c.None? || !c.value.Pull? then k
      else if MayOpenPull(s, c.value) && (s.objects[c.value.stream].mutation.None? || Used(s) + 1 <= MAX_ALIASES)
      then Some(Pulling(c.value.connection, c.value.stream, c.value.ack)) else None
    case ReadChunk(_, live, chunk) =>
      if k.Some? && k.value.Pulling? && k.value.stream in s.objects
      then Some(Pulled(k.value.connection, k.value.stream, k.value.ack,
                       if Readable(s, id, k.value, live, chunk)
                       then Got(s.objects[k.value.stream].nextSeq, chunk.value) else Failed))
      else k
    case EndPull(_) => if k.Some? && k.value.Pulled? && k.value.stream in s.objects then None else k
    case DoCancel(_) => if c.Some? && c.value.Cancel? && s.Bound(c.value.connection) then None else k
    case DoDispose(_) => if c.Some? && c.value.Dispose? && s.Bound(c.value.connection) then None else k
    case _ => k
  }

  /** The command that a step is about. */
  predicate About(p: Step, id: Id) {
    !p.Disconnect? && !p.ExpireAuthorization? && !p.ExpireStream? && p.id == id
  }

  lemma AcceptTask(y: System, p: Step, id: Id)
    requires Inv(y) && p.Accept?
    ensures TaskOf(Next(y, p), id) == if About(p, id) then TaskAfter(y, p, id) else TaskOf(y, id)
  {
    hide Inv, StateInv, Clear;
    InvState(y);
    StateSeparate(y.state);
  }

  lemma QuietTask(y: System, p: Step, id: Id)
    requires p.Refuse? || p.DoConnect? || p.DoReadAccess? || p.Disconnect? || p.DoCancel? || p.DoDispose?
             || p.ExpireAuthorization? || p.ExpireStream?
    ensures TaskOf(Next(y, p), id) == if About(p, id) then TaskAfter(y, p, id) else TaskOf(y, id)
  {
    hide Connecting, GrantingRead, CancelTarget, Clear, FinishMutation, CloseStream;
  }

  lemma ReadTask(y: System, p: Step, id: Id)
    requires p.StartRead? || p.EndRead? || p.EndAuthorize? || p.EndExecute? || p.EndPull? || p.ReadChunk? || p.Begin?
    ensures TaskOf(Next(y, p), id) == if About(p, id) then TaskAfter(y, p, id) else TaskOf(y, id)
  {
    hide FinishStream, FinishAuthorize, EndingPull, OpenRead, HandleOf;
  }

  lemma StartTask(y: System, p: Step, id: Id)
    requires Inv(y) && (p.StartAuthorize? || p.StartExecute? || p.StartPull?)
    ensures TaskOf(Next(y, p), id) == if About(p, id) then TaskAfter(y, p, id) else TaskOf(y, id)
  {
    hide Inv, StateInv, ExpireAuthorizations, StartMutation, Consume, OpenPull, Expires, Used, FaceOf;
    InvState(y);
    UsedFits(y.state);
    if p.StartAuthorize? {
      AuthorizeStarts(y.state, p.expired, p.id);
    } else if p.StartExecute? {
      ExecuteStarts(y.state, p.expired);
      var c := CommandOf(y, p.id);
      if c.Some? && c.value.Execute? && c.value.authorization in y.state.authorizations {
        ConsumeFace(y.state, p.id, c.value.authorization, y.state.authorizations[c.value.authorization]);
      }
    } else {
      var c := CommandOf(y, p.id);
      if c.Some? && c.value.Pull? && c.value.stream in y.state.objects {
        OpenPullFace(y.state, p.id, c.value.stream);
      }
    }
  }

  lemma AuthorizeStarts(s: State, expired: seq<Id>, id: Id)
    requires StateInv(s)
    ensures var (t, ok) := StartMutation(ExpireAuthorizations(s, expired), id);
      && (ok <==> BeginsMutation(s, expired) && RoomForTwo(s))
      && (ok ==> t.nextGeneration == s.nextGeneration + 1)
  {
    var e := ExpireAuthorizations(s, expired);
    hide StateInv, ExpireAuthorizations, StartMutation, Expires, ReadStreams;
    ExpireFace(s, expired);
    ExpireCount(s, expired);
    ExpireKeeps(s, expired);
    assert e.work == FaceOf(e).work;
    StartMutationFace(e, id);
    assert StartMutation(e, id).0.nextGeneration == FaceOf(StartMutation(e, id).0).generations;
  }

  lemma ExecuteStarts(s: State, expired: seq<Id>)
    requires StateInv(s)
    ensures Expires(s, expired) ==> ExpireAuthorizations(s, expired).authorizations == map[]
    ensures !Expires(s, expired) ==> ExpireAuthorizations(s, expired) == s
  {
    hide StateInv, ExpireAuthorizations, Expires, ReadStreams;
    ExpireFace(s, expired);
    assert ExpireAuthorizations(s, expired).authorizations == FaceOf(ExpireAuthorizations(s, expired)).authorizations;
  }

  /** Where every command stands after a step: only the one that the step is about moves, and as `TaskAfter` says. */
  lemma TasksExactly(y: System, p: Step, id: Id)
    requires Inv(y)
    ensures TaskOf(Next(y, p), id) == if About(p, id) then TaskAfter(y, p, id) else TaskOf(y, id)
  {
    hide Inv, Next, TaskAfter, About, TaskOf;
    if p.StartAuthorize? || p.StartExecute? || p.StartPull? {
      StartTask(y, p, id);
    } else if p.StartRead? || p.EndRead? || p.EndAuthorize? || p.EndExecute? || p.EndPull? || p.ReadChunk? || p.Begin? {
      ReadTask(y, p, id);
    } else if p.Accept? {
      AcceptTask(y, p, id);
    } else {
      QuietTask(y, p, id);
    }
  }

  // ---- dispatch and chunks

  lemma EmitsElsewhere(y: System, p: Step, e: Event)
    requires e in Emits(y, p)
    ensures if p.Begin? then e.Sent? else if p.DoCancel? then e.Answered? else p.EndPull? && e.Chunk?
  {
    hide CancelTarget, Delivered;
  }

  /** A dispatch is sent by exactly the first `begin` of an execute whose mutation nobody has cancelled. */
  lemma SentExactly(y: System, p: Step, g: Generation)
    ensures Sent(g) in Emits(y, p) <==>
            && p.Begin? && p.id in y.tasks && y.tasks[p.id].Executing? && y.tasks[p.id].generation == g
            && y.tasks[p.id].begun == None && y.state.CellOf(OfMutation(g)) == Idle
    ensures Sent(g) in Emits(y, p) ==> Next(y, p).state.CellOf(OfMutation(g)) == Dispatched
  {
    if p.Begin? {
      hide CancelTarget, Delivered;
    } else {
      if Sent(g) in Emits(y, p) { EmitsElsewhere(y, p, Sent(g)); }
      hide Emits, Next;
    }
  }

  /** The reader moves past a chunk exactly when it is read. */
  lemma ReaderExactly(y: System, id: Id, live: bool, chunk: Option<bool>)
    requires id in y.tasks && y.tasks[id].Pulling? && y.tasks[id].stream in y.state.objects
    ensures var s, t, x := y.state, Next(y, ReadChunk(id, live, chunk)).state, y.tasks[id].stream;
      && t.objects.Keys == s.objects.Keys && (forall z | z in s.objects && z != x :: t.objects[z] == s.objects[z])
      && var o, n := s.objects[x], t.objects[x];
         && n.mutation == o.mutation && n.control == o.control && n.pulling == o.pulling
         && if Readable(s, id, y.tasks[id], live, chunk)
            then n.nextSeq == o.nextSeq + 1 && n.previousAck == o.nextSeq && n.done == chunk.value
            else n == o
  {
    hide HandleOf;
  }

  /** A pull answers a chunk exactly when it has read one, and neither it nor its stream was cancelled meanwhile. */
  lemma ChunkExactly(y: System, p: Step, x: Id, n: nat, ack: int, last: bool)
    ensures Chunk(x, n, ack, last) in Emits(y, p) <==>
            && p.EndPull? && p.id in y.tasks && x in y.state.objects && y.tasks[p.id].Pulled?
            && y.tasks[p.id].stream == x && y.tasks[p.id].ack == ack && y.tasks[p.id].outcome == Got(n, last)
            && y.state.Bound(y.tasks[p.id].connection)
            && y.state.objects[x].Token() !in y.state.tokens
            && HandleOf(y.state.objects[x].mutation, p.id) !in y.state.tokens
  {
    if p.EndPull? {
      hide CancelTarget, HandleOf;
    } else {
      if Chunk(x, n, ack, last) in Emits(y, p) { EmitsElsewhere(y, p, Chunk(x, n, ack, last)); }
      hide Emits;
    }
  }
}
