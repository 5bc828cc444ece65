/**
 What each step achieves. `NextFace` tells the visible part of the state after every step; the theorems say
 which steps open and close a stream, begin and end a mutation, publish and use up an authorization, make a
 connection and dispose of the host, and that no other step does.
 */
module HostEffects {
  import opened Basics
  import opened HostState
  import opened HostSteps
  import opened HostCalm
  import opened HostRuns
  import opened HostGentle
  import opened HostFaces

  // ---- when a step does what

  /** An accepted command, still to be started. */
  function CommandOf(y: System, id: Id): Option<Command> {
    if id in y.tasks && y.tasks[id].Accepted? then Some(y.tasks[id].command) else None
  }

  predicate MayOpenRead(s: State, c: Command, live: bool)
    requires c.Read?
  {
    s.connection == Some(Connection(c.connection, Some(c.context))) && live && s.readSlots < 4
  }

  predicate MayOpenPull(s: State, c: Command)
    requires c.Pull?
  {
    s.Bound(c.connection) && c.stream in s.streams && c.stream in s.objects && !s.objects[c.stream].pulling
  }

  /** The next chunk can be read: it has come, the reader is not done, and the pull acknowledges the one before. */
  predicate Readable(s: State, id: Id, k: Task, live: bool, chunk: Option<bool>)
    requires k.Pulling? && k.stream in s.objects
  {
    var o := s.objects[k.stream];
    && live && chunk.Some? && !o.done && k.ack == o.previousAck
    && o.Token() !in s.tokens && HandleOf(o.mutation, id) !in s.tokens
  }

  /** The reader has moved past a chunk. */
  function PastFace(s: State, stream: Id, last: bool): Face
    requires stream in s.objects
  {
    var o := s.objects[stream];
    FaceOf(s).(objects := s.objects[stream := Stream(o.mutation, o.control, o.dispatched, o.pulling,
                                                     o.nextSeq + 1, o.nextSeq, last)])
  }

  /** A pull keeps its stream open if it answers a chunk that is not the last. */
  predicate KeepsOpen(s: State, id: Id, k: Task)
    requires k.Pulled? && k.stream in s.objects
  {
    var o := s.objects[k.stream];
    && k.outcome.Got? && !k.outcome.last && s.Bound(k.connection)
    && o.Token() !in s.tokens && HandleOf(o.mutation, id) !in s.tokens
  }

  function ClosedFace(s: State, x: Id): Face {
    if x !in s.streams then FaceOf(s)
    else if x in ReadStreams(s) then FaceOf(s).(streams := s.streams - {x}, readSlots := LessOne(s.readSlots))
    else Ended(s)
  }

  /** A connection under the handle drawn. */
  ghost predicate Connects(s: State, tries: seq<Option<Id>>, f: Face) {
    && (forall x: Id | Draws(s, tries, x) :: f == FaceOf(s).(connection := Some(Connection(x, None))))
    && (Exhausts(s, tries) ==> f == Bare(FaceOf(s)))
    && (!Exhausts(s, tries) && !Drawable(s, tries) ==> f == FaceOf(s))
  }

  /** Read access under the handle drawn, if the clock can be read. */
  ghost predicate GrantsAccess(s: State, tries: seq<Option<Id>>, clock: bool, f: Face)
    requires s.connection.Some?
  {
    && (forall x: Id | clock && Draws(s, tries, x) ::
          f == FaceOf(s).(connection := Some(Connection(s.connection.value.id, Some(x)))))
    && (Exhausts(s, tries) ==> f == Bare(FaceOf(s)))
    && (!Exhausts(s, tries) && !(clock && Drawable(s, tries)) ==> f == FaceOf(s))
  }

  predicate BeginsMutation(s: State, expired: seq<Id>) {
    s.work.None? || Expires(s, expired)
  }

  predicate RoomForTwo(s: State) {
    |s.aliases| + |s.history| + 2 <= MAX_ALIASES
  }

  function BegunFace(s: State, expired: seq<Id>): Face {
    var f := (if Expires(s, expired) then Ended(s) else FaceOf(s)).(generations := s.nextGeneration + 1);
    if RoomForTwo(s)
    then f.(work := Some(s.nextGeneration + 1), reserved := multiset{s.nextGeneration + 1}) else Bare(f)
  }

  function ExecutedFace(s: State, a: Id, expired: seq<Id>): Face {
    if Expires(s, expired) then Ended(s)
    else if a !in s.authorizations then FaceOf(s)
    else if Used(s) + 2 <= MAX_ALIASES
    then OneMore(FaceOf(s), s.authorizations[a]).(authorizations := s.authorizations - {a})
    else Bare(FaceOf(s))
  }

  function CancelledFace(s: State, target: Id): Face {
    if |s.cancelled| >= MAX_CONTROLS && target !in s.cancelled then Bare(FaceOf(s))
    else if target in s.aliases then Ended(s)
    else if target in s.streams then FaceOf(s).(streams := s.streams - {target}, readSlots := LessOne(s.readSlots))
    else FaceOf(s)
  }

  /** The visible part of the state after a step. */
  ghost predicate Changes(y: System, p: Step, f: Face) {
    var s, n := y.state, FaceOf(y.state);
    match p
    case Accept(_, _) => f == if !s.disposed && |s.seen| >= MAX_CONTROLS then Bare(n) else n
    case DoConnect(id, tries) =>
      if CommandOf(y, id) == Some(Connect) && !s.disposed && s.connection.None?
      then Connects(s, tries, f) else f == n
    case DoReadAccess(id, tries, clock) =>
      var c := CommandOf(y, id);
      if c.Some? && c.value.ReadAccess? && s.Bound(c.value.connection) then GrantsAccess(s, tries, clock, f) else f == n
    case StartRead(id, live) =>
      var c := CommandOf(y, id);
      f == if c.Some? && c.value.Read? && MayOpenRead(s, c.value, live) then n.(readSlots := s.readSlots + 1) else n
    case EndRead(id, ok, tries) =>
      if id !in y.tasks || !y.tasks[id].Reading? || s.disposed then f == n
      else if ok && Awaited(s, id, y.tasks[id].connection, None) then Responds(s, id, None, tries, f)
      else f == Refused(s, None)
    case StartAuthorize(id, expired) =>
      var c := CommandOf(y, id);
      f == if c.Some? && c.value.Authorize? && s.Bound(c.value.connection) && BeginsMutation(s, expired)
           then BegunFace(s, expired) else n
    case EndAuthorize(id, ok, tries, clock) =>
      if id !in y.tasks || !y.tasks[id].Authorizing? then f == n
      else
        var g := y.tasks[id].generation;
        if ok && Awaited(s, id, y.tasks[id].connection, Some(g)) then Authorizes(s, g, tries, clock, f)
        else f == if s.Owns(g) then Ended(s) else n
    case StartExecute(id, expired) =>
      var c := CommandOf(y, id);
      f == if c.Some? && c.value.Execute? && s.Bound(c.value.connection)
           then ExecutedFace(s, c.value.authorization, expired) else n
    case EndExecute(id, ok, tries) =>
      if id !in y.tasks || !y.tasks[id].Executing? then f == n
      else
        var m := Some(y.tasks[id].generation);
        if ok && y.tasks[id].begun == Some(true) && Awaited(s, id, y.tasks[id].connection, m)
        then Responds(s, id, m, tries, f)
        else f == Refused(s, m)
    case StartPull(id) =>
      var c := CommandOf(y, id);
      f == if c.None? || !c.value.Pull? || !MayOpenPull(s, c.value) then n
           else
             var g := Claimed(s, c.value.stream, true);
             if s.objects[c.value.stream].mutation.None? || Used(s) + 1 <= MAX_ALIASES then g else Bare(g)
    case ReadChunk(id, live, chunk) =>
      f == if id in y.tasks && y.tasks[id].Pulling? && y.tasks[id].stream in s.objects
              && Readable(s, id, y.tasks[id], live, chunk)
           then PastFace(s, y.tasks[id].stream, chunk.value) else n
    case EndPull(id) =>
      f == if id !in y.tasks || !y.tasks[id].Pulled? || y.tasks[id].stream !in s.objects then n
           else
             var g := Claimed(s, y.tasks[id].stream, false);
             if KeepsOpen(s, id, y.tasks[id]) then g
             else ClosedFace(s, y.tasks[id].stream).(objects := g.objects)
    case DoCancel(id) =>
      var c := CommandOf(y, id);
      f == if c.Some? && c.value.Cancel? && s.Bound(c.value.connection) then CancelledFace(s, c.value.target) else n
    case DoDispose(id) =>
      var c := CommandOf(y, id);
      f == if c.Some? && c.value.Dispose? && s.Bound(c.value.connection) then Bare(n) else n
    case Disconnect => f == Bare(n)
    case ExpireAuthorization(a, g) =>
      f == if a in s.authorizations && s.authorizations[a] == g then Ended(s) else n
    case ExpireStream(x) => f == ClosedFace(s, x)
    case _ => f == n
  }

  // ---- step by step

  lemma ConnectFace(y: System, p: Step)
    requires Inv(y) && (p.DoConnect? || p.DoReadAccess?)
    ensures Changes(y, p, FaceOf(Next(y, p).state))
  {
    var s := y.state;
    hide Inv, StateInv, UniqueHandle, Draws, Drawable, Exhausts, Clear;
    InvState(y);
    ClearFace(s);
    if Exhausts(s, p.tries) {
      UniqueExhausted(s, p.tries);
    } else if Drawable(s, p.tries) {
      var x: Id := DrawnHandle(s, p.tries);
      UniqueDrawn(s, p.tries, x);
      DrawnOnly(s, p.tries, x);
    } else {
      UniqueNone(s, p.tries);
    }
    DrawnExcludes(s, p.tries);
  }

  lemma DrawnHandle(s: State, tries: seq<Option<Id>>) returns (x: Id)
    requires Drawable(s, tries)
    ensures Draws(s, tries, x)
  {
    hide Draws;
    x :| Draws(s, tries, x);
  }

  lemma DrawnOnly(s: State, tries: seq<Option<Id>>, x: Id)
    requires Draws(s, tries, x)
    ensures forall h: Id | Draws(s, tries, h) :: h == x
  {
    hide Draws;
    forall h: Id | Draws(s, tries, h) ensures h == x {
      DrawnOnce(s, tries, x, h);
    }
  }

  lemma DrawnExcludes(s: State, tries: seq<Option<Id>>)
    ensures Exhausts(s, tries) ==> forall h: Id :: !Draws(s, tries, h)
    ensures !Drawable(s, tries) ==> forall h: Id :: !Draws(s, tries, h)
  {
    hide Draws, Exhausts;
    forall h: Id | Draws(s, tries, h) ensures !Exhausts(s, tries) {
      NotExhausted(s, tries, h);
    }
  }

  lemma ReadFace(y: System, p: Step)
    requires Inv(y) && (p.StartRead? || p.EndRead?)
    ensures Changes(y, p, FaceOf(Next(y, p).state))
  {
    var s := y.state;
    hide Inv, StateInv, OpenRead, FinishStream, Responds, Refused;
    InvState(y);
    if p.StartRead? {
      OpenReadFace(s, p.id);
    } else if p.id in y.tasks && y.tasks[p.id].Reading? {
      FinishStreamFace(s, p.id, y.tasks[p.id].connection, None, p.ok, p.tries);
      if s.disposed { Disposed(s); } else { StillPending(y, p.id); }
    }
  }

  lemma Disposed(s: State)
    requires StateInv(s) && s.disposed
    ensures s.pending == map[] && s.connection.None? && s.streams == {} && s.work.None? && s.authorizations == map[]
  {
    hide Belongs, Separate, Owned, Tokens, Recorded, Flagged, ClosedCancelled, Used;
  }

  lemma RenewedFace(s: State, expired: seq<Id>, id: Id)
    requires StateInv(s) && Expires(s, expired)
    ensures FaceOf(StartMutation(ExpireAuthorizations(s, expired), id).0) == BegunFace(s, expired)
  {
    var t := ExpireAuthorizations(s, expired);
    hide StateInv, ExpireAuthorizations, StartMutation, Expires, ReadStreams;
    ExpireFace(s, expired);
    ExpireCount(s, expired);
    ExpireKeeps(s, expired);
    assert t.work == FaceOf(t).work == None && t.nextGeneration == FaceOf(t).generations == s.nextGeneration;
    StartMutationFace(t, id);
  }

  lemma StartedFace(s: State, expired: seq<Id>, id: Id)
    requires StateInv(s) && !Expires(s, expired)
    ensures FaceOf(StartMutation(ExpireAuthorizations(s, expired), id).0)
         == if s.work.None? then BegunFace(s, expired) else FaceOf(s)
  {
    hide StateInv, ExpireAuthorizations, StartMutation, Expires, Ended;
    ExpireFace(s, expired);
    StartMutationFace(s, id);
  }

  lemma AuthorizeFace(y: System, p: Step)
    requires Inv(y) && p.StartAuthorize?
    ensures Changes(y, p, FaceOf(Next(y, p).state))
  {
    hide Inv, StateInv, ExpireAuthorizations, StartMutation, Expires, BegunFace, FaceOf;
    InvState(y);
    if Expires(y.state, p.expired) {
      RenewedFace(y.state, p.expired, p.id);
    } else {
      StartedFace(y.state, p.expired, p.id);
    }
  }

  lemma EndAuthorizeFace(y: System, p: Step)
    requires Inv(y) && p.EndAuthorize?
    ensures Changes(y, p, FaceOf(Next(y, p).state))
  {
    var s := y.state;
    hide Inv, StateInv, FinishAuthorize, Authorizes, Ended;
    InvState(y);
    if p.id in y.tasks && y.tasks[p.id].Authorizing? {
      FinishAuthorizeFace(s, p.id, y.tasks[p.id].connection, y.tasks[p.id].generation, p.ok, p.tries, p.clock);
    }
  }

  lemma ExecuteFace(y: System, p: Step)
    requires Inv(y) && p.StartExecute?
    ensures Changes(y, p, FaceOf(Next(y, p).state))
  {
    var s := y.state;
    hide Inv, StateInv, ExpireAuthorizations, Consume, Expires, Bare, Used;
    InvState(y);
    ExpireFace(s, p.expired);
    UsedFits(s);
    var c := CommandOf(y, p.id);
    if c.Some? && c.value.Execute? && c.value.authorization in s.authorizations {
      ConsumeFace(s, p.id, c.value.authorization, s.authorizations[c.value.authorization]);
    }
  }

  lemma UsedFits(s: State)
    requires StateInv(s)
    ensures Used(s) <= MAX_ALIASES
  {
    hide Belongs, Separate, Owned, Tokens, Recorded, Flagged, ClosedCancelled, Emptied;
  }

  lemma EndExecuteFace(y: System, p: Step)
    requires Inv(y) && p.EndExecute?
    ensures Changes(y, p, FaceOf(Next(y, p).state))
  {
    var s := y.state;
    hide Inv, StateInv, FinishStream, Responds, Refused;
    InvState(y);
    if p.id in y.tasks && y.tasks[p.id].Executing? {
      FinishStreamFace(s, p.id, y.tasks[p.id].connection, Some(y.tasks[p.id].generation),
                       p.ok && y.tasks[p.id].begun == Some(true), p.tries);
    }
  }

  lemma PullFace(y: System, p: Step)
    requires Inv(y) && p.StartPull?
    ensures Changes(y, p, FaceOf(Next(y, p).state))
  {
    var s := y.state;
    hide Inv, StateInv, OpenPull, Bare, Used;
    InvState(y);
    UsedFits(s);
    var c := CommandOf(y, p.id);
    if c.Some? && c.value.Pull? && c.value.stream in s.objects {
      OpenPullFace(s, p.id, c.value.stream);
    }
  }

  lemma CloseFace(s: State, x: Id)
    requires Belongs(s)
    ensures FaceOf(CloseStream(s, x)) == ClosedFace(s, x)
  {
    hide Belongs, CloseStream, ReadStreams;
    CloseStreamFace(s, x);
  }

  lemma EndingPullFace(s: State, id: Id, k: Task)
    requires Belongs(s) && k.Pulled? && k.stream in s.objects
    ensures var g := Claimed(s, k.stream, false);
      FaceOf(EndingPull(s, id, k))
      == if KeepsOpen(s, id, k) then g else ClosedFace(s, k.stream).(objects := g.objects)
  {
    hide Belongs, LetGo, CloseStream, ReadStreams, HandleOf;
    LetGoFace(s, id, k.stream);
    CloseFace(LetGo(s, id, k.stream), k.stream);
  }

  lemma EndPullFace(y: System, p: Step)
    requires Inv(y) && p.EndPull?
    ensures Changes(y, p, FaceOf(Next(y, p).state))
  {
    hide Inv, StateInv, Belongs, EndingPull, ClosedFace, KeepsOpen;
    InvState(y);
    StateBelongs(y.state);
    if p.id in y.tasks && y.tasks[p.id].Pulled? && y.tasks[p.id].stream in y.state.objects {
      EndingPullFace(y.state, p.id, y.tasks[p.id]);
    }
  }

  lemma CancelsFace(y: System, p: Step)
    requires Inv(y) && p.DoCancel?
    ensures Changes(y, p, FaceOf(Next(y, p).state))
  {
    hide Inv, StateInv, Belongs, CancelTarget, Ended, Bare, FaceOf;
    InvState(y);
    StateBelongs(y.state);
    var c := CommandOf(y, p.id);
    if c.Some? && c.value.Cancel? { CancelTargetFace(y.state, c.value.target); }
  }

  lemma EndsFace(y: System, p: Step)
    requires Inv(y) && (p.DoDispose? || p.Disconnect? || p.ExpireAuthorization? || p.ExpireStream?)
    ensures Changes(y, p, FaceOf(Next(y, p).state))
  {
    var s := y.state;
    hide Inv, StateInv, Belongs, Clear, FinishMutation, CloseStream, Ended, Bare, ReadStreams, ClosedFace;
    InvState(y);
    StateBelongs(s);
    ClearFace(s);
    match p
    case ExpireAuthorization(a, g) =>
      if a in s.authorizations {
        HostRuns.Authorized(s, a);
        FinishFace(s, g);
      }
    case ExpireStream(x) => CloseFace(s, x);
    case _ =>
  }

  lemma QuietFace(y: System, p: Step)
    requires p.Accept? || p.Refuse? || p.Begin? || p.ReadChunk?
    ensures Changes(y, p, FaceOf(Next(y, p).state))
  {
    hide Clear, HandleOf;
    ClearFace(y.state);
  }

  /** After every step from a reachable state, the visible part of the state is what `Changes` says. */
  lemma NextFace(y: System, p: Step)
    requires Inv(y)
    ensures Changes(y, p, FaceOf(Next(y, p).state))
  {
    hide Inv, Changes, Next;
    match p
    case Accept(_, _) => QuietFace(y, p);
    case Refuse(_) => QuietFace(y, p);
    case Begin(_) => QuietFace(y, p);
    case ReadChunk(_, _, _) => QuietFace(y, p);
    case DoConnect(_, _) => ConnectFace(y, p);
    case DoReadAccess(_, _, _) => ConnectFace(y, p);
    case StartRead(_, _) => ReadFace(y, p);
    case EndRead(_, _, _) => ReadFace(y, p);
    case StartAuthorize(_, _) => AuthorizeFace(y, p);
    case EndAuthorize(_, _, _, _) => EndAuthorizeFace(y, p);
    case StartExecute(_, _) => ExecuteFace(y, p);
    case EndExecute(_, _, _) => EndExecuteFace(y, p);
    case StartPull(_) => PullFace(y, p);
    case EndPull(_) => EndPullFace(y, p);
    case DoCancel(_) => CancelsFace(y, p);
    case _ => EndsFace(y, p);
  }

  // ---- an authorize that begins a mutation

  predicate Enters(y: System, p: Step) {
    && p.StartAuthorize?
    && var c := CommandOf(y, p.id);
       c.Some? && c.value.Authorize? && y.state.Bound(c.value.connection) && BeginsMutation(y.state, p.expired)
  }

  lemma BeginIs(y: System, p: Step, f: Face)
    requires Changes(y, p, f) && p.StartAuthorize?
    ensures f == if Enters(y, p) then BegunFace(y.state, p.expired) else FaceOf(y.state)
  {
    hide Expires, BegunFace, FaceOf;
  }
}
