/** The visible events of the host and, for each, exactly the steps that bring it about. */
module HostOutcomes {
  import opened Basics
  import opened HostState
  import opened HostSteps
  import opened HostCalm
  import opened HostRuns
  import opened HostFaces
  import opened HostEffects

  // ---- answers that are awaited

  /** An answer of a read or an execute that arrived, to a request that was sent. */
  predicate Arrived(y: System, p: Step) {
    || (p.EndRead? && p.ok && p.id in y.tasks && y.tasks[p.id].Reading?)
    || (p.EndExecute? && p.ok && p.id in y.tasks && y.tasks[p.id].Executing? && y.tasks[p.id].begun == Some(true))
  }

  /** The mutation of the task that an answer is for. */
  function MutationOf(k: Task): Option<Generation> {
    if k.Authorizing? || k.Executing? then Some(k.generation) else None
  }

  /**
   Nobody has cancelled the request, its connection is there, and its mutation is still in work. That the
   control is registered need not be asked: it always is.
   */
  predicate Wanted(s: State, id: Id, k: Task)
    requires k.Reading? || k.Authorizing? || k.Executing?
  {
    && HandleOf(MutationOf(k), id) !in s.tokens && s.Bound(k.connection)
    && (MutationOf(k).Some? ==> s.work == MutationOf(k))
  }

  lemma WantedExact(y: System, id: Id)
    requires Inv(y) && id in y.tasks && (y.tasks[id].Reading? || Holds(y.tasks[id]))
    ensures Awaited(y.state, id, y.tasks[id].connection, MutationOf(y.tasks[id])) <==> Wanted(y.state, id, y.tasks[id])
  {
    hide StateInv, Single, SinglePull, HandleOf;
    assert TaskOk(y.state, id, y.tasks[id]);
    if y.state.disposed {
      hide TaskOk;
      InvState(y);
      Disposed(y.state);
    }
  }

  /** A wanted answer has arrived, and `x` is the handle drawn for it. */
  ghost predicate Opens(y: System, p: Step, x: Id) {
    Arrived(y, p) && Wanted(y.state, p.id, y.tasks[p.id]) && Draws(y.state, p.tries, x)
  }

  /** An authorize is answered in time, and `a` is the handle drawn for its authorization. */
  ghost predicate Authorized(y: System, p: Step, a: Id) {
    && p.EndAuthorize? && p.ok && p.clock && p.id in y.tasks && y.tasks[p.id].Authorizing?
    && Wanted(y.state, p.id, y.tasks[p.id]) && Draws(y.state, p.tries, a)
  }

  // ---- the end of everything

  /** The steps after which the host is disposed of: they are asked to, or run out of ids. */
  ghost predicate Clears(y: System, p: Step) {
    var s := y.state;
    match p
    case Accept(_, _) => !s.disposed && |s.seen| >= MAX_CONTROLS
    case DoConnect(id, tries) =>
      CommandOf(y, id) == Some(Connect) && !s.disposed && s.connection.None? && Exhausts(s, tries)
    case DoReadAccess(id, tries, _) =>
      var c := CommandOf(y, id);
      c.Some? && c.value.ReadAccess? && s.Bound(c.value.connection) && Exhausts(s, tries)
    case EndRead(id, _, tries) => Arrived(y, p) && Wanted(s, id, y.tasks[id]) && Exhausts(s, tries)
    case EndExecute(id, _, tries) => Arrived(y, p) && Wanted(s, id, y.tasks[id]) && Exhausts(s, tries)
    case EndAuthorize(id, ok, tries, _) =>
      ok && id in y.tasks && y.tasks[id].Authorizing? && Wanted(s, id, y.tasks[id]) && Exhausts(s, tries)
    case StartAuthorize(id, expired) =>
      var c := CommandOf(y, id);
      c.Some? && c.value.Authorize? && s.Bound(c.value.connection) && BeginsMutation(s, expired) && !RoomForTwo(s)
    case StartExecute(id, expired) =>
      var c := CommandOf(y, id);
      && c.Some? && c.value.Execute? && s.Bound(c.value.connection) && !Expires(s, expired)
      && c.value.authorization in s.authorizations && Used(s) + 2 > MAX_ALIASES
    case StartPull(id) =>
      var c := CommandOf(y, id);
      && c.Some? && c.value.Pull? && MayOpenPull(s, c.value) && s.objects[c.value.stream].mutation.Some?
      && Used(s) + 1 > MAX_ALIASES
    case DoCancel(id) =>
      var c := CommandOf(y, id);
      && c.Some? && c.value.Cancel? && s.Bound(c.value.connection)
      && |s.cancelled| >= MAX_CONTROLS && c.value.target !in s.cancelled
    case DoDispose(id) =>
      var c := CommandOf(y, id);
      c.Some? && c.value.Dispose? && s.Bound(c.value.connection)
    case Disconnect => true
    case _ => false
  }

  /** Nothing is left, whatever it was; only objects that pulls still hold. */
  ghost predicate AllGone(f: Face) {
    f.disposed && f.connection == None && f.work == None && f.streams == {} && f.authorizations == map[]
    && f.readSlots == 0
  }

  predicate Answers(p: Step) {
    p.EndRead? || p.EndExecute? || p.EndAuthorize?
  }

  /** The face after an answer that publishes nothing: it ends its mutation, or gives its read slot back. */
  function Unanswered(y: System, p: Step): Face
    requires Answers(p)
  {
    var s := y.state;
    if p.id !in y.tasks then FaceOf(s)
    else if p.EndRead? then if y.tasks[p.id].Reading? && !s.disposed then Refused(s, None) else FaceOf(s)
    else if p.EndExecute? && y.tasks[p.id].Executing? then Refused(s, Some(y.tasks[p.id].generation))
    else if p.EndAuthorize? && y.tasks[p.id].Authorizing? then Refused(s, Some(y.tasks[p.id].generation))
    else FaceOf(s)
  }

  ghost predicate Publishes(y: System, p: Step) {
    exists h: Id :: Opens(y, p, h) || Authorized(y, p, h)
  }

  /** What an answer does: it opens a stream, publishes an authorization, clears the host or does neither. */
  ghost predicate AnswerDoes(y: System, p: Step, f: Face)
    requires Answers(p)
  {
    && (forall h: Id | Opens(y, p, h) :: f == Opening(y.state, h, p.id, MutationOf(y.tasks[p.id])))
    && (forall h: Id | Authorized(y, p, h) ::
          var g := y.tasks[p.id].generation;
          f == OneLess(FaceOf(y.state), g).(authorizations := y.state.authorizations[h := g]))
    && (Clears(y, p) ==> f == Bare(FaceOf(y.state)))
    && (!Clears(y, p) && !Publishes(y, p) ==> f == Unanswered(y, p))
    && (Publishes(y, p) ==> !Clears(y, p) && !y.state.disposed)
  }

  lemma AnswerIs(y: System, p: Step, f: Face)
    requires Inv(y) && Changes(y, p, f) && Answers(p)
    ensures AnswerDoes(y, p, f)
  {
    hide Inv, HandleOf, Awaited, Draws, Exhausts, FaceOf, Ended, Bare, Opening, OneLess;
    DrawnExcludes(y.state, p.tries);
    if p.id in y.tasks && (y.tasks[p.id].Reading? || Holds(y.tasks[p.id])) {
      WantedExact(y, p.id);
      WantedLive(y, p.id);
    }
    if Drawable(y.state, p.tries) {
      var h: Id := DrawnHandle(y.state, p.tries);
      assert Opens(y, p, h) || Authorized(y, p, h) ==> Publishes(y, p);
    }
  }

  lemma AnswerClears(y: System, p: Step, f: Face)
    requires Answers(p) && AnswerDoes(y, p, f)
    ensures if Clears(y, p) then AllGone(f) else f.disposed == y.state.disposed
  {
    hide Opens, Authorized, Clears, ReadStreams;
    if Publishes(y, p) {
      var h: Id :| Opens(y, p, h) || Authorized(y, p, h);
    }
  }

  lemma WantedLive(y: System, id: Id)
    requires Inv(y) && id in y.tasks && (y.tasks[id].Reading? || Holds(y.tasks[id]))
    ensures Wanted(y.state, id, y.tasks[id]) ==> !y.state.disposed
  {
    hide StateInv, TasksOk, Single, SinglePull, HandleOf;
    if y.state.disposed { Disposed(y.state); }
  }

  lemma ConnectClears(y: System, p: Step, f: Face)
    requires Changes(y, p, f) && (p.DoConnect? || p.DoReadAccess?)
    ensures if Clears(y, p) then AllGone(f) else f.disposed == y.state.disposed
  {
    hide Draws, Exhausts;
    DrawnExcludes(y.state, p.tries);
    if Drawable(y.state, p.tries) {
      var x: Id := DrawnHandle(y.state, p.tries);
    }
  }

  lemma OtherClears(y: System, p: Step, f: Face)
    requires Changes(y, p, f) && !p.DoConnect? && !p.DoReadAccess? && !Answers(p)
    ensures if Clears(y, p) then AllGone(f) else f.disposed == y.state.disposed
  {
    hide Expires, ReadStreams, Used, KeepsOpen, MayOpenRead, RoomForTwo;
  }

  /** The host is disposed of by exactly these steps, and then nothing is left. */
  lemma DisposedExactly(y: System, p: Step)
    requires Inv(y)
    ensures Next(y, p).state.disposed <==> y.state.disposed || Clears(y, p)
    ensures Clears(y, p) ==> AllGone(FaceOf(Next(y, p).state))
  {
    hide Inv, Next, Changes, Clears, AnswerDoes;
    NextFace(y, p);
    var f := FaceOf(Next(y, p).state);
    if p.DoConnect? || p.DoReadAccess? {
      ConnectClears(y, p, f);
    } else if Answers(p) {
      AnswerIs(y, p, f);
      AnswerClears(y, p, f);
    } else {
      OtherClears(y, p, f);
    }
  }

  // ---- mutations

  predicate Begins(y: System, p: Step) {
    && p.StartAuthorize?
    && var c := CommandOf(y, p.id);
       && c.Some? && c.value.Authorize? && y.state.Bound(c.value.connection)
       && BeginsMutation(y.state, p.expired) && RoomForTwo(y.state)
  }

  /** The steps that end the mutation in work, other than by clearing the host. */
  ghost predicate Finishes(y: System, p: Step) {
    var s := y.state;
    match p
    case StartAuthorize(id, expired) =>
      var c := CommandOf(y, id);
      c.Some? && c.value.Authorize? && s.Bound(c.value.connection) && Expires(s, expired)
    case StartExecute(id, expired) =>
      var c := CommandOf(y, id);
      c.Some? && c.value.Execute? && s.Bound(c.value.connection) && Expires(s, expired)
    case EndAuthorize(id, ok, tries, clock) =>
      && id in y.tasks && y.tasks[id].Authorizing? && s.Owns(y.tasks[id].generation)
      && !(ok && clock && Wanted(s, id, y.tasks[id]) && Drawable(s, tries))
    case EndExecute(id, _, tries) =>
      && id in y.tasks && y.tasks[id].Executing? && s.Owns(y.tasks[id].generation)
      && !(Arrived(y, p) && Wanted(s, id, y.tasks[id]) && Drawable(s, tries))
    case EndPull(id) =>
      && id in y.tasks && y.tasks[id].Pulled? && y.tasks[id].stream in s.objects
      && OfMutationStream(s, y.tasks[id].stream) && !KeepsOpen(s, id, y.tasks[id])
    case DoCancel(id) =>
      var c := CommandOf(y, id);
      c.Some? && c.value.Cancel? && s.Bound(c.value.connection) && c.value.target in s.aliases
    case ExpireAuthorization(a, g) => a in s.authorizations && s.authorizations[a] == g
    case ExpireStream(x) => OfMutationStream(s, x)
    case _ => false
  }

  /** An open stream of the mutation in work. */
  predicate OfMutationStream(s: State, x: Id) {
    x in s.streams && x !in ReadStreams(s)
  }

  lemma AnswerFinishes(y: System, p: Step, f: Face)
    requires Answers(p) && AnswerDoes(y, p, f)
    ensures f.work == if Clears(y, p) || Finishes(y, p) then None else y.state.work
  {
    if !Clears(y, p) { AnswerEnds(y, p); }
    hide Opens, Authorized, Clears, Finishes, ReadStreams;
    if Publishes(y, p) {
      var h: Id :| Opens(y, p, h) || Authorized(y, p, h);
    }
  }

  /** An answer for the mutation in work ends it exactly when it publishes nothing. */
  lemma AnswerEnds(y: System, p: Step)
    requires Answers(p) && !Clears(y, p)
    ensures Finishes(y, p) <==>
            && !Publishes(y, p) && p.id in y.tasks && y.state.work == MutationOf(y.tasks[p.id]) != None
            && ((p.EndExecute? && y.tasks[p.id].Executing?) || (p.EndAuthorize? && y.tasks[p.id].Authorizing?))
  {
    hide HandleOf, Draws, Exhausts;
    if Drawable(y.state, p.tries) {
      var h: Id := DrawnHandle(y.state, p.tries);
      assert Opens(y, p, h) || Authorized(y, p, h) ==> Publishes(y, p);
    } else {
      DrawnExcludes(y.state, p.tries);
    }
  }

  lemma ConnectFinishes(y: System, p: Step, f: Face)
    requires Changes(y, p, f) && (p.DoConnect? || p.DoReadAccess?)
    ensures f.work == if Clears(y, p) then None else y.state.work
  {
    hide Draws, Exhausts;
    DrawnExcludes(y.state, p.tries);
    if Drawable(y.state, p.tries) {
      var x: Id := DrawnHandle(y.state, p.tries);
    }
  }

  lemma OtherFinishes(y: System, p: Step, f: Face)
    requires Changes(y, p, f) && !p.DoConnect? && !p.DoReadAccess? && !Answers(p)
    ensures f.work == if Begins(y, p) then Some(y.state.nextGeneration + 1)
                      else if Clears(y, p) || Finishes(y, p) then None else y.state.work
  {
    hide Expires, ReadStreams, Used, KeepsOpen, MayOpenRead, RoomForTwo;
  }

  /** The mutation in work after a step. */
  lemma WorkExactly(y: System, p: Step)
    requires Inv(y)
    ensures Next(y, p).state.work ==
      if Begins(y, p) then Some(y.state.nextGeneration + 1)
      else if Clears(y, p) || Finishes(y, p) then None
      else y.state.work
  {
    hide Inv, Next, Changes, Clears, Finishes, AnswerDoes;
    NextFace(y, p);
    var f := FaceOf(Next(y, p).state);
    if p.DoConnect? || p.DoReadAccess? {
      ConnectFinishes(y, p, f);
      NoFinish(y, p);
    } else if Answers(p) {
      AnswerIs(y, p, f);
      AnswerFinishes(y, p, f);
    } else {
      OtherFinishes(y, p, f);
    }
  }

  lemma NoFinish(y: System, p: Step)
    requires p.DoConnect? || p.DoReadAccess?
    ensures !Finishes(y, p)
  {
  }

  // ---- streams

  /** The steps that close the read stream `x`. */
  predicate Drops(y: System, p: Step, x: Id) {
    match p
    case EndPull(id) =>
      && id in y.tasks && y.tasks[id].Pulled? && y.tasks[id].stream == x && x in y.state.objects
      && !KeepsOpen(y.state, id, y.tasks[id])
    case DoCancel(id) =>
      var c := CommandOf(y, id);
      c.Some? && c.value.Cancel? && y.state.Bound(c.value.connection) && c.value.target == x
    case ExpireStream(stream) => stream == x
    case _ => false
  }

  ghost predicate Closes(y: System, p: Step, x: Id) {
    Clears(y, p) || if x in ReadStreams(y.state) then Drops(y, p, x) else Finishes(y, p)
  }

  /** Whether `x` is an open stream, and whether its object is there, after a step. */
  ghost predicate StreamFollows(y: System, p: Step, f: Face, x: Id) {
    && (x in f.streams <==> Opens(y, p, x) || (x in y.state.streams && !Closes(y, p, x)))
    && (x in f.objects <==> Opens(y, p, x) || x in y.state.objects)
  }

  lemma AnswerStreams(y: System, p: Step, f: Face, x: Id)
    requires Inv(y) && Answers(p) && AnswerDoes(y, p, f)
    ensures StreamFollows(y, p, f, x)
  {
    hide Inv, Opens, Authorized, Clears, Finishes, ReadStreams, AnswerDoes, Unanswered, Drops;
    InvAt(y, x);
    if Clears(y, p) {
      AnswerBare(y, p, f);
      NotPublished(y, p, x);
    } else {
      AnswerEnds(y, p);
      NoDrops(y, p, x);
      if Publishes(y, p) {
        var h: Id :| Opens(y, p, h) || Authorized(y, p, h);
        AnswerPublishes(y, p, f, h);
        OneHandle(y, p, h, x);
      } else {
        AnswerNone(y, p, f);
        NotPublished(y, p, x);
      }
    }
  }

  lemma NoDrops(y: System, p: Step, x: Id)
    requires Answers(p)
    ensures !Drops(y, p, x)
  {
  }

  lemma NotPublished(y: System, p: Step, x: Id)
    requires !Publishes(y, p)
    ensures !Opens(y, p, x) && !Authorized(y, p, x)
  {
    hide Opens, Authorized;
  }

  lemma AnswerBare(y: System, p: Step, f: Face)
    requires Answers(p) && AnswerDoes(y, p, f) && Clears(y, p)
    ensures f == Bare(FaceOf(y.state)) && !Publishes(y, p)
  {
    hide Opens, Authorized, Clears, FaceOf;
  }

  lemma AnswerPublishes(y: System, p: Step, f: Face, h: Id)
    requires Answers(p) && AnswerDoes(y, p, f) && (Opens(y, p, h) || Authorized(y, p, h))
    ensures Opens(y, p, h) ==> f == Opening(y.state, h, p.id, MutationOf(y.tasks[p.id]))
    ensures Authorized(y, p, h) ==>
      var g := y.tasks[p.id].generation;
      f == OneLess(FaceOf(y.state), g).(authorizations := y.state.authorizations[h := g])
    ensures Publishes(y, p) && !Clears(y, p)
  {
    hide Clears, FaceOf, Draws, Wanted;
  }

  /** Of what an answer that publishes nothing takes away. */
  lemma AnswerNone(y: System, p: Step, f: Face)
    requires Answers(p) && AnswerDoes(y, p, f) && !Clears(y, p) && !Publishes(y, p)
    ensures f.objects == y.state.objects && f.connection == y.state.connection && f.disposed == y.state.disposed
    ensures if Finishes(y, p) then f.streams == ReadStreams(y.state) && f.authorizations == map[]
            else f.streams == y.state.streams && f.authorizations == y.state.authorizations
  {
    AnswerEnds(y, p);
    hide Opens, Authorized, Clears, Finishes, ReadStreams, Publishes;
  }

  /** At most one handle is drawn for an answer, and for one thing. */
  lemma OneHandle(y: System, p: Step, h: Id, j: Id)
    ensures Opens(y, p, h) && Opens(y, p, j) ==> h == j
    ensures Authorized(y, p, h) && Authorized(y, p, j) ==> h == j
    ensures Opens(y, p, h) ==> !Authorized(y, p, j)
    ensures Authorized(y, p, h) ==> !Opens(y, p, j)
  {
    hide Draws, Wanted;
    if (Opens(y, p, h) && Opens(y, p, j)) || (Authorized(y, p, h) && Authorized(y, p, j)) {
      DrawnOnce(y.state, p.tries, h, j);
    }
  }

  lemma ConnectStreams(y: System, p: Step, f: Face, x: Id)
    requires Changes(y, p, f) && (p.DoConnect? || p.DoReadAccess?)
    ensures StreamFollows(y, p, f, x)
  {
    hide Draws, Exhausts, ReadStreams;
    DrawnExcludes(y.state, p.tries);
    if Drawable(y.state, p.tries) {
      var h: Id := DrawnHandle(y.state, p.tries);
    }
  }

  /** What the invariant says about one id. */
  lemma InvAt(y: System, x: Id)
    requires Inv(y)
    ensures x in ReadStreams(y.state) ==> x in y.state.streams && x !in y.state.aliases
    ensures y.state.disposed ==> x !in y.state.streams
    ensures x in y.state.streams && x !in ReadStreams(y.state) ==> y.state.work.Some? && x in y.state.aliases
    ensures x in y.state.authorizations || x in y.state.aliases ==> y.state.work.Some?
  {
    hide TasksOk, Single, SinglePull, Owned, Tokens, Recorded, ClosedCancelled, Used;
  }

  lemma PlainStreams(y: System, p: Step, f: Face, x: Id)
    requires Inv(y) && Changes(y, p, f)
    requires p.Accept? || p.Refuse? || p.StartRead? || p.Begin? || p.ReadChunk? || p.StartPull? || p.DoDispose?
             || p.Disconnect?
    ensures StreamFollows(y, p, f, x)
  {
    hide Inv, ReadStreams, Used, MayOpenRead;
    InvAt(y, x);
  }

  lemma BeginStreams(y: System, p: Step, f: Face, x: Id)
    requires Inv(y) && Changes(y, p, f) && p.StartAuthorize?
    ensures StreamFollows(y, p, f, x)
  {
    hide Inv, Changes, Clears, Finishes, Opens, Drops, Enters, Expires, RoomForTwo, ReadStreams, FaceOf, BegunFace;
    BeginSteps(y, p, x);
    BeginIs(y, p, f);
    BegunStreams(y.state, p.expired);
    InvAt(y, x);
  }

  lemma BegunStreams(s: State, expired: seq<Id>)
    ensures FaceOf(s).streams == s.streams && FaceOf(s).objects == s.objects
    ensures BegunFace(s, expired).objects == s.objects
    ensures BegunFace(s, expired).streams ==
      if !RoomForTwo(s) then {} else if Expires(s, expired) then ReadStreams(s) else s.streams
  {
    hide Expires, RoomForTwo, ReadStreams;
  }

  lemma BeginSteps(y: System, p: Step, x: Id)
    requires p.StartAuthorize?
    ensures Clears(y, p) <==> Enters(y, p) && !RoomForTwo(y.state)
    ensures Finishes(y, p) <==> Enters(y, p) && Expires(y.state, p.expired)
    ensures !Opens(y, p, x) && !Drops(y, p, x)
  {
    hide Expires, RoomForTwo;
  }

  lemma TakeStreams(y: System, p: Step, f: Face, x: Id)
    requires Inv(y) && Changes(y, p, f) && p.StartExecute?
    ensures StreamFollows(y, p, f, x)
  {
    hide Inv, ReadStreams, Used, Expires, RoomForTwo;
    InvAt(y, x);
    ExpiresNeedsWork(y, p);
  }

  lemma PullStreams(y: System, p: Step, f: Face, x: Id)
    requires Inv(y) && Changes(y, p, f) && (p.EndPull? || p.ExpireStream?)
    ensures StreamFollows(y, p, f, x)
  {
    hide Inv, ReadStreams, KeepsOpen;
    InvAt(y, x);
  }

  lemma CancelStreams(y: System, p: Step, f: Face, x: Id)
    requires Inv(y) && Changes(y, p, f) && (p.DoCancel? || p.ExpireAuthorization?)
    ensures StreamFollows(y, p, f, x)
  {
    hide Inv, ReadStreams;
    InvAt(y, x);
  }

  lemma OtherStreams(y: System, p: Step, f: Face, x: Id)
    requires Inv(y) && Changes(y, p, f)
    requires !p.DoConnect? && !p.DoReadAccess? && !Answers(p)
    ensures StreamFollows(y, p, f, x)
  {
    hide Inv, Changes, StreamFollows;
    if p.StartAuthorize? {
      BeginStreams(y, p, f, x);
    } else if p.StartExecute? {
      TakeStreams(y, p, f, x);
    } else if p.EndPull? || p.ExpireStream? {
      PullStreams(y, p, f, x);
    } else if p.DoCancel? || p.ExpireAuthorization? {
      CancelStreams(y, p, f, x);
    } else {
      PlainStreams(y, p, f, x);
    }
  }

  lemma ExpiresNeedsWork(y: System, p: Step)
    requires Inv(y)
    ensures (p.StartAuthorize? || p.StartExecute?) && Expires(y.state, p.expired) ==> y.state.work.Some?
  {
    hide Inv;
    if (p.StartAuthorize? || p.StartExecute?) && Expires(y.state, p.expired) {
      var a :| a in p.expired && a in y.state.authorizations;
      InvAt(y, a);
    }
  }

  /**
   A stream is opened by exactly the answers that are wanted and for which a handle is drawn. It is closed by exactly
   the steps that clear the host, end its mutation or, for a read stream, cancel it, expire it or end it with a pull.
   */
  lemma StreamsExactly(y: System, p: Step, x: Id)
    requires Inv(y)
    ensures x in Next(y, p).state.streams <==> Opens(y, p, x) || (x in y.state.streams && !Closes(y, p, x))
    ensures x in Next(y, p).state.objects <==> Opens(y, p, x) || x in y.state.objects
    ensures Opens(y, p, x) ==> x !in y.state.objects
  {
    hide Inv, Next, Changes, Closes, Opens, AnswerDoes;
    NextFace(y, p);
    var f := FaceOf(Next(y, p).state);
    if p.DoConnect? || p.DoReadAccess? {
      ConnectStreams(y, p, f, x);
    } else if Answers(p) {
      AnswerIs(y, p, f);
      AnswerStreams(y, p, f, x);
    } else {
      OtherStreams(y, p, f, x);
    }
    OpensNew(y, p, x);
  }

  lemma OpensNew(y: System, p: Step, x: Id)
    requires Inv(y)
    ensures Opens(y, p, x) ==> x !in y.state.objects && !y.state.disposed
  {
    hide TasksOk, Single, SinglePull, HandleOf, Belongs, Owned, Tokens, Recorded, Flagged, ClosedCancelled, Used;
  }

  lemma AliasObject(s: State, id: Id, g: Generation)
    ensures var t := Alias(s, id, g);
      t.objects == s.objects && t.pending == s.pending && t.aliases == s.aliases[id := g]
  {
    hide CancelAll;
    CancelObject(Link(s, id, g), {OfMutation(g)});
  }

  lemma CancelObject(s: State, hs: set<Handle>)
    ensures var t := CancelAll(s, hs); t.objects == s.objects && t.pending == s.pending && t.aliases == s.aliases
  {
  }

  lemma OpenStreamObject(s: State, h: Id, control: Id, mutation: Option<Generation>)
    ensures var t := OpenStream(s, h, control, mutation);
      && t.objects == s.objects[h := Stream(mutation, control, mutation.Some?, false, 0, -1, false)]
      && t.pending == s.pending
      && (mutation.Some? ==> h in t.aliases && t.aliases[h] == mutation.value)
  {
    hide Alias;
    if mutation.Some? { AliasObject(s, h, mutation.value); }
  }

  lemma RespondObject(s: State, control: Id, mutation: Option<Generation>, tries: seq<Option<Id>>, x: Id)
    requires StateInv(s) && Draws(s, tries, x)
    ensures var t := Respond(s, control, mutation, tries);
      && t.objects == s.objects[x := Stream(mutation, control, mutation.Some?, false, 0, -1, false)]
      && t.pending == s.pending
      && (mutation.Some? ==> x in t.aliases && t.aliases[x] == mutation.value)
  {
    hide StateInv, UniqueHandle, Draws, OpenStream;
    UniqueDrawn(s, tries, x);
    OpenStreamObject(s.(generated := s.generated + {x}), x, control, mutation);
  }

  /** The stream that is opened: of the mutation and control of the request, at its start, and everything else stays. */
  lemma OpenedStream(y: System, p: Step, x: Id)
    requires Inv(y) && Opens(y, p, x)
    ensures var s, t, m := y.state, Next(y, p).state, MutationOf(y.tasks[p.id]);
      && t.objects == s.objects[x := Stream(m, p.id, m.Some?, false, 0, -1, false)]
      && t.streams == s.streams + {x} && t.work == s.work && t.readSlots == s.readSlots
      && t.authorizations == s.authorizations && t.connection == s.connection
      && (m.Some? ==> x in t.aliases && t.aliases[x] == m.value)
      && p.id !in t.pending && p.id !in Next(y, p).tasks
  {
    var s, k := y.state, y.tasks[p.id];
    var u := s.(pending := s.pending - {p.id});
    OpensNew(y, p, x);
    WantedExact(y, p.id);
    InvState(y);
    UnpendHandles(s, p.id, p.tries);
    hide Inv, StateInv, Wanted, Draws, Exhausts, Drawable, Respond, FaceOf, HandleOf;
    UnpendInv(s, p.id);
    RespondObject(u, p.id, MutationOf(k), p.tries, x);
    OpenedFace(u, p.id, MutationOf(k), p.tries, x);
    OpensResponds(y, p);
    hide Next;
  }

  lemma OpensResponds(y: System, p: Step)
    requires Arrived(y, p) && Awaited(y.state, p.id, y.tasks[p.id].connection, MutationOf(y.tasks[p.id]))
    ensures var u := y.state.(pending := y.state.pending - {p.id});
      Next(y, p) == Drop(y, p.id, Respond(u, p.id, MutationOf(y.tasks[p.id]), p.tries))
  {
    hide Respond, HandleOf;
  }

  lemma OpenedFace(s: State, control: Id, mutation: Option<Generation>, tries: seq<Option<Id>>, x: Id)
    requires StateInv(s) && Draws(s, tries, x)
    ensures var t := Respond(s, control, mutation, tries);
      && t.streams == s.streams + {x} && t.work == s.work && t.readSlots == s.readSlots
      && t.authorizations == s.authorizations && t.connection == s.connection
  {
    hide StateInv, Draws, Respond;
    RespondDrawn(s, control, mutation, tries, x);
  }

  /** An answer that opens no stream ends its mutation or gives its read slot back. */
  lemma ReleasedExactly(y: System, p: Step)
    requires Inv(y) && (p.EndRead? || p.EndExecute?) && p.id in y.tasks && !exists x: Id :: Opens(y, p, x)
    ensures y.tasks[p.id].Executing? && p.EndExecute? ==> Next(y, p).state.work != Some(y.tasks[p.id].generation)
    ensures y.tasks[p.id].Reading? && p.EndRead? && !Next(y, p).state.disposed ==>
            Next(y, p).state.readSlots == LessOne(y.state.readSlots)
    ensures Next(y, p).state.streams <= y.state.streams
  {
    hide Inv, Next, Changes, ReadStreams, Clears, Opens, Authorized;
    NextFace(y, p);
    AnswerIs(y, p, FaceOf(Next(y, p).state));
    forall x: Id ensures x in Next(y, p).state.streams ==> x in y.state.streams {
      StreamsExactly(y, p, x);
    }
    NotAuthorized(y, p);
  }

  lemma NotAuthorized(y: System, p: Step)
    requires p.EndRead? || p.EndExecute?
    ensures forall h: Id :: !Authorized(y, p, h)
  {
  }

  // ---- authorizations

  /** An execute takes the authorization that it names. */
  predicate Uses(y: System, p: Step, a: Id) {
    && p.StartExecute?
    && var c := CommandOf(y, p.id);
       c.Some? && c.value.Execute? && y.state.Bound(c.value.connection) && c.value.authorization == a
  }

  ghost predicate AuthorizationFollows(y: System, p: Step, f: Face, a: Id) {
    && (a in f.authorizations <==>
          Authorized(y, p, a)
          || (a in y.state.authorizations && !Clears(y, p) && !Finishes(y, p) && !Uses(y, p, a)))
    && (Authorized(y, p, a) && a in f.authorizations ==> f.authorizations[a] == y.tasks[p.id].generation)
  }

  lemma AnswerAuthorizations(y: System, p: Step, f: Face, a: Id)
    requires Inv(y) && Answers(p) && AnswerDoes(y, p, f)
    ensures AuthorizationFollows(y, p, f, a)
  {
    AuthorizedTask(y, p, a);
    hide Inv, Opens, Authorized, Clears, Finishes, ReadStreams, AnswerDoes, Unanswered, Uses;
    NoUses(y, p, a);
    if Clears(y, p) {
      AnswerBare(y, p, f);
      NotPublished(y, p, a);
    } else {
      AnswerEnds(y, p);
      if Publishes(y, p) {
        var h: Id :| Opens(y, p, h) || Authorized(y, p, h);
        AnswerPublishes(y, p, f, h);
        OneHandle(y, p, h, a);
      } else {
        AnswerNone(y, p, f);
        NotPublished(y, p, a);
      }
    }
  }

  lemma AuthorizedTask(y: System, p: Step, a: Id)
    ensures Authorized(y, p, a) ==> p.EndAuthorize? && p.id in y.tasks && y.tasks[p.id].Authorizing?
  {
  }

  lemma NoUses(y: System, p: Step, a: Id)
    requires Answers(p)
    ensures !Uses(y, p, a)
  {
  }

  lemma ConnectAuthorizations(y: System, p: Step, f: Face, a: Id)
    requires Changes(y, p, f) && (p.DoConnect? || p.DoReadAccess?)
    ensures AuthorizationFollows(y, p, f, a)
  {
    hide Draws, Exhausts;
    DrawnExcludes(y.state, p.tries);
    if Drawable(y.state, p.tries) {
      var x: Id := DrawnHandle(y.state, p.tries);
    }
  }

  lemma PlainAuthorizations(y: System, p: Step, f: Face, a: Id)
    requires Inv(y) && Changes(y, p, f)
    requires p.Accept? || p.Refuse? || p.StartRead? || p.Begin? || p.ReadChunk? || p.StartPull? || p.DoDispose?
             || p.Disconnect?
    ensures AuthorizationFollows(y, p, f, a)
  {
    hide Inv, ReadStreams, Used, MayOpenRead;
  }

  lemma BeginAuthorizations(y: System, p: Step, f: Face, a: Id)
    requires Inv(y) && Changes(y, p, f) && p.StartAuthorize?
    ensures AuthorizationFollows(y, p, f, a)
  {
    hide Inv, ReadStreams, Used, Expires, RoomForTwo;
    InvAt(y, a);
  }

  lemma TakeAuthorizations(y: System, p: Step, f: Face, a: Id)
    requires Inv(y) && Changes(y, p, f) && p.StartExecute?
    ensures AuthorizationFollows(y, p, f, a)
  {
    hide Inv, ReadStreams, Used, Expires, RoomForTwo;
    InvAt(y, a);
  }

  lemma PullAuthorizations(y: System, p: Step, f: Face, a: Id)
    requires Changes(y, p, f) && (p.EndPull? || p.ExpireStream?)
    ensures AuthorizationFollows(y, p, f, a)
  {
    hide ReadStreams, KeepsOpen;
  }

  lemma CancelAuthorizations(y: System, p: Step, f: Face, a: Id)
    requires Changes(y, p, f) && (p.DoCancel? || p.ExpireAuthorization?)
    ensures AuthorizationFollows(y, p, f, a)
  {
    hide ReadStreams;
  }

  lemma OtherAuthorizations(y: System, p: Step, f: Face, a: Id)
    requires Inv(y) && Changes(y, p, f)
    requires !p.DoConnect? && !p.DoReadAccess? && !Answers(p)
    ensures AuthorizationFollows(y, p, f, a)
  {
    hide Inv, Changes, AuthorizationFollows;
    if p.StartAuthorize? {
      BeginAuthorizations(y, p, f, a);
    } else if p.StartExecute? {
      TakeAuthorizations(y, p, f, a);
    } else if p.EndPull? || p.ExpireStream? {
      PullAuthorizations(y, p, f, a);
    } else if p.DoCancel? || p.ExpireAuthorization? {
      CancelAuthorizations(y, p, f, a);
    } else {
      PlainAuthorizations(y, p, f, a);
    }
  }

  /**
   An authorization is published by exactly the wanted answers of an authorize, under the handle drawn and for its
   mutation. It goes when an execute takes it, its mutation ends or the host is cleared, and at no other time.
   */
  lemma AuthorizationsExactly(y: System, p: Step, a: Id)
    requires Inv(y)
    ensures a in Next(y, p).state.authorizations <==>
            || Authorized(y, p, a)
            || (a in y.state.authorizations && !Clears(y, p) && !Finishes(y, p) && !Uses(y, p, a))
    ensures Authorized(y, p, a) ==> Next(y, p).state.authorizations[a] == y.tasks[p.id].generation
  {
    hide Inv, Next, Changes, Clears, Finishes, Uses, Wanted, Draws, AnswerDoes;
    NextFace(y, p);
    var f := FaceOf(Next(y, p).state);
    if p.DoConnect? || p.DoReadAccess? {
      ConnectAuthorizations(y, p, f, a);
    } else if Answers(p) {
      AnswerIs(y, p, f);
      AnswerAuthorizations(y, p, f, a);
    } else {
      OtherAuthorizations(y, p, f, a);
    }
  }

  // ---- the connection

  /** A connect or a read access that is granted under the handle `x`. */
  ghost predicate Links(y: System, p: Step, x: Id) {
    var s := y.state;
    match p
    case DoConnect(id, tries) =>
      CommandOf(y, id) == Some(Connect) && !s.disposed && s.connection.None? && Draws(s, tries, x)
    case DoReadAccess(id, tries, clock) =>
      var c := CommandOf(y, id);
      c.Some? && c.value.ReadAccess? && s.Bound(c.value.connection) && clock && Draws(s, tries, x)
    case _ => false
  }

  ghost predicate ConnectionFollows(y: System, p: Step, f: Face) {
    && (forall x: Id | Links(y, p, x) ::
          f.connection == Some(if y.state.connection.Some? then Connection(y.state.connection.value.id, Some(x))
                               else Connection(x, None)))
    && (Clears(y, p) ==> f.connection == None)
    && (!Clears(y, p) && !(exists x: Id :: Links(y, p, x)) ==> f.connection == y.state.connection)
  }

  lemma LinkConnection(y: System, p: Step, f: Face)
    requires Changes(y, p, f) && (p.DoConnect? || p.DoReadAccess?)
    ensures ConnectionFollows(y, p, f)
  {
    hide Draws, Exhausts;
    DrawnExcludes(y.state, p.tries);
    if Drawable(y.state, p.tries) {
      var h: Id := DrawnHandle(y.state, p.tries);
      DrawnOnly(y.state, p.tries, h);
      assert Links(y, p, h) || !Links(y, p, h);
    }
  }

  lemma AnswerConnection(y: System, p: Step, f: Face)
    requires Answers(p) && AnswerDoes(y, p, f)
    ensures ConnectionFollows(y, p, f)
  {
    hide Opens, Authorized, Clears, ReadStreams;
    if Publishes(y, p) {
      var h: Id :| Opens(y, p, h) || Authorized(y, p, h);
    }
  }

  lemma OtherConnection(y: System, p: Step, f: Face)
    requires Changes(y, p, f) && !p.DoConnect? && !p.DoReadAccess? && !Answers(p)
    ensures ConnectionFollows(y, p, f)
  {
    hide Expires, ReadStreams, Used, KeepsOpen, MayOpenRead, RoomForTwo;
  }

  /** The connection is made, and given read access, by exactly the commands for it; only a clear takes it away. */
  lemma ConnectionExactly(y: System, p: Step)
    requires Inv(y)
    ensures ConnectionFollows(y, p, FaceOf(Next(y, p).state))
  {
    hide Inv, Next, Changes, ConnectionFollows, AnswerDoes;
    NextFace(y, p);
    var f := FaceOf(Next(y, p).state);
    if p.DoConnect? || p.DoReadAccess? {
      LinkConnection(y, p, f);
    } else if Answers(p) {
      AnswerIs(y, p, f);
      AnswerConnection(y, p, f);
    } else {
      OtherConnection(y, p, f);
    }
  }
}
