/** What commands in flight hold: no reservation of an alias and no claim on a reader is ever left behind. */
module HostHoldings {
  import opened Basics
  import opened HostState
  import opened HostSteps
  import opened HostCalm
  import opened HostRuns
  import opened HostFaces
  import opened HostEffects
  import opened HostOutcomes
  import opened HostCommands

  // ---- reservations

  /** The task waits for an answer for the mutation `g`. */
  predicate WaitsFor(k: Option<Task>, g: Generation) {
    k.Some? && Holds(k.value) && k.value.generation == g
  }

  ghost predicate Waited(y: System, g: Generation) {
    exists i: Id :: WaitsFor(TaskOf(y, i), g)
  }

  /** One alias is reserved while a command waits for an answer for the mutation in work, and none otherwise. */
  ghost predicate Spare(y: System) {
    y.state.reserved == if y.state.work.Some? && Waited(y, y.state.work.value) then multiset{y.state.work.value}
                        else multiset{}
  }

  /** The command of a step waits after it as it did before. */
  lemma WaitedSame(y: System, p: Step, id: Id, g: Generation)
    requires Inv(y) && (About(p, id) || p.Disconnect? || p.ExpireAuthorization? || p.ExpireStream?)
    requires WaitsFor(TaskOf(Next(y, p), id), g) <==> WaitsFor(TaskOf(y, id), g)
    ensures Waited(Next(y, p), g) <==> Waited(y, g)
  {
    hide Inv, Next, TaskOf, WaitsFor, TaskAfter;
    forall i: Id ensures WaitsFor(TaskOf(Next(y, p), i), g) <==> WaitsFor(TaskOf(y, i), g) {
      TasksExactly(y, p, i);
    }
  }

  lemma OneWaits(y: System, i: Id, j: Id, g: Generation)
    requires Inv(y) && WaitsFor(TaskOf(y, i), g) && WaitsFor(TaskOf(y, j), g)
    ensures i == j
  {
    hide StateInv, TasksOk, SinglePull;
  }

  lemma OnlyWaiter(y: System, p: Step, id: Id, g: Generation)
    requires Inv(y) && About(p, id) && WaitsFor(TaskOf(y, id), g) && TaskOf(Next(y, p), id).None?
    ensures !Waited(Next(y, p), g)
  {
    hide Inv, Next, TaskAfter;
    forall i: Id ensures !WaitsFor(TaskOf(Next(y, p), i), g) {
      TasksExactly(y, p, i);
      if i != id && WaitsFor(TaskOf(y, i), g) { OneWaits(y, i, id, g); }
    }
  }

  /** An answer for the mutation in work takes the reservation, unless it ends the mutation. */
  lemma AnswerReserves(y: System, p: Step, f: Face)
    requires Inv(y) && Changes(y, p, f) && (p.EndAuthorize? || p.EndExecute?)
    ensures f.work == None ==> f.reserved == multiset{}
    ensures f.work.Some? ==> f.work == y.state.work
    ensures f.work.Some? && WaitsFor(TaskOf(y, p.id), f.work.value) && WaitsHere(y, p) ==>
            f.reserved == y.state.reserved[f.work.value := LessOne(y.state.reserved[f.work.value])]
    ensures f.work.Some? && !(WaitsFor(TaskOf(y, p.id), f.work.value) && WaitsHere(y, p)) ==>
            f.reserved == y.state.reserved
  {
    hide Inv, Changes, Clears, AnswerDoes, ReadStreams, HandleOf, Draws;
    AnswerIs(y, p, f);
    WorkOwn(y);
    if Clears(y, p) {
      AnswerBare(y, p, f);
    } else if Publishes(y, p) {
      var h: Id :| Opens(y, p, h) || HostOutcomes.Authorized(y, p, h);
      AnswerPublishes(y, p, f, h);
    } else {
      AnswerUnanswered(y, p, f);
    }
  }

  lemma AnswerUnanswered(y: System, p: Step, f: Face)
    requires Answers(p) && AnswerDoes(y, p, f) && !Clears(y, p) && !Publishes(y, p)
    ensures f == Unanswered(y, p)
  {
    hide Clears, Publishes, Opens, HostOutcomes.Authorized, Unanswered;
  }

  /** The step answers the command that it is about. */
  predicate WaitsHere(y: System, p: Step) {
    || (p.EndAuthorize? && p.id in y.tasks && y.tasks[p.id].Authorizing?)
    || (p.EndExecute? && p.id in y.tasks && y.tasks[p.id].Executing?)
  }

  lemma AnswerTask(y: System, p: Step)
    requires Inv(y) && (p.EndAuthorize? || p.EndExecute?)
    ensures TaskOf(Next(y, p), p.id) == if WaitsHere(y, p) then None else TaskOf(y, p.id)
  {
    hide Inv, Next;
    TasksExactly(y, p, p.id);
  }

  lemma Waits(y: System, i: Id, g: Generation)
    requires WaitsFor(TaskOf(y, i), g)
    ensures Waited(y, g)
  {
  }

  lemma AnswerSpare(y: System, p: Step)
    requires Inv(y) && Spare(y) && (p.EndAuthorize? || p.EndExecute?)
    ensures Spare(Next(y, p))
  {
    hide Inv, Next, Waited, Changes, TaskOf, WaitsFor, WaitsHere;
    var s, t := y.state, Next(y, p).state;
    NextFace(y, p);
    AnswerReserves(y, p, FaceOf(t));
    AnswerTask(y, p);
    if t.work.Some? {
      var g := t.work.value;
      if WaitsFor(TaskOf(y, p.id), g) && WaitsHere(y, p) {
        OnlyWaiter(y, p, p.id, g);
        Waits(y, p.id, g);
      } else {
        NotWaiting(y, p, g);
        WaitedSame(y, p, p.id, g);
      }
    }
  }

  lemma NotWaiting(y: System, p: Step, g: Generation)
    requires Inv(y) && (p.EndAuthorize? || p.EndExecute?) && !(WaitsFor(TaskOf(y, p.id), g) && WaitsHere(y, p))
    ensures WaitsFor(TaskOf(Next(y, p), p.id), g) <==> WaitsFor(TaskOf(y, p.id), g)
  {
    hide Inv, Next;
    AnswerTask(y, p);
  }

  /** What a starting command does to the reservations, if its task after the step is `k`. */
  ghost predicate Reserves(y: System, p: Step, f: Face, k: Option<Task>)
    requires p.StartAuthorize? || p.StartExecute?
  {
    && (f.work == None ==> f.reserved == multiset{})
    && (f.work.Some? ==>
          if WaitsFor(k, f.work.value) && CommandOf(y, p.id).Some?
          then f.reserved == (if f.work != y.state.work then multiset{f.work.value}
                              else y.state.reserved[f.work.value := y.state.reserved[f.work.value] + 1])
          else f.work == y.state.work && f.reserved == y.state.reserved)
  }

  lemma BeginTask(y: System, p: Step, g: Generation)
    requires p.StartAuthorize? && CommandOf(y, p.id).Some?
    ensures WaitsFor(TaskAfter(y, p, p.id), g) <==>
            Enters(y, p) && RoomForTwo(y.state) && g == y.state.nextGeneration + 1
  {
    hide Expires, RoomForTwo;
  }

  /** An authorize may begin a mutation. */
  lemma BeginReserves(y: System, p: Step, f: Face)
    requires Inv(y) && Changes(y, p, f) && p.StartAuthorize?
    ensures Reserves(y, p, f, TaskAfter(y, p, p.id))
  {
    hide Inv, Changes, Enters, RoomForTwo, TaskAfter, CommandOf, WaitsFor, BegunFace, FaceOf;
    BeginIs(y, p, f);
    EntersCommand(y, p);
    if f.work.Some? && CommandOf(y, p.id).Some? {
      BeginTask(y, p, f.work.value);
    }
    WorkOwn(y);
    if Enters(y, p) {
      BegunFields(y.state, p.expired);
    } else {
      FaceFields(y.state);
    }
  }

  lemma BegunFields(s: State, expired: seq<Id>)
    ensures var f, g := BegunFace(s, expired), s.nextGeneration + 1;
      if RoomForTwo(s) then f.work == Some(g) && f.reserved == multiset{g}
      else f.work == None && f.reserved == multiset{}
  {
    hide Expires, RoomForTwo, ReadStreams;
  }

  lemma EntersCommand(y: System, p: Step)
    ensures Enters(y, p) ==> CommandOf(y, p.id).Some?
  {
  }

  lemma FaceFields(s: State)
    ensures FaceOf(s).work == s.work && FaceOf(s).reserved == s.reserved && FaceOf(s).authorizations == s.authorizations
  {
  }

  /** The execute takes the live authorization that it names, and there is room. */
  predicate Takes(y: System, p: Step) {
    && p.StartExecute?
    && var c := CommandOf(y, p.id);
       && c.Some? && c.value.Execute? && y.state.Bound(c.value.connection) && !Expires(y.state, p.expired)
       && c.value.authorization in y.state.authorizations && Used(y.state) + 2 <= MAX_ALIASES
  }

  lemma TakeIs(y: System, p: Step, f: Face)
    requires Inv(y) && Changes(y, p, f) && p.StartExecute?
    ensures f.work == None ==> f.reserved == multiset{}
    ensures f.work.Some? ==> f.work == y.state.work
    ensures f.work.Some? ==>
            f.reserved == if Takes(y, p) then y.state.reserved[f.work.value := y.state.reserved[f.work.value] + 1]
                          else y.state.reserved
  {
    hide Inv, Used, Expires, ReadStreams;
    WorkOwn(y);
    var c := CommandOf(y, p.id);
    if c.Some? && c.value.Execute? && c.value.authorization in y.state.authorizations {
      AuthorizedOwn(y, c.value.authorization);
    }
  }

  lemma TakeTask(y: System, p: Step, g: Generation)
    requires Inv(y) && p.StartExecute? && y.state.work == Some(g) && CommandOf(y, p.id).Some?
    ensures WaitsFor(TaskAfter(y, p, p.id), g) <==> Takes(y, p)
  {
    hide Inv, Used, Expires;
    var c := CommandOf(y, p.id);
    if c.value.Execute? && c.value.authorization in y.state.authorizations {
      AuthorizedOwn(y, c.value.authorization);
    }
  }

  /** An execute may take the authorization of the mutation in work. */
  lemma TakeReserves(y: System, p: Step, f: Face)
    requires Inv(y) && Changes(y, p, f) && p.StartExecute?
    ensures Reserves(y, p, f, TaskAfter(y, p, p.id))
  {
    hide Inv, Changes, Takes, TaskAfter, CommandOf, WaitsFor;
    TakesCommand(y, p);
    TakeIs(y, p, f);
    if f.work.Some? && CommandOf(y, p.id).Some? {
      TakeTask(y, p, f.work.value);
    }
  }

  lemma TakesCommand(y: System, p: Step)
    ensures Takes(y, p) ==> CommandOf(y, p.id).Some?
  {
  }

  lemma AuthorizedOwn(y: System, a: Id)
    requires Inv(y) && a in y.state.authorizations
    ensures y.state.work == Some(y.state.authorizations[a])
  {
    hide Inv, StateInv;
    InvState(y);
    HostRuns.Authorized(y.state, a);
  }

  lemma WorkOwn(y: System)
    requires Inv(y)
    ensures y.state.work.Some? ==> y.state.work.value <= y.state.nextGeneration
    ensures y.state.work == None ==> y.state.reserved == multiset{}
  {
    hide TasksOk, Single, SinglePull, Separate, Owned, Tokens, Recorded, Flagged, ClosedCancelled, Emptied, Used;
  }

  lemma NoneWaits(y: System, p: Step, g: Generation)
    requires Inv(y) && p.StartExecute? && CommandOf(y, p.id).Some? && WaitsFor(TaskAfter(y, p, p.id), g)
    ensures !Waited(y, g)
  {
    hide StateInv, TasksOk, SinglePull, Used, Expires;
  }

  lemma NewWaits(y: System, p: Step, g: Generation)
    requires Inv(y) && p.StartAuthorize? && CommandOf(y, p.id).Some? && WaitsFor(TaskAfter(y, p, p.id), g)
    ensures Some(g) != y.state.work
  {
    hide Inv, Used, Expires, RoomForTwo;
    WorkOwn(y);
  }

  lemma StartSpare(y: System, p: Step)
    requires Inv(y) && Spare(y) && (p.StartAuthorize? || p.StartExecute?)
    ensures Spare(Next(y, p))
  {
    hide Inv, Next, Waited, Changes, TaskOf, WaitsFor, TaskAfter, CommandOf;
    var t := Next(y, p).state;
    NextFace(y, p);
    if p.StartAuthorize? { BeginReserves(y, p, FaceOf(t)); } else { TakeReserves(y, p, FaceOf(t)); }
    TasksExactly(y, p, p.id);
    if t.work.Some? {
      var g := t.work.value;
      if WaitsFor(TaskAfter(y, p, p.id), g) && CommandOf(y, p.id).Some? {
        Waits(Next(y, p), p.id, g);
        if p.StartExecute? { NoneWaits(y, p, g); } else { NewWaits(y, p, g); }
      } else {
        StartWaits(y, p, g);
        WaitedSame(y, p, p.id, g);
      }
    }
  }

  lemma StartWaits(y: System, p: Step, g: Generation)
    requires (p.StartAuthorize? || p.StartExecute?) && !(WaitsFor(TaskAfter(y, p, p.id), g) && CommandOf(y, p.id).Some?)
    ensures WaitsFor(TaskAfter(y, p, p.id), g) <==> WaitsFor(TaskOf(y, p.id), g)
  {
    hide Used, Expires, RoomForTwo;
  }

  predicate StartsOrAnswers(p: Step) {
    p.StartAuthorize? || p.StartExecute? || p.EndAuthorize? || p.EndExecute?
  }

  lemma DrawReserves(y: System, p: Step, f: Face)
    requires Inv(y) && Changes(y, p, f) && (p.DoConnect? || p.DoReadAccess? || p.EndRead?)
    ensures f.work == None ==> f.reserved == multiset{}
    ensures f.work.Some? ==> f.work == y.state.work && f.reserved == y.state.reserved
  {
    hide Inv, HandleOf, Draws, Exhausts, ReadStreams;
    WorkOwn(y);
    DrawnExcludes(y.state, p.tries);
    if Drawable(y.state, p.tries) {
      var h: Id := DrawnHandle(y.state, p.tries);
    }
  }

  lemma EndReserves(y: System, p: Step, f: Face)
    requires Inv(y) && Changes(y, p, f) && (p.EndPull? || p.DoCancel? || p.ExpireAuthorization? || p.ExpireStream?)
    ensures f.work == None ==> f.reserved == multiset{}
    ensures f.work.Some? ==> f.work == y.state.work && f.reserved == y.state.reserved
  {
    hide Inv, ReadStreams, KeepsOpen, FaceOf;
    WorkOwn(y);
    FaceFields(y.state);
  }

  lemma PlainReserves(y: System, p: Step, f: Face)
    requires Inv(y) && Changes(y, p, f)
    requires p.Accept? || p.Refuse? || p.StartRead? || p.Begin? || p.ReadChunk? || p.StartPull? || p.DoDispose?
             || p.Disconnect?
    ensures f.work == None ==> f.reserved == multiset{}
    ensures f.work.Some? ==> f.work == y.state.work && f.reserved == y.state.reserved
  {
    hide Inv, MayOpenRead, Used, Readable, FaceOf;
    WorkOwn(y);
    FaceFields(y.state);
  }

  lemma OtherReserves(y: System, p: Step, f: Face)
    requires Inv(y) && Changes(y, p, f) && !StartsOrAnswers(p)
    ensures f.work == None ==> f.reserved == multiset{}
    ensures f.work.Some? ==> f.work == y.state.work && f.reserved == y.state.reserved
  {
    hide Inv, Changes;
    if p.DoConnect? || p.DoReadAccess? || p.EndRead? {
      DrawReserves(y, p, f);
    } else if p.EndPull? || p.DoCancel? || p.ExpireAuthorization? || p.ExpireStream? {
      EndReserves(y, p, f);
    } else {
      PlainReserves(y, p, f);
    }
  }

  lemma OtherWaits(y: System, p: Step, id: Id, g: Generation)
    requires Inv(y) && About(p, id) && !StartsOrAnswers(p)
    ensures WaitsFor(TaskAfter(y, p, id), g) <==> WaitsFor(TaskOf(y, id), g)
  {
    hide StateInv, Single, SinglePull, TaskOk, Used, MayOpenRead, MayOpenPull, Readable;
    if id in y.tasks { TaskSeen(y, id); }
  }

  lemma TaskSeen(y: System, id: Id)
    requires Inv(y) && id in y.tasks
    ensures !y.state.disposed ==> id in y.state.seen
  {
    hide StateInv, Single, SinglePull;
    assert TaskOk(y.state, id, y.tasks[id]);
  }

  lemma OtherSpare(y: System, p: Step)
    requires Inv(y) && Spare(y) && !StartsOrAnswers(p)
    ensures Spare(Next(y, p))
  {
    hide Inv, Next, Waited, Changes, TaskOf, WaitsFor, TaskAfter;
    var t := Next(y, p).state;
    NextFace(y, p);
    OtherReserves(y, p, FaceOf(t));
    if t.work.Some? {
      if p.Disconnect? || p.ExpireAuthorization? || p.ExpireStream? {
        TasksExactly(y, p, 0);
        WaitedSame(y, p, 0, t.work.value);
      } else {
        TasksExactly(y, p, p.id);
        OtherWaits(y, p, p.id, t.work.value);
        WaitedSame(y, p, p.id, t.work.value);
      }
    }
  }

  lemma {:induction false} RunSpare(y: System, steps: seq<Step>)
    requires Inv(y) && Spare(y)
    ensures Spare(Run(y, steps))
    decreases |steps|
  {
    hide Inv, Spare, Next;
    if steps != [] {
      var p := steps[0];
      if p.EndAuthorize? || p.EndExecute? { AnswerSpare(y, p); }
      else if p.StartAuthorize? || p.StartExecute? { StartSpare(y, p); }
      else { OtherSpare(y, p); }
      NextKeeps(y, p);
      RunSpare(Next(y, p), steps[1..]);
    }
  }

  /** In every run: an alias is reserved exactly while a command waits for an answer for the mutation in work. */
  lemma ReservationsExactly(steps: seq<Step>)
    ensures Spare(Run(START, steps))
  {
    hide Inv, Spare, Run;
    StartIdle();
    Reachable([]);
    RunStart();
    RunSpare(START, steps);
  }

  lemma StartIdle()
    ensures Spare(START)
  {
  }

  lemma RunStart()
    ensures Run(START, []) == START
  {
  }

  // ---- claims on readers

  /** Until disposal, a reader is claimed only while a pull of its stream is in flight. */
  ghost predicate ClaimsHeld(y: System) {
    !y.state.disposed ==> forall x | x in y.state.objects && y.state.objects[x].pulling :: PulledBy(y, x)
  }

  predicate PullsOn(k: Option<Task>, x: Id) {
    k.Some? && Pulls(k.value) && k.value.stream == x
  }

  ghost predicate PulledBy(y: System, x: Id) {
    exists i: Id :: PullsOn(TaskOf(y, i), x)
  }

  /** The readers that are claimed after a step. */
  lemma ClaimsNext(y: System, p: Step, f: Face, x: Id)
    requires Inv(y) && Changes(y, p, f) && x in f.objects && f.objects[x].pulling
    ensures || (x in y.state.objects && y.state.objects[x].pulling
                && !(p.EndPull? && PullsOn(TaskOf(y, p.id), x) && y.tasks[p.id].Pulled?))
            || (p.StartPull? && !f.disposed && PullsOn(TaskAfter(y, p, p.id), x))
            || f.disposed
  {
    hide Inv, HandleOf, Draws, Exhausts, ReadStreams, KeepsOpen, MayOpenRead, Used, Expires, RoomForTwo;
    if p.DoConnect? || p.DoReadAccess? || p.EndRead? || p.EndAuthorize? || p.EndExecute? {
      DrawnExcludes(y.state, p.tries);
      if Drawable(y.state, p.tries) {
        var h: Id := DrawnHandle(y.state, p.tries);
      }
    }
  }

  lemma PullStays(y: System, p: Step, i: Id, x: Id)
    requires Inv(y) && About(p, i) && PullsOn(TaskOf(y, i), x) && !(p.EndPull? && y.tasks[i].Pulled?)
    ensures PullsOn(TaskAfter(y, p, i), x)
  {
    hide Inv, Used, MayOpenRead, MayOpenPull, Readable, Expires, RoomForTwo;
    TaskSeen(y, i);
  }

  lemma PullGoesOn(y: System, p: Step, i: Id, x: Id)
    requires Inv(y) && PullsOn(TaskOf(y, i), x)
    requires !(p.EndPull? && PullsOn(TaskOf(y, p.id), x) && y.tasks[p.id].Pulled?)
    ensures PulledBy(Next(y, p), x)
  {
    hide Inv, Next, TaskAfter;
    TasksExactly(y, p, i);
    if About(p, i) { PullStays(y, p, i, x); }
    assert PullsOn(TaskOf(Next(y, p), i), x);
  }

  lemma NextClaims(y: System, p: Step)
    requires Inv(y) && ClaimsHeld(y)
    ensures ClaimsHeld(Next(y, p))
  {
    hide Inv, Next, Changes, PullsOn, TaskOf, TaskAfter;
    var z := Next(y, p);
    var f := FaceOf(z.state);
    NextFace(y, p);
    if !z.state.disposed {
      StaysDisposed(y, p);
      forall x | x in z.state.objects && z.state.objects[x].pulling ensures PulledBy(z, x) {
        ClaimsNext(y, p, f, x);
        if p.StartPull? && PullsOn(TaskAfter(y, p, p.id), x) {
          TasksExactly(y, p, p.id);
          assert PullsOn(TaskOf(z, p.id), x);
        } else {
          var i: Id :| PullsOn(TaskOf(y, i), x);
          PullGoesOn(y, p, i, x);
        }
      }
    }
  }

  lemma StaysDisposed(y: System, p: Step)
    requires Inv(y)
    ensures y.state.disposed ==> Next(y, p).state.disposed
  {
    hide Inv, Next, Clears;
    DisposedExactly(y, p);
  }

  lemma {:induction false} RunClaims(y: System, steps: seq<Step>)
    requires Inv(y) && ClaimsHeld(y)
    ensures ClaimsHeld(Run(y, steps))
    decreases |steps|
  {
    hide Inv, ClaimsHeld, Next;
    if steps != [] {
      NextClaims(y, steps[0]);
      NextKeeps(y, steps[0]);
      RunClaims(Next(y, steps[0]), steps[1..]);
    }
  }

  /** In every run, until disposal: a reader is claimed if and only if a pull of its stream is in flight. */
  lemma ClaimsExactly(steps: seq<Step>, x: Id)
    ensures var y := Run(START, steps);
      !y.state.disposed && x in y.state.objects ==> (y.state.objects[x].pulling <==> PulledBy(y, x))
  {
    hide Inv, Run;
    Reachable([]);
    RunStart();
    RunClaims(START, steps);
    Reachable(steps);
    var y := Run(START, steps);
    if PulledBy(y, x) {
      var i: Id :| PullsOn(TaskOf(y, i), x);
      PullClaims(y, i);
    }
  }

  lemma PullClaims(y: System, i: Id)
    requires Inv(y) && i in y.tasks && Pulls(y.tasks[i])
    ensures y.tasks[i].stream in y.state.objects && y.state.objects[y.tasks[i].stream].pulling
  {
    hide StateInv, Single, SinglePull;
    assert TaskOk(y.state, i, y.tasks[i]);
  }
}
