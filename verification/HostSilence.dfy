/** After a cancellation, an expiry or disposal a stream delivers nothing more. */
module HostSilence {
  import opened Basics
  import opened HostState
  import opened HostSteps
  import opened HostRuns
  import opened HostCalm
  import opened HostGentle
  import opened HostLog
  import opened HostStreams
  import opened HostTheorems

  // ---- a stream whose token is cancelled is silent for good

  ghost predicate Silent(y: System, x: Id) {
    x in y.state.objects && y.state.objects[x].Token() in y.state.tokens
  }

  ghost predicate NoChunk(log: seq<Event>, x: Id) {
    forall e | e in log && e.Chunk? :: e.stream != x
  }

  lemma ReadChunkToken(y: System, p: Step, x: Id)
    requires p.ReadChunk? && x in y.state.objects
    ensures x in Next(y, p).state.objects && Next(y, p).state.objects[x].Token() == y.state.objects[x].Token()
    ensures Next(y, p).state.objects[x].mutation == y.state.objects[x].mutation
    ensures Next(y, p).state.objects.Keys == y.state.objects.Keys
  {
  }

  /** Streams keep their tokens, and tokens are never taken back. */
  lemma NextToken(y: System, p: Step, x: Id)
    requires Inv(y) && x in y.state.objects
    ensures x in Next(y, p).state.objects && Next(y, p).state.objects[x].Token() == y.state.objects[x].Token()
    ensures Next(y, p).state.objects[x].mutation == y.state.objects[x].mutation
  {
    hide Inv, Next;
    if p.ReadChunk? {
      ReadChunkToken(y, p, x);
    } else {
      NextSteady(y, p);
    }
  }

  lemma NextRemembers(y: System, p: Step)
    requires Inv(y)
    ensures Remembers(y.state, Next(y, p).state)
  {
    hide Inv, Settles, Steady, Balanced, Next, Remembers;
    if p.Begin? { BeginGentle(y, p.id); }
    else if p.ReadChunk? { ReadChunkGentle(y, p.id, p.live, p.chunk); }
    else { NextGentle(y, p); }
  }

  lemma SilentStays(y: System, p: Step, x: Id)
    requires Inv(y) && Silent(y, x)
    ensures Silent(Next(y, p), x)
  {
    hide Inv, Next;
    NextToken(y, p, x);
    NextRemembers(y, p);
  }

  lemma SilentEmits(y: System, p: Step, x: Id)
    requires Silent(y, x)
    ensures NoChunk(Emits(y, p), x)
  {
    hide CancelTarget;
  }

  lemma {:induction false} SilentDeliversNothing(y: System, steps: seq<Step>, x: Id)
    requires Inv(y) && Silent(y, x)
    ensures NoChunk(Log(y, steps), x)
    decreases |steps|
  {
    hide Inv, Next, Emits, Silent;
    if steps != [] {
      NextKeeps(y, steps[0]);
      SilentStays(y, steps[0], x);
      SilentEmits(y, steps[0], x);
      SilentDeliversNothing(Next(y, steps[0]), steps[1..], x);
    }
  }

  // ---- closing

  ghost predicate Closed(y: System, x: Id) {
    x in y.state.objects && x !in y.state.streams
  }

  lemma ClosedIsSilent(y: System, x: Id)
    requires Inv(y) && Closed(y, x)
    ensures Silent(y, x)
  {
    hide Belongs, Separate, Owned, Tokens, Recorded, Flagged, Emptied, TasksOk, Single, SinglePull;
  }

  lemma ClosedDeliversNothing(y: System, steps: seq<Step>, x: Id)
    requires Inv(y) && Closed(y, x)
    ensures NoChunk(Log(y, steps), x)
  {
    hide Inv, Closed, Silent, Log;
    ClosedIsSilent(y, x);
    SilentDeliversNothing(y, steps, x);
  }

  /** Disposal closes every stream. */
  lemma DisposalCloses(steps: seq<Step>, x: Id)
    requires Run(START, steps).state.disposed && x in Run(START, steps).state.objects
    ensures Closed(Run(START, steps), x)
  {
    hide Run, Belongs, Separate, Owned, Tokens, Recorded, Flagged, ClosedCancelled, TasksOk, Single, SinglePull;
    Reachable(steps);
  }

  lemma ExpiryCloses(y: System, x: Id)
    requires Inv(y) && x in y.state.objects
    ensures Closed(Next(y, ExpireStream(x)), x)
  {
    hide Inv, CloseStream;
    assert Next(y, ExpireStream(x)).state == CloseStream(y.state, x);
    hide Next;
    NextToken(y, ExpireStream(x), x);
    CloseCloses(y.state, x);
  }

  /** A stream that has expired delivers nothing more. */
  lemma ExpiredDeliversNothing(steps: seq<Step>, more: seq<Step>, x: Id)
    requires x in Run(START, steps).state.objects
    ensures NoChunk(Log(Next(Run(START, steps), ExpireStream(x)), more), x)
  {
    hide Run, Log, Next, Inv, Closed;
    var y := Run(START, steps);
    Reachable(steps);
    ExpiryCloses(y, x);
    NextKeeps(y, ExpireStream(x));
    ClosedDeliversNothing(Next(y, ExpireStream(x)), more, x);
  }

  /** Nor does any stream after disposal. */
  lemma DisposedDeliversNothing(steps: seq<Step>, more: seq<Step>, x: Id)
    requires Run(START, steps).state.disposed && x in Run(START, steps).state.objects
    ensures NoChunk(Log(Run(START, steps), more), x)
  {
    hide Run, Log, Inv, Closed;
    Reachable(steps);
    DisposalCloses(steps, x);
    ClosedDeliversNothing(Run(START, steps), more, x);
  }

  // ---- cancelling

  ghost predicate HasAnswer(log: seq<Event>, t: Id) {
    exists e | e in log :: e.Answered? && e.target == t
  }

  /** A pull of a read, under the control `t`. */
  ghost predicate PullsRead(y: System, t: Id) {
    && t in y.tasks && Pulls(y.tasks[t]) && y.tasks[t].stream in y.state.objects
    && y.state.objects[y.tasks[t].stream].mutation.None?
  }

  ghost predicate IsReadStream(y: System, t: Id) {
    t in y.state.objects && y.state.objects[t].mutation.None?
  }

  /** Of an answered id: neither a read stream under it nor a pull of a read under it goes on. */
  ghost predicate Quiet(log: seq<Event>, y: System, t: Id) {
    HasAnswer(log, t) && !y.state.disposed ==>
      (IsReadStream(y, t) ==> Silent(y, t)) && (PullsRead(y, t) ==> OfControl(t) in y.state.tokens)
  }

  lemma AnsweredCancelled(log: seq<Event>, y: System, t: Id)
    requires Told(log, y.state) && HasAnswer(log, t)
    ensures y.state.disposed || t in y.state.cancelled
  {
    var e :| e in log && e.Answered? && e.target == t;
    assert Answered(t, e.owner, e.dispatched) in log;
  }

  /** No stream opens under an id that was cancelled. */
  lemma NoNewStream(y: System, p: Step, t: Id)
    requires Inv(y) && t in y.state.cancelled && t !in y.state.objects && !Next(y, p).state.disposed
    ensures t !in Next(y, p).state.objects
  {
    hide Inv;
    if p.ReadChunk? {
    } else {
      hide Next;
      NextSteady(y, p);
    }
  }

  lemma StreamStaysQuiet(y: System, p: Step, t: Id)
    requires Inv(y) && t in y.state.cancelled && !Next(y, p).state.disposed
    requires IsReadStream(y, t) ==> Silent(y, t)
    ensures IsReadStream(Next(y, p), t) ==> Silent(Next(y, p), t)
  {
    hide Inv, Next, Silent;
    if t in y.state.objects {
      NextToken(y, p, t);
      if IsReadStream(y, t) { SilentStays(y, p, t); }
    } else {
      NoNewStream(y, p, t);
    }
  }

  /** A pull is as it was, or it starts with this step. */
  lemma PullBegins(y: System, p: Step, t: Id)
    requires t in Next(y, p).tasks && Pulls(Next(y, p).tasks[t])
    ensures || (t in y.tasks && Pulls(y.tasks[t]) && y.tasks[t].stream == Next(y, p).tasks[t].stream)
            || (p == StartPull(t) && Next(y, p).tasks[t].stream in y.state.objects
                && Next(y, p).state == OpenPull(y.state, t, Next(y, p).tasks[t].stream).0)
  {
    hide UniqueHandle, OpenRead, OpenPull, Consume, StartMutation, ExpireAuthorizations, MayRead, Connecting;
    hide FinishStream, FinishAuthorize, CancelTarget, Clear, FinishMutation, CloseStream, GrantingRead;
    hide EndingPull, NextChunk;
  }

  lemma OpenPullCancels(s: State, id: Id, stream: Id)
    requires stream in s.objects && s.objects[stream].mutation.None? && id in s.cancelled
    ensures OfControl(id) in OpenPull(s, id, stream).0.tokens
  {
    hide CancelCells;
  }

  lemma PullStaysQuiet(y: System, p: Step, t: Id)
    requires Inv(y) && t in y.state.cancelled && (PullsRead(y, t) ==> OfControl(t) in y.state.tokens)
    ensures PullsRead(Next(y, p), t) ==> OfControl(t) in Next(y, p).state.tokens
  {
    hide Inv, Next, OpenPull;
    if PullsRead(Next(y, p), t) {
      var x := Next(y, p).tasks[t].stream;
      PullBegins(y, p, t);
      NextRemembers(y, p);
      InvBacked(y);
      NextToken(y, p, x);
      if !(t in y.tasks && Pulls(y.tasks[t]) && y.tasks[t].stream == x) {
        OpenPullCancels(y.state, t, x);
      }
    }
  }

  lemma OldAnswerQuiet(log: seq<Event>, y: System, p: Step, t: Id)
    requires Inv(y) && Told(log, y.state) && HasAnswer(log, t) && Quiet(log, y, t) && !Next(y, p).state.disposed
    ensures IsReadStream(Next(y, p), t) ==> Silent(Next(y, p), t)
    ensures PullsRead(Next(y, p), t) ==> OfControl(t) in Next(y, p).state.tokens
  {
    hide Inv, Next, Told, HasAnswer, IsReadStream, PullsRead, Silent;
    AnsweredCancelled(log, y, t);
    NextRemembers(y, p);
    StreamStaysQuiet(y, p, t);
    PullStaysQuiet(y, p, t);
  }

  // ---- the cancel itself

  lemma CancelReadStream(s: State, t: Id)
    requires Separate(s) && Flagged(s) && ClosedCancelled(s) && CancelTarget(s, t).1.Some?
    requires t in s.objects && s.objects[t].mutation.None?
    ensures s.objects[t].Token() in CancelTarget(s, t).0.tokens
  {
    hide CancelCells, FinishMutation, Clear;
  }

  lemma CancelReadPull(s: State, t: Id)
    requires Separate(s) && CancelTarget(s, t).1.Some? && t in s.pending && s.pending[t].None? && t !in s.owner
    ensures OfControl(t) in CancelTarget(s, t).0.tokens
  {
    hide CancelCells, FinishMutation, Clear;
  }

  lemma StateParts(s: State)
    requires StateInv(s)
    ensures Separate(s) && Flagged(s) && ClosedCancelled(s) && Owned(s)
  {
    hide Separate, Flagged, ClosedCancelled, Owned;
  }

  lemma PullRegistered(y: System, t: Id)
    requires Inv(y) && PullsRead(y, t) && !y.state.disposed
    ensures t !in y.state.owner && t in y.state.pending && y.state.pending[t].None?
  {
    hide StateInv, Single, SinglePull;
    assert TaskOk(y.state, t, y.tasks[t]);
  }

  lemma CancelQuiet(y: System, id: Id, t: Id)
    requires Inv(y) && IsAccepted(y, id) && y.tasks[id].command.Cancel? && y.tasks[id].command.target == t
    requires y.state.Bound(y.tasks[id].command.connection) && CancelTarget(y.state, t).1.Some?
    ensures IsReadStream(Next(y, DoCancel(id)), t) ==> Silent(Next(y, DoCancel(id)), t)
    ensures PullsRead(Next(y, DoCancel(id)), t) ==> OfControl(t) in Next(y, DoCancel(id)).state.tokens
  {
    var s, z := y.state, Next(y, DoCancel(id));
    hide Inv, StateInv, CancelTarget, Separate, Flagged, ClosedCancelled, Owned;
    InvState(y);
    StateParts(s);
    BoundLive(y, y.tasks[id].command.connection);
    CancelKeepsObjects(s, t);
    if IsReadStream(z, t) {
      CancelReadStream(s, t);
    }
    if PullsRead(z, t) {
      PullRegistered(y, t);
      CancelReadPull(s, t);
    }
  }

  lemma CancelKeepsObjects(s: State, t: Id)
    ensures CancelTarget(s, t).0.objects == s.objects
  {
    hide Clear, FinishMutation, CancelPlain;
    if |s.cancelled| >= MAX_CONTROLS && t !in s.cancelled {
      ClearCalm(s);
    } else if t in s.aliases {
      FinishCalm(s, s.aliases[t]);
    } else {
      PlainObjects(Mark(s, t), t);
    }
  }

  lemma PlainObjects(s: State, t: Id)
    ensures CancelPlain(s, t).objects == s.objects
  {
    hide CancelCells;
    if t in s.pending {
      assert CancelAll(s, {HandleOf(s.pending[t], t)}).objects == s.objects;
    }
  }

  lemma NextQuiet(log: seq<Event>, y: System, p: Step, t: Id)
    requires Inv(y) && Told(log, y.state) && Quiet(log, y, t)
    ensures Quiet(log + Emits(y, p), Next(y, p), t)
  {
    hide Inv, Told, Next, Silent, IsReadStream, PullsRead, CancelTarget, Delivered;
    if HasAnswer(log + Emits(y, p), t) && !Next(y, p).state.disposed {
      if HasAnswer(log, t) {
        OldAnswerQuiet(log, y, p, t);
      } else {
        var e :| e in log + Emits(y, p) && e.Answered? && e.target == t;
        assert e in Emits(y, p);
        CancelQuiet(y, p.id, t);
      }
    }
  }

  lemma {:induction false} RunQuiet(log: seq<Event>, y: System, steps: seq<Step>, t: Id)
    requires Inv(y) && Told(log, y.state) && Quiet(log, y, t)
    ensures Quiet(log + Log(y, steps), Run(y, steps), t)
    decreases |steps|
  {
    hide Inv, Told, Quiet, Next, Emits;
    if steps == [] {
      assert log + [] == log;
    } else {
      NextKeeps(y, steps[0]);
      NextTold(log, y, steps[0]);
      NextQuiet(log, y, steps[0], t);
      RunQuiet(log + Emits(y, steps[0]), Next(y, steps[0]), steps[1..], t);
      assert log + Emits(y, steps[0]) + Log(Next(y, steps[0]), steps[1..]) == log + Log(y, steps);
    }
  }

  lemma ReachableQuiet(steps: seq<Step>, t: Id)
    ensures Quiet(Log(START, steps), Run(START, steps), t)
  {
    hide Inv, Told, Run, Log;
    assert Quiet([], START, t);
    hide Quiet;
    Reachable([]);
    RunNothing(START);
    InitialTold();
    RunQuiet([], START, steps, t);
    assert [] + Log(START, steps) == Log(START, steps);
  }

  /** What an answered cancel of `t` silences: the stream `t`, and every stream of the mutation of `t`. */
  ghost predicate Concerns(y: System, t: Id, x: Id) {
    && x in y.state.objects
    && (t == x || (t in y.state.owner && y.state.objects[x].mutation == Some(y.state.owner[t])))
  }

  lemma OwnedToken(s: State, t: Id)
    requires Owned(s) && t in s.owner && t in s.cancelled
    ensures OfMutation(s.owner[t]) in s.tokens
  {
  }

  lemma ConcernedSilent(log: seq<Event>, y: System, t: Id, x: Id)
    requires Inv(y) && Told(log, y.state) && Quiet(log, y, t) && HasAnswer(log, t) && Concerns(y, t, x)
    requires !y.state.disposed
    ensures Silent(y, x)
  {
    hide Inv, StateInv, Told, HasAnswer, Separate, Flagged, ClosedCancelled, Owned;
    InvState(y);
    StateParts(y.state);
    AnsweredCancelled(log, y, t);
    StreamOfOwner(y.state, x);
    if t in y.state.owner {
      OwnedToken(y.state, t);
    }
  }

  lemma StreamOfOwner(s: State, x: Id)
    requires Flagged(s) && x in s.objects
    ensures s.objects[x].mutation == OwnerOf(s, x)
  {
  }

  /** A stream that was cancelled, by its own id or by any id of its mutation, delivers nothing more. */
  lemma CancelledDeliversNothing(steps: seq<Step>, more: seq<Step>, t: Id, o: Option<Generation>, b: bool, x: Id)
    requires Answered(t, o, b) in Log(START, steps) && Concerns(Run(START, steps), t, x)
    ensures NoChunk(Log(Run(START, steps), more), x)
  {
    hide Run, Log, Inv, Told, Quiet, Silent, NoChunk;
    var y := Run(START, steps);
    Reachable(steps);
    ReachableTold(steps);
    ReachableQuiet(steps, t);
    assert HasAnswer(Log(START, steps), t);
    if y.state.disposed {
      DisposedDeliversNothing(steps, more, x);
    } else {
      ConcernedSilent(Log(START, steps), y, t, x);
      SilentDeliversNothing(y, more, x);
    }
  }

  // ---- a pull whose own control was cancelled

  lemma PulledCancelled(log: seq<Event>, y: System, t: Id)
    requires Inv(y) && Told(log, y.state) && Quiet(log, y, t) && HasAnswer(log, t) && !y.state.disposed
    requires t in y.tasks && y.tasks[t].Pulled? && y.tasks[t].stream in y.state.objects
    ensures PullCancelled(y.state, t, y.state.objects[y.tasks[t].stream])
  {
    AnsweredCancelled(log, y, t);
    hide StateInv, Told, HasAnswer, Single, SinglePull, Silent, IsReadStream;
    assert TaskOk(y.state, t, y.tasks[t]);
    StateParts(y.state);
    if t in y.state.owner {
      hide Owned, Separate, Flagged, ClosedCancelled;
      OwnedToken(y.state, t);
    }
  }

  /** Once the cancel of a control is answered, no pull under it answers a chunk. */
  lemma CancelledPullAnswersNothing(steps: seq<Step>, more: seq<Step>, t: Id, o: Option<Generation>, b: bool)
    requires Answered(t, o, b) in Log(START, steps)
    ensures Emits(Run(START, steps + more), EndPull(t)) == []
  {
    LogContinues(START, steps, more);
    hide Run, Log, Inv, Told, Quiet;
    var y, log := Run(START, steps + more), Log(START, steps + more);
    Reachable(steps + more);
    ReachableTold(steps + more);
    ReachableQuiet(steps + more, t);
    assert Answered(t, o, b) in log;
    assert HasAnswer(log, t);
    if t in y.tasks && y.tasks[t].Pulled? && y.tasks[t].stream in y.state.objects {
      if y.state.disposed {
        InvState(y);
        UnboundAfter(y.state);
      } else {
        PulledCancelled(log, y, t);
      }
    }
  }
}
