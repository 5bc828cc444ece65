/** The host's promises over every interleaving of its commands, expiries and disposal. */
module HostTheorems {
  import opened Basics
  import opened HostState
  import opened HostSteps
  import opened HostInvariant
  import opened HostRuns
  import opened HostCalm
  import opened HostGentle
  import opened HostLog

  // ---- runs and their continuations

  lemma {:induction false} LogContinues(y: System, steps: seq<Step>, more: seq<Step>)
    ensures Run(y, steps + more) == Run(Run(y, steps), more)
    ensures Log(y, steps + more) == Log(y, steps) + Log(Run(y, steps), more)
    decreases |steps|
  {
    hide Next, Emits;
    if steps == [] {
      assert steps + more == more;
    } else {
      assert (steps + more)[1..] == steps[1..] + more;
      LogContinues(Next(y, steps[0]), steps[1..], more);
    }
  }

  lemma ReachableTold(steps: seq<Step>)
    ensures Told(Log(START, steps), Run(START, steps).state)
  {
    hide Inv, Told;
    InitialTold();
    Reachable([]);
    RunTold([], START, steps);
    assert [] + Log(START, steps) == Log(START, steps);
  }

  lemma InitialTold()
    ensures Told([], INITIAL)
  {
  }

  // ---- cancellation

  /**
   Whatever id of a mutation is cancelled, and whenever, the answer is the truth about the
   whole run: `dispatched` is answered if and only if the mutation is ever dispatched.
   */
  lemma CancelTellsTheTruth(steps: seq<Step>, target: Id, g: Generation, dispatched: bool)
    requires Answered(target, Some(g), dispatched) in Log(START, steps)
    ensures dispatched <==> Sent(g) in Log(START, steps)
  {
    hide Log, Run;
    ReachableTold(steps);
  }

  /** A false answer excludes dispatch in every continuation. */
  lemma FalseExcludesDispatch(steps: seq<Step>, more: seq<Step>, target: Id, g: Generation)
    requires Answered(target, Some(g), false) in Log(START, steps)
    ensures Sent(g) !in Log(START, steps + more)
  {
    LogContinues(START, steps, more);
    hide Log, Run;
    CancelTellsTheTruth(steps + more, target, g, false);
  }

  /** All ids of one mutation, live or retired, give one answer until the host is disposed. */
  lemma AllIdsAgree(steps: seq<Step>, t: Id, u: Id, g: Generation, b: bool, c: bool)
    requires Answered(t, Some(g), b) in Log(START, steps) && Answered(u, Some(g), c) in Log(START, steps)
    ensures b == c
  {
    hide Log, Run;
    CancelTellsTheTruth(steps, t, g, b);
    CancelTellsTheTruth(steps, u, g, c);
  }

  lemma DispatchedOnce(steps: seq<Step>, g: Generation, i: nat, j: nat)
    requires i < j < |Log(START, steps)| && Log(START, steps)[i] == Sent(g)
    ensures Log(START, steps)[j] != Sent(g)
  {
    hide Log, Run;
    ReachableTold(steps);
  }

  lemma BeginMonotone(y: System, id: Id, h: Handle)
    requires !y.state.CellOf(h).Idle?
    ensures Next(y, Begin(id)).state.CellOf(h) == y.state.CellOf(h)
  {
  }

  /** A cell that has left idle never changes again. */
  lemma {:induction false} SettledForever(y: System, steps: seq<Step>, h: Handle)
    requires Inv(y) && !y.state.CellOf(h).Idle?
    ensures Run(y, steps).state.CellOf(h) == y.state.CellOf(h)
    decreases |steps|
  {
    hide Next, Inv, Remembers, Steady, Balanced;
    if steps != [] {
      NextKeeps(y, steps[0]);
      if steps[0].Begin? {
        BeginMonotone(y, steps[0].id, h);
      } else if steps[0].ReadChunk? {
        ReadChunkGentle(y, steps[0].id, steps[0].live, steps[0].chunk);
      } else {
        NextGentle(y, steps[0]);
      }
      SettledForever(Next(y, steps[0]), steps[1..], h);
    }
  }

  lemma MarkedSettled(s: State, t: Id)
    requires Owned(s) && Emptied(s) && t in s.owner && (s.disposed || t in s.cancelled)
    ensures !s.CellOf(OfMutation(s.owner[t])).Idle?
  {
  }

  lemma InvMarked(y: System, t: Id)
    requires Inv(y) && t in y.state.owner && (y.state.disposed || t in y.state.cancelled)
    ensures !y.state.CellOf(OfMutation(y.state.owner[t])).Idle?
  {
    hide Belongs, Separate, Owned, Tokens, Recorded, Flagged, ClosedCancelled, Emptied, TasksOk, Single, SinglePull;
    MarkedSettled(y.state, t);
  }

  /**
   An id that was cancelled, even before it joined a mutation, stops the mutation it joins:
   whatever was not dispatched when both had happened is never dispatched.
   */
  lemma CancelledIdStopsItsMutation(steps: seq<Step>, more: seq<Step>, t: Id, o: Option<Generation>, b: bool)
    requires Answered(t, o, b) in Log(START, steps) && t in Run(START, steps).state.owner
    ensures var g := Run(START, steps).state.owner[t];
      Sent(g) in Log(START, steps + more) ==> Sent(g) in Log(START, steps)
  {
    var y := Run(START, steps);
    var g := y.state.owner[t];
    LogContinues(START, steps, more);
    hide Log, Run, Inv;
    ReachableTold(steps);
    ReachableTold(steps + more);
    Reachable(steps);
    InvMarked(y, t);
    SettledForever(y, more, OfMutation(g));
  }

  // ---- generation isolation

  /** Everything that belongs to a mutation belongs to the current one, and to none if there is none. */
  lemma EverythingBelongsToWork(steps: seq<Step>)
    ensures Belongs(Run(START, steps).state)
  {
    hide Inv, Run, Belongs, StateInv;
    Reachable(steps);
    InvState(Run(START, steps));
    StateBelongs(Run(START, steps).state);
  }

  /** Nothing but the caller's own control and the cell of its own mutation is touched. */
  ghost predicate OthersUntouched(s: State, t: State, id: Id, g: Generation) {
    && t.work == s.work && t.aliases == s.aliases && t.authorizations == s.authorizations
    && t.streams == s.streams && t.history == s.history && t.objects == s.objects
    && t.readSlots == s.readSlots && t.connection == s.connection
    && (forall h | h != g :: t.reserved[h] == s.reserved[h])
    && t.pending == s.pending - {id}
    && (forall h | h != OfMutation(g) :: t.CellOf(h) == s.CellOf(h) && (h in t.tokens <==> h in s.tokens))
  }

  lemma WithoutNone(m: map<Id, Generation>, g: Generation)
    requires forall id | id in m :: m[id] != g
    ensures Without(m, g) == m
  {
  }

  lemma LateMaps(s: State, g: Generation, d: bool)
    requires Belongs(s) && s.work != Some(g)
    ensures Retire(s, g, d).aliases == s.aliases && Retire(s, g, d).authorizations == s.authorizations
    ensures Retire(s, g, d).history == s.history
  {
    WithoutNone(s.aliases, g);
    WithoutNone(s.authorizations, g);
  }

  lemma LateKept(s: State, g: Generation, d: bool)
    requires Belongs(s) && s.work != Some(g)
    ensures Retire(s, g, d).pending == s.pending && Retire(s, g, d).streams == s.streams
  {
  }

  lemma LateRetire(s: State, g: Generation, d: bool)
    requires Belongs(s) && s.work != Some(g)
    ensures Retire(s, g, d).work == s.work && Retire(s, g, d).aliases == s.aliases
    ensures Retire(s, g, d).authorizations == s.authorizations && Retire(s, g, d).history == s.history
    ensures Retire(s, g, d).pending == s.pending && Retire(s, g, d).streams == s.streams
  {
    LateMaps(s, g, d);
    LateKept(s, g, d);
    hide Belongs;
  }

  lemma LateFinish(s: State, id: Id, g: Generation)
    requires Belongs(s) && s.work != Some(g)
    ensures OthersUntouched(s, FinishMutation(s.(pending := s.pending - {id}), g).0, id, g)
  {
    var p := s.(pending := s.pending - {id});
    var c := CancelAll(p, {OfMutation(g)});
    FinishIsRetire(p, g);
    UnpendBelongs(s, id);
    CancelBelongs(p, {OfMutation(g)});
    LateRetire(c, g, c.CellOf(OfMutation(g)).Dispatched?);
    hide Belongs, FinishMutation;
  }

  lemma UnpendBelongs(s: State, id: Id)
    requires Belongs(s)
    ensures Belongs(s.(pending := s.pending - {id}))
  {
  }

  lemma CancelBelongs(s: State, hs: set<Handle>)
    requires Belongs(s)
    ensures Belongs(CancelAll(s, hs))
  {
  }

  /** An authorize that completes after its mutation ended changes nothing of a newer one. */
  lemma LateAuthorize(y: System, id: Id, ok: bool, tries: seq<Option<Id>>, clock: bool)
    requires Inv(y) && id in y.tasks && y.tasks[id].Authorizing? && y.state.work != Some(y.tasks[id].generation)
    ensures OthersUntouched(y.state, Next(y, EndAuthorize(id, ok, tries, clock)).state, id, y.tasks[id].generation)
  {
    hide Inv, StateInv, FinishMutation, Grant, OthersUntouched, Belongs;
    InvState(y);
    StateBelongs(y.state);
    LateFinish(y.state, id, y.tasks[id].generation);
  }

  /** So does a late execute. */
  lemma LateExecute(y: System, id: Id, ok: bool, tries: seq<Option<Id>>)
    requires Inv(y) && id in y.tasks && y.tasks[id].Executing? && y.state.work != Some(y.tasks[id].generation)
    ensures OthersUntouched(y.state, Next(y, EndExecute(id, ok, tries)).state, id, y.tasks[id].generation)
  {
    hide Inv, StateInv, FinishMutation, Respond, OthersUntouched, Belongs;
    InvState(y);
    StateBelongs(y.state);
    LateFinish(y.state, id, y.tasks[id].generation);
  }

  /** A late pull of a finished mutation only puts its own flag down. */
  lemma LatePull(y: System, id: Id)
    requires Inv(y) && id in y.tasks && y.tasks[id].Pulled? && y.tasks[id].stream in y.state.objects
    requires y.state.objects[y.tasks[id].stream].mutation.Some?
    requires y.state.work != y.state.objects[y.tasks[id].stream].mutation
    ensures Next(y, EndPull(id)).state == LetGo(y.state, id, y.tasks[id].stream)
  {
    hide Inv, StateInv, LetGo, Delivered, FinishMutation;
    InvState(y);
    StateBelongs(y.state);
    assert y.tasks[id].stream !in LetGo(y.state, id, y.tasks[id].stream).streams by {
      LetGoStreams(y.state, id, y.tasks[id].stream);
    }
  }

  lemma LetGoStreams(s: State, id: Id, stream: Id)
    requires stream in s.objects
    ensures LetGo(s, id, stream).streams == s.streams
  {
  }

  // ---- accounting

  /**
   Live aliases, retired aliases and reservations share one budget; live and retired ids never
   meet; controls and generated handles never meet; and no assertion in `alias` fails.
   */
  lemma AliasAccounting(steps: seq<Step>)
    ensures var s := Run(START, steps).state;
      && |s.aliases| + |s.history| + |s.reserved| <= MAX_ALIASES
      && s.aliases.Keys !! s.history.Keys
      && s.seen !! s.generated
      && !s.panicked
  {
    hide Run, Belongs, Owned, Tokens, Recorded, Flagged, ClosedCancelled, Emptied, TasksOk, Single, SinglePull;
    Reachable(steps);
  }
}
