/** What the host sends and answers, and the truth of every cancellation answer. */
module HostLog {
  import opened Basics
  import opened HostState
  import opened HostSteps
  import opened HostInvariant
  import opened HostRuns
  import opened HostCalm
  import opened HostGentle

  datatype Event =
    | Sent(generation: Generation)
    | Answered(target: Id, owner: Option<Generation>, dispatched: bool)
    | Chunk(stream: Id, seqNo: nat, ack: int, last: bool)

  /** What becomes visible outside the host in one step: dispatches, cancel answers and chunks. */
  function Emits(y: System, p: Step): seq<Event> {
    var s := y.state;
    match p
    case Begin(id) =>
      if id in y.tasks && y.tasks[id].Executing? && y.tasks[id].begun.None?
         && s.CellOf(OfMutation(y.tasks[id].generation)).Idle?
      then [Sent(y.tasks[id].generation)] else []
    case DoCancel(id) =>
      if IsAccepted(y, id) && y.tasks[id].command.Cancel? && s.Bound(y.tasks[id].command.connection) then
        var target := y.tasks[id].command.target;
        var answer := CancelTarget(s, target).1;
        if answer.Some? then [Answered(target, OwnerOf(s, target), answer.value)] else []
      else []
    case EndPull(id) =>
      if id in y.tasks && y.tasks[id].Pulled? && y.tasks[id].stream in s.objects then
        var k := y.tasks[id];
        var outcome := Delivered(s, id, k);
        if outcome.Got? then [Chunk(k.stream, outcome.seqNo, k.ack, outcome.last)] else []
      else []
    case _ => []
  }

  function Log(y: System, steps: seq<Step>): seq<Event>
    decreases |steps|
  {
    if steps == [] then [] else Emits(y, steps[0]) + Log(Next(y, steps[0]), steps[1..])
  }

  // ---- the log agrees with the cells

  /** Dispatches are logged once, and every answer given for a mutation's id is the truth about its cell. */
  ghost predicate Told(log: seq<Event>, s: State) {
    && (forall g: Generation :: Sent(g) in log <==> s.CellOf(OfMutation(g)).Dispatched?)
    && (forall t, g, b {:trigger Answered(t, Some(g), b)} :: Answered(t, Some(g), b) in log ==>
          var c := s.CellOf(OfMutation(g)); !c.Idle? && b == c.Dispatched?)
    && (forall t, b :: Answered(t, None, b) in log ==> !b)
    && (forall t, o, b :: Answered(t, o, b) in log ==> s.disposed || t in s.cancelled)
    && (forall i, j | 0 <= i < j < |log| && log[i].Sent? :: log[i] != log[j])
  }

  lemma ToldSettles(log: seq<Event>, s: State, t: State)
    requires Told(log, s) && Settles(s, t) && Remembers(s, t)
    ensures Told(log, t)
  {
  }

  lemma ToldChunk(log: seq<Event>, s: State, e: Event)
    requires Told(log, s) && e.Chunk?
    ensures Told(log + [e], s)
  {
  }

  lemma ToldAnswer(log: seq<Event>, s: State, target: Id, owner: Option<Generation>, b: bool)
    requires Told(log, s) && (s.disposed || target in s.cancelled)
    requires owner.None? ==> !b
    requires owner.Some? ==> var c := s.CellOf(OfMutation(owner.value)); !c.Idle? && b == c.Dispatched?
    ensures Told(log + [Answered(target, owner, b)], s)
  {
  }

  lemma ToldSent(log: seq<Event>, s: State, g: Generation)
    requires Told(log, s) && s.CellOf(OfMutation(g)).Idle?
    ensures Told(log + [Sent(g)], s.(cells := s.cells[OfMutation(g) := Dispatched]))
  {
    var t := s.(cells := s.cells[OfMutation(g) := Dispatched]);
    assert t.CellOf(OfMutation(g)).Dispatched?;
    assert Sent(g) !in log;
  }

  // ---- what a cancel answers

  lemma AnswerAlias(s: State, target: Id)
    requires Separate(s) && target in s.aliases
    ensures var t := Mark(FinishMutation(s, s.aliases[target]).0, target);
      && target in s.owner && target in t.cancelled
      && !t.CellOf(OfMutation(s.owner[target])).Idle?
      && FinishMutation(s, s.aliases[target]).1 == t.CellOf(OfMutation(s.owner[target])).Dispatched?
  {
    CancelledCell(s, {OfMutation(s.aliases[target])}, OfMutation(s.aliases[target]));
  }

  lemma PlainShape(s: State, target: Id)
    ensures CancelPlain(s, target).cancelled == s.cancelled
  {
    hide CancelCells;
    if target in s.pending {
      assert CancelAll(s, {HandleOf(s.pending[target], target)}).cancelled == s.cancelled;
    }
  }

  lemma AnswerPlain(s: State, target: Id)
    requires Belongs(s) && Separate(s) && Recorded(s) && Flagged(s) && !s.disposed && target !in s.aliases
    ensures var b := (target in s.history && s.history[target])
              || (target in s.pending && s.CellOf(HandleOf(s.pending[target], target)).Dispatched?)
              || (target in s.streams && target in s.objects && s.objects[target].dispatched);
      && (target !in s.owner ==> !b)
      && (target in s.owner ==>
            var c := s.CellOf(OfMutation(s.owner[target])); !c.Idle? && b == c.Dispatched?)
  {
  }

  lemma AnswerTold(log: seq<Event>, y: System, target: Id)
    requires Inv(y) && !y.state.disposed && Told(log, CancelTarget(y.state, target).0)
    requires CancelTarget(y.state, target).1.Some?
    ensures Told(log + [Answered(target, OwnerOf(y.state, target), CancelTarget(y.state, target).1.value)],
                 CancelTarget(y.state, target).0)
  {
    var s := y.state;
    var (t, b) := CancelTarget(s, target);
    hide Inv, StateInv, Told, FinishMutation, CancelPlain, Belongs, Separate, Recorded, Flagged;
    InvState(y);
    StateBelongs(s);
    StateSeparate(s);
    StateRecorded(s);
    if target in s.aliases {
      AnswerAlias(s, target);
    } else {
      AnswerPlain(s, target);
      PlainShape(Mark(s, target), target);
      PlainStream(s, target);
      CancelPlainGentle(Mark(s, target), target);
    }
    ToldAnswer(log, t, target, OwnerOf(s, target), b.value);
  }

  lemma StateRecorded(s: State)
    requires StateInv(s)
    ensures Recorded(s) && Flagged(s)
  {
    hide Recorded, Flagged;
  }

  lemma NextTold(log: seq<Event>, y: System, p: Step)
    requires Inv(y) && Told(log, y.state)
    ensures Told(log + Emits(y, p), Next(y, p).state)
  {
    hide Inv, Told, Settles, Remembers, Steady, Balanced, CancelTarget, EndingPull, Delivered;
    assert log + [] == log;
    if p.Begin? {
      if Emits(y, p) != [] {
        ToldSent(log, y.state, y.tasks[p.id].generation);
      }
    } else {
      if p.ReadChunk? { ReadChunkGentle(y, p.id, p.live, p.chunk); } else { NextGentle(y, p); }
      ToldSettles(log, y.state, Next(y, p).state);
      if p.DoCancel? && Emits(y, p) != [] {
        BoundLive(y, y.tasks[p.id].command.connection);
        AnswerTold(log, y, y.tasks[p.id].command.target);
      } else if p.EndPull? && Emits(y, p) != [] {
        ToldChunk(log, Next(y, p).state, Emits(y, p)[0]);
      }
    }
  }

  lemma {:induction false} RunTold(log: seq<Event>, y: System, steps: seq<Step>)
    requires Inv(y) && Told(log, y.state)
    ensures Told(log + Log(y, steps), Run(y, steps).state)
    decreases |steps|
  {
    hide Inv, Told, Next, Emits;
    if steps == [] {
      assert log + [] == log;
    } else {
      NextKeeps(y, steps[0]);
      NextTold(log, y, steps[0]);
      RunTold(log + Emits(y, steps[0]), Next(y, steps[0]), steps[1..]);
      assert log + Emits(y, steps[0]) + Log(Next(y, steps[0]), steps[1..]) == log + Log(y, steps);
    }
  }
}
