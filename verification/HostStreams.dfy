/** The chunks a stream delivers, and the slots that reads hold. */
module HostStreams {
  import opened Basics
  import opened HostState
  import opened HostSteps
  import opened HostRuns
  import opened HostCalm
  import opened HostGentle
  import opened HostLog

  // ---- deliveries

  function Deliveries(log: seq<Event>, x: Id): seq<Event>
    decreases |log|
  {
    if log == [] then []
    else Deliveries(log[..|log| - 1], x)
         + (var e := log[|log| - 1]; if e.Chunk? && e.stream == x then [e] else [])
  }

  /** Numbered from zero, each chunk acknowledging the one before it, and nothing after the last. */
  ghost predicate Numbered(d: seq<Event>) {
    forall k | 0 <= k < |d| ::
      d[k].Chunk? && d[k].seqNo == k && d[k].ack == k - 1 && (d[k].last ==> k == |d| - 1)
  }

  /** A pull that has read a chunk and not answered yet. */
  predicate InHand(k: Task, x: Id) {
    k.Pulled? && k.stream == x && k.outcome.Got?
  }

  predicate HasInHand(y: System, i: Id, x: Id) {
    i in y.tasks && InHand(y.tasks[i], x)
  }

  /** The reader of an open stream stands where `n` deliveries, and the chunk in hand, have left it. */
  ghost predicate ReaderAt(y: System, x: Id, n: nat)
    requires x in y.state.objects
  {
    var o := y.state.objects[x];
    && (forall i | HasInHand(y, i, x) ::
          && o.nextSeq == n + 1 && o.previousAck == n
          && y.tasks[i].ack == n - 1 && y.tasks[i].outcome == Got(n, o.done))
    && ((forall i :: !HasInHand(y, i, x)) ==> o.nextSeq == n && o.previousAck == n - 1 && !o.done)
  }

  ghost predicate Delivers(y: System, d: seq<Event>, x: Id) {
    && Numbered(d)
    && (x !in y.state.objects ==> d == [])
    && (x in y.state.streams && x in y.state.objects ==>
          ReaderAt(y, x, |d|) && (forall k | 0 <= k < |d| :: !d[k].last))
  }

  ghost predicate SameHands(y: System, z: System, x: Id) {
    forall i :: (HasInHand(z, i, x) <==> HasInHand(y, i, x))
                && (HasInHand(y, i, x) ==> z.tasks[i] == y.tasks[i])
  }

  /** Streams have objects, and so do the streams that are being pulled. */
  ghost predicate Backed(y: System) {
    && (forall x | x in y.state.streams :: x in y.state.objects)
    && (forall i | i in y.tasks && Pulls(y.tasks[i]) :: y.tasks[i].stream in y.state.objects)
  }

  lemma InvBacked(y: System)
    requires Inv(y)
    ensures Backed(y)
  {
    hide Single, SinglePull;
    assert forall i | i in y.tasks && Pulls(y.tasks[i]) :: TaskOk(y.state, i, y.tasks[i]);
  }

  lemma DeliversFrame(y: System, z: System, d: seq<Event>, x: Id)
    requires Delivers(y, d, x) && Backed(y) && Steady(y.state, z.state) && SameHands(y, z, x)
    ensures Delivers(z, d, x)
  {
    if x in z.state.streams && x in z.state.objects {
      if x !in y.state.objects {
        assert forall i :: !HasInHand(y, i, x);
      }
    }
  }

  lemma FreshTask(y: System, id: Id)
    requires Inv(y) && !y.state.disposed && id !in y.state.seen
    ensures id !in y.tasks
  {
    hide StateInv, Single, SinglePull;
    assert id in y.tasks ==> TaskOk(y.state, id, y.tasks[id]);
  }

  /** No step but the reading and the answering of a chunk changes what is in hand. */
  lemma NextHands(y: System, p: Step, x: Id)
    requires Inv(y) && !p.ReadChunk? && !p.EndPull?
    ensures SameHands(y, Next(y, p), x)
  {
    hide Inv, UniqueHandle, OpenRead, OpenPull, Consume, StartMutation, ExpireAuthorizations, MayRead, Connecting;
    hide FinishStream, FinishAuthorize, CancelTarget, Clear, FinishMutation, CloseStream, GrantingRead;
    if p.Accept? && !y.state.disposed && p.id !in y.state.seen {
      FreshTask(y, p.id);
    }
  }

  lemma NextSteady(y: System, p: Step)
    requires Inv(y) && !p.ReadChunk?
    ensures Steady(y.state, Next(y, p).state)
  {
    hide Inv, Settles, Remembers, Balanced, Steady, Next;
    if p.Begin? { BeginGentle(y, p.id); } else { NextGentle(y, p); }
  }

  lemma AlonePull(y: System, id: Id, i: Id, x: Id)
    requires Inv(y) && id in y.tasks && Pulls(y.tasks[id]) && y.tasks[id].stream == x
    requires HasInHand(y, i, x)
    ensures i == id
  {
    hide StateInv, TasksOk, Single;
  }

  lemma PullAlone(y: System, id: Id)
    requires Inv(y) && id in y.tasks && y.tasks[id].Pulling?
    ensures forall i :: !HasInHand(y, i, y.tasks[id].stream)
  {
    hide Inv;
    forall i ensures !HasInHand(y, i, y.tasks[id].stream) {
      if HasInHand(y, i, y.tasks[id].stream) {
        AlonePull(y, id, i, y.tasks[id].stream);
      }
    }
  }

  /** What the reading of a chunk changes: the reader of one stream, and the pull itself. */
  ghost predicate ChunkRead(y: System, z: System, id: Id)
    requires id in y.tasks && y.tasks[id].Pulling? && y.tasks[id].stream in y.state.objects
  {
    var k := y.tasks[id];
    var o := y.state.objects[k.stream];
    && z.state.streams == y.state.streams && z.state.objects.Keys == y.state.objects.Keys
    && (forall w | w in y.state.objects && w != k.stream :: z.state.objects[w] == y.state.objects[w])
    && (forall i | i != id :: (i in z.tasks <==> i in y.tasks) && (i in y.tasks ==> z.tasks[i] == y.tasks[i]))
    && id in z.tasks && z.tasks[id].Pulled? && z.tasks[id].stream == k.stream && z.tasks[id].ack == k.ack
    && var n := z.state.objects[k.stream];
       if z.tasks[id].outcome.Got? then
         && !o.done && k.ack == o.previousAck && z.tasks[id].outcome == Got(o.nextSeq, n.done)
         && n.nextSeq == o.nextSeq + 1 && n.previousAck == o.nextSeq
       else n == o
  }

  lemma ReadChunkReads(y: System, id: Id, live: bool, chunk: Option<bool>)
    requires id in y.tasks && y.tasks[id].Pulling? && y.tasks[id].stream in y.state.objects
    ensures ChunkRead(y, Next(y, ReadChunk(id, live, chunk)), id)
  {
    hide PullCancelled;
  }

  lemma ReadElsewhere(y: System, z: System, id: Id, d: seq<Event>, x: Id)
    requires Delivers(y, d, x) && id in y.tasks && y.tasks[id].Pulling? && y.tasks[id].stream in y.state.objects
    requires ChunkRead(y, z, id) && x != y.tasks[id].stream
    ensures Delivers(z, d, x)
  {
    hide Numbered;
    assert forall i :: HasInHand(z, i, x) <==> HasInHand(y, i, x);
  }

  lemma ReadHere(y: System, z: System, id: Id, d: seq<Event>)
    requires id in y.tasks && y.tasks[id].Pulling? && y.tasks[id].stream in y.state.objects
    requires Delivers(y, d, y.tasks[id].stream) && (forall i :: !HasInHand(y, i, y.tasks[id].stream))
    requires ChunkRead(y, z, id)
    ensures Delivers(z, d, y.tasks[id].stream)
  {
    hide Numbered;
    var x := y.tasks[id].stream;
    forall i | i != id ensures !HasInHand(z, i, x) {
      assert !HasInHand(y, i, x);
    }
    assert HasInHand(z, id, x) <==> z.tasks[id].outcome.Got?;
  }

  /** The chunk that a pull reads is the next one of its stream. */
  lemma ReadChunkDelivers(y: System, id: Id, live: bool, chunk: Option<bool>, d: seq<Event>, x: Id)
    requires Inv(y) && Delivers(y, d, x) && Backed(y)
    ensures Delivers(Next(y, ReadChunk(id, live, chunk)), d, x)
  {
    hide Inv, Delivers, ChunkRead, Next;
    if id in y.tasks && y.tasks[id].Pulling? && y.tasks[id].stream in y.state.objects {
      var z := Next(y, ReadChunk(id, live, chunk));
      ReadChunkReads(y, id, live, chunk);
      if x == y.tasks[id].stream {
        PullAlone(y, id);
        ReadHere(y, z, id, d);
      } else {
        ReadElsewhere(y, z, id, d, x);
      }
    } else {
      ReadNothing(y, id, live, chunk);
    }
  }

  lemma ReadNothing(y: System, id: Id, live: bool, chunk: Option<bool>)
    requires !(id in y.tasks && y.tasks[id].Pulling? && y.tasks[id].stream in y.state.objects)
    ensures Next(y, ReadChunk(id, live, chunk)) == y
  {
  }

  lemma OpenUntilCancelled(y: System, id: Id)
    requires Inv(y) && id in y.tasks && y.tasks[id].Pulled? && y.tasks[id].stream in y.state.objects
    requires Delivered(y.state, id, y.tasks[id]).Got?
    ensures y.tasks[id].stream in y.state.streams && HasInHand(y, id, y.tasks[id].stream)
  {
    hide Belongs, Separate, Owned, Tokens, Recorded, Flagged, TasksOk, Single, SinglePull;
  }

  lemma CloseCloses(s: State, id: Id)
    requires id in s.objects
    ensures id !in CloseStream(s, id).streams
  {
  }

  lemma EndedStream(s: State, id: Id, k: Task)
    requires k.Pulled? && k.stream in s.objects
    ensures var t := EndingPull(s, id, k);
      var outcome := Delivered(s, id, k);
      if outcome.Failed? || outcome.last then k.stream !in t.streams
      else t.objects == s.objects[k.stream := s.objects[k.stream].(pulling := false)]
  {
    hide CloseStream, Delivered;
    CloseCloses(LetGo(s, id, k.stream), k.stream);
  }

  lemma EndPullDrops(y: System, id: Id)
    requires id in y.tasks && y.tasks[id].Pulled? && y.tasks[id].stream in y.state.objects
    ensures Next(y, EndPull(id)).tasks == y.tasks - {id}
  {
    hide EndingPull;
  }

  lemma LastAnswer(y: System, id: Id)
    requires Inv(y) && id in y.tasks && y.tasks[id].Pulled? && y.tasks[id].stream in y.state.objects
    ensures forall i :: !HasInHand(Next(y, EndPull(id)), i, y.tasks[id].stream)
  {
    var x := y.tasks[id].stream;
    hide Inv, Next;
    EndPullDrops(y, id);
    forall i ensures !HasInHand(Next(y, EndPull(id)), i, x) {
      if i != id && HasInHand(y, i, x) { AlonePull(y, id, i, x); }
    }
  }

  /** A chunk that is answered is the next one, and the reader of the stream moves past it. */
  lemma AnswerDelivers(y: System, z: System, d: seq<Event>, x: Id, id: Id)
    requires Delivers(y, d, x) && x in y.state.streams && x in y.state.objects && HasInHand(y, id, x)
    requires forall i :: !HasInHand(z, i, x)
    requires x in z.state.objects && SameReader(y.state.objects[x], z.state.objects[x])
    requires y.tasks[id].outcome.last ==> x !in z.state.streams
    ensures Delivers(z, d + [Chunk(x, y.tasks[id].outcome.seqNo, y.tasks[id].ack, y.tasks[id].outcome.last)], x)
  {
  }

  /** The answer of a pull to its own stream. */
  lemma EndPullDelivers(y: System, id: Id, d: seq<Event>)
    requires Inv(y) && id in y.tasks && y.tasks[id].Pulled? && y.tasks[id].stream in y.state.objects
    requires Delivers(y, d, y.tasks[id].stream)
    ensures Delivers(Next(y, EndPull(id)), d + Emits(y, EndPull(id)), y.tasks[id].stream)
  {
    hide Inv, EndingPull, Delivered, Delivers, Steady;
    var k := y.tasks[id];
    var z := Next(y, EndPull(id));
    EndedStream(y.state, id, k);
    assert d + [] == d;
    if Delivered(y.state, id, k).Got? {
      OpenUntilCancelled(y, id);
      DeliveredIsRead(y.state, id, k);
      LastAnswer(y, id);
      NextSteady(y, EndPull(id));
      SteadyReader(y.state, z.state, k.stream);
      AnswerDelivers(y, z, d, k.stream, id);
    } else {
      NextSteady(y, EndPull(id));
      SteadyReader(y.state, z.state, k.stream);
      ClosedDelivers(y, z, d, k.stream);
    }
  }

  lemma SteadyReader(s: State, t: State, x: Id)
    requires Steady(s, t) && x in s.objects
    ensures x in t.objects && SameReader(s.objects[x], t.objects[x])
  {
  }

  /** A closed stream keeps what it has delivered. */
  lemma ClosedDelivers(y: System, z: System, d: seq<Event>, x: Id)
    requires Delivers(y, d, x) && x in y.state.objects && x !in z.state.streams && x in z.state.objects
    ensures Delivers(z, d, x)
  {
  }

  lemma DeliveredIsRead(s: State, id: Id, k: Task)
    requires k.Pulled? && k.stream in s.objects && Delivered(s, id, k).Got?
    ensures Delivered(s, id, k) == k.outcome
  {
  }

  lemma DeliveriesAppend(log: seq<Event>, es: seq<Event>, x: Id)
    requires |es| <= 1
    ensures Deliveries(log + es, x)
         == Deliveries(log, x) + if |es| == 1 && es[0].Chunk? && es[0].stream == x then es else []
  {
    if es == [] {
      assert log + es == log;
    } else {
      assert (log + es)[..|log|] == log;
    }
  }

  /** A step answers at most one chunk, and only to the pull that ends. */
  predicate Answers(y: System, p: Step, x: Id) {
    p.EndPull? && p.id in y.tasks && y.tasks[p.id].Pulled? && y.tasks[p.id].stream == x && x in y.state.objects
  }

  lemma EmitsChunk(y: System, p: Step, x: Id)
    ensures var es := Emits(y, p);
      |es| <= 1 && (|es| == 1 && es[0].Chunk? && es[0].stream == x ==> Answers(y, p, x))
      && (Answers(y, p, x) && |es| == 1 ==> es[0].Chunk? && es[0].stream == x)
  {
    hide Delivered, CancelTarget;
  }

  lemma NextDelivers(y: System, p: Step, log: seq<Event>, x: Id)
    requires Inv(y) && Delivers(y, Deliveries(log, x), x)
    ensures Delivers(Next(y, p), Deliveries(log + Emits(y, p), x), x)
  {
    hide Inv, Delivers, Deliveries, Next, Emits;
    var d := Deliveries(log, x);
    EmitsChunk(y, p, x);
    DeliveriesAppend(log, Emits(y, p), x);
    assert d + [] == d;
    if p.ReadChunk? {
      InvBacked(y);
      ReadChunkDelivers(y, p.id, p.live, p.chunk, d, x);
    } else if Answers(y, p, x) {
      EndPullDelivers(y, p.id, d);
    } else {
      NextElsewhere(y, p, d, x);
    }
  }

  lemma NextElsewhere(y: System, p: Step, d: seq<Event>, x: Id)
    requires Inv(y) && Delivers(y, d, x) && !p.ReadChunk? && !Answers(y, p, x)
    ensures Delivers(Next(y, p), d, x)
  {
    hide Inv, Delivers, Steady, EndingPull;
    NextSteady(y, p);
    InvBacked(y);
    if !p.EndPull? {
      hide Next;
      NextHands(y, p, x);
      DeliversFrame(y, Next(y, p), d, x);
    } else {
      DeliversFrame(y, Next(y, p), d, x);
    }
  }

  lemma {:induction false} RunDelivers(y: System, steps: seq<Step>, log: seq<Event>, x: Id)
    requires Inv(y) && Delivers(y, Deliveries(log, x), x)
    ensures Delivers(Run(y, steps), Deliveries(log + Log(y, steps), x), x)
    decreases |steps|
  {
    hide Inv, Delivers, Deliveries, Next, Emits;
    if steps == [] {
      assert log + [] == log;
    } else {
      NextKeeps(y, steps[0]);
      NextDelivers(y, steps[0], log, x);
      RunDelivers(Next(y, steps[0]), steps[1..], log + Emits(y, steps[0]), x);
      assert log + Emits(y, steps[0]) + Log(Next(y, steps[0]), steps[1..]) == log + Log(y, steps);
    }
  }

  lemma ReachableDelivers(steps: seq<Step>, x: Id)
    ensures Delivers(Run(START, steps), Deliveries(Log(START, steps), x), x)
  {
    assert Delivers(START, Deliveries([], x), x);
    hide Inv, Delivers, Deliveries, Run, Log;
    Reachable([]);
    RunNothing(START);
    RunDelivers(START, steps, [], x);
    assert [] + Log(START, steps) == Log(START, steps);
  }

  lemma RunNothing(y: System)
    ensures Run(y, []) == y && Log(y, []) == []
  {
  }

  /**
   Whatever the interleaving, a stream delivers its chunks in order from zero, each to a pull that
   acknowledged exactly the one before, and nothing follows the final one.
   */
  lemma ChunksInOrder(steps: seq<Step>, x: Id)
    ensures Numbered(Deliveries(Log(START, steps), x))
  {
    hide Run, Log, Deliveries, Numbered;
    ReachableDelivers(steps, x);
  }

  /** At any time one pull at most is active on a stream. */
  lemma OnePullAtATime(steps: seq<Step>, i: Id, j: Id)
    requires var y := Run(START, steps);
      i in y.tasks && j in y.tasks && Pulls(y.tasks[i]) && Pulls(y.tasks[j]) && y.tasks[i].stream == y.tasks[j].stream
    ensures i == j
  {
    hide Run, StateInv, TasksOk, Single;
    Reachable(steps);
  }

  // ---- read slots

  function Readers(y: System): set<Id> {
    set id | id in y.tasks && y.tasks[id].Reading?
  }

  /** The slots in use are the reads in flight and the open read streams, and never more than four. */
  ghost predicate SlotsHeld(y: System) {
    !y.state.disposed ==>
      && y.state.readSlots == |Readers(y)| + |ReadStreams(y.state)|
      && y.state.readSlots <= MAX_READS
  }

  lemma ReadersChange(y: System, z: System, id: Id)
    requires forall i | i != id :: i in z.tasks && z.tasks[i].Reading? <==> i in y.tasks && y.tasks[i].Reading?
    ensures |Readers(z)| == |Readers(y)| + (if id in z.tasks && z.tasks[id].Reading? then 1 else 0)
                            - (if id in y.tasks && y.tasks[id].Reading? then 1 else 0)
  {
    var others := Readers(y) - {id};
    assert Readers(y) == if id in Readers(y) then others + {id} else others;
    assert Readers(z) == if id in Readers(z) then others + {id} else others;
  }

  function TaskOfStep(p: Step): Id {
    match p
    case Disconnect => 0
    case ExpireAuthorization(_, _) => 0
    case ExpireStream(_) => 0
    case _ => p.id
  }

  lemma OneTask(y: System, p: Step, i: Id)
    requires i != TaskOfStep(p)
    ensures i in Next(y, p).tasks <==> i in y.tasks
    ensures i in y.tasks ==> Next(y, p).tasks[i] == y.tasks[i]
  {
    hide UniqueHandle, OpenRead, OpenPull, Consume, StartMutation, ExpireAuthorizations, MayRead, Connecting;
    hide FinishStream, FinishAuthorize, CancelTarget, Clear, FinishMutation, CloseStream, GrantingRead;
    hide EndingPull, NextChunk;
  }

  lemma OwnTask(y: System, p: Step)
    requires Inv(y)
    ensures var id := TaskOfStep(p);
      (if id in Next(y, p).tasks && Next(y, p).tasks[id].Reading? then 1 else 0)
      == (if id in y.tasks && y.tasks[id].Reading? then 1 else 0) + ReadsAdded(y, p)
  {
    hide Inv, UniqueHandle, OpenRead, OpenPull, Consume, StartMutation, ExpireAuthorizations, MayRead, Connecting;
    hide FinishStream, FinishAuthorize, CancelTarget, Clear, FinishMutation, CloseStream, GrantingRead;
    hide EndingPull, NextChunk;
    if p.Accept? && !y.state.disposed && p.id !in y.state.seen {
      FreshTask(y, p.id);
    }
  }

  lemma NextReaders(y: System, p: Step)
    requires Inv(y)
    ensures |Readers(Next(y, p))| == |Readers(y)| + ReadsAdded(y, p)
  {
    hide Inv, Next, ReadsAdded;
    forall i | i != TaskOfStep(p)
      ensures i in Next(y, p).tasks && Next(y, p).tasks[i].Reading? <==> i in y.tasks && y.tasks[i].Reading?
    {
      OneTask(y, p, i);
    }
    ReadersChange(y, Next(y, p), TaskOfStep(p));
    OwnTask(y, p);
  }

  lemma NextBalanced(y: System, p: Step)
    requires Inv(y)
    ensures Balanced(y.state, Next(y, p).state, ReadsAdded(y, p))
    ensures y.state.disposed ==> Next(y, p).state.disposed
  {
    hide Inv, Settles, Steady, Balanced, Next;
    if p.Begin? { BeginGentle(y, p.id); }
    else if p.ReadChunk? { ReadChunkGentle(y, p.id, p.live, p.chunk); }
    else { NextGentle(y, p); }
  }

  lemma NextSlots(y: System, p: Step)
    requires Inv(y) && SlotsHeld(y)
    ensures SlotsHeld(Next(y, p))
  {
    hide Inv, Next, Readers, ReadStreams;
    NextReaders(y, p);
    NextBalanced(y, p);
  }

  lemma {:induction false} RunSlots(y: System, steps: seq<Step>)
    requires Inv(y) && SlotsHeld(y)
    ensures SlotsHeld(Run(y, steps))
    decreases |steps|
  {
    hide Inv, SlotsHeld, Next;
    if steps != [] {
      NextKeeps(y, steps[0]);
      NextSlots(y, steps[0]);
      RunSlots(Next(y, steps[0]), steps[1..]);
    }
  }

  /** Slots are conserved: none leaks, none is freed twice, and there are never more than four. */
  lemma ReadSlotAccounting(steps: seq<Step>)
    ensures SlotsHeld(Run(START, steps))
  {
    assert SlotsHeld(START) by {
      assert Readers(START) == {};
      assert ReadStreams(INITIAL) == {};
    }
    hide Inv, SlotsHeld, Run;
    Reachable([]);
    RunNothing(START);
    RunSlots(START, steps);
  }
}
