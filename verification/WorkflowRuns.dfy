/** Whole lives of an item: which gates it has passed, and when. */
module WorkflowRuns {
  import opened Basics
  import opened WorkflowContract
  import opened WorkflowExact
  import opened WorkflowGates
  import opened WorkflowRecords
  import opened Workflows

  /** An item, the records of the graph by their ids, and the rest of what the item depends on. */
  datatype Life = Life(subject: Id, item: Item, store: Store, world: World) {
    function View(): View {
      ViewOf(subject, store, world)
    }
  }

  datatype Step =
    | DoAssign(workflow: WorkflowId, stage: Stage)
    | DoRecord(id: Id, review: Review, links: map<Id, Node>) // `links` are created with the record
    | DoTransition(target: Stage, reason: string)
    | DoSetProgress(progress: Progress, attestation: Attestation, record: Id)
    | SetArchived(archived: bool)
    | Shift(world: World)                    // the rest of the graph changes, in any way
    | Foreign(key: RecordKey, stored: Stored) // another record appears, under an unused id

  predicate Storable(y: Life, id: Id, r: Review, links: map<Id, Node>) {
    && RecordKey(RecordKindOf(r.phase), id) !in y.store
    && links.Keys <= r.evidence && links.Keys !! y.world.evidence.Keys
    && Resolves(Linked(y.world, links), r.evidence)
  }

  function Linked(w: World, links: map<Id, Node>): World {
    w.(evidence := w.evidence + links)
  }

  function Recorded(y: Life, id: Id, r: Review, links: map<Id, Node>): Option<Life> {
    var it := Record(y.item, id, r, Storable(y, id, r, links));
    if it.None? then None
    else
      var w := Linked(y.world, links);
      var key := RecordKey(RecordKindOf(r.phase), id);
      Some(y.(item := it.value, world := w, store := y.store[key := Reviewed(RecordOf(y.subject, r, w))]))
  }

  function Progressed(y: Life, target: Progress, a: Attestation, id: Id): Option<Life> {
    var key := RecordKey(PacketRecord, id);
    var it := SetProgress(y.item, y.View(), y.world.done, target, a.(stored := a.stored && key !in y.store));
    if it.None? then None else Some(y.(item := it.value, store := y.store[key := Other]))
  }

  function Attempt(y: Life, p: Step): Option<Life> {
    match p
    case DoAssign(w, stage) =>
      var it := Assign(y.item, w, stage);
      if it.Some? then Some(y.(item := it.value)) else None
    case DoRecord(id, r, links) => Recorded(y, id, r, links)
    case DoTransition(target, reason) =>
      var it := Transition(y.item, y.View(), y.world.done, target, reason);
      if it.Some? then Some(y.(item := it.value)) else None
    case DoSetProgress(target, a, id) => Progressed(y, target, a, id)
    case SetArchived(b) => Some(y.(item := y.item.(archived := b, version := y.item.version + 1)))
    case Shift(w) => Some(y.(world := w))
    case Foreign(key, stored) => if key in y.store then None else Some(y.(store := y.store[key := stored]))
  }

  function Next(y: Life, p: Step): Life {
    if Attempt(y, p).Some? then Attempt(y, p).value else y
  }

  function Run(y: Life, steps: seq<Step>): Life
    decreases |steps|
  {
    if steps == [] then y else Next(Run(y, steps[..|steps| - 1]), steps[|steps| - 1])
  }

  /** A new item has no workflow, or stands at the start of one. */
  predicate New(y: Life) {
    && Consistent(y.item)
    && (y.item.state.Some? ==> y.item.state.value == Fresh(y.item.state.value.workflow, Backlog))
  }

  // ---- history

  /** A record is remembered with its review and with the world that it was made in. */
  datatype Event =
    | WasAssigned
    | WasRecorded(phase: Phase, id: Id, at: Stage, review: Review, world: World)
    | WasMoved(workflow: WorkflowId, from: Stage, to: Stage)
    | WasReopened

  predicate Reopens(it: Item, p: Step) {
    && p.DoSetProgress? && it.state.Some? && it.progress == Some(Complete) && p.progress == Started
  }

  function Events(y: Life, p: Step): seq<Event> {
    if Attempt(y, p).None? then []
    else
      match p
      case DoAssign(_, _) => [WasAssigned]
      case DoRecord(id, r, links) =>
        if y.item.state.None? then []
        else [WasRecorded(r.phase, id, y.item.state.value.stage, r, Linked(y.world, links))]
      case DoTransition(target, _) =>
        if y.item.state.Some? then [WasMoved(y.item.state.value.workflow, y.item.state.value.stage, target)] else []
      case DoSetProgress(_, _, _) => if Reopens(y.item, p) then [WasReopened] else []
      case _ => []
  }

  function History(y: Life, steps: seq<Step>): seq<Event>
    decreases |steps|
  {
    if steps == [] then []
    else History(y, steps[..|steps| - 1]) + Events(Run(y, steps[..|steps| - 1]), steps[|steps| - 1])
  }

  /** Assignment, reopening, a return and the entry into a block each void some reviews. */
  predicate Voids(e: Event, p: Phase) {
    match e
    case WasAssigned => true
    case WasReopened => true
    case WasRecorded(_, _, _, _, _) => false
    case WasMoved(w, from, to) =>
      if to == Blocked then p == Resolution else Return(w, from) == Some(to) && Invalidates(to, p)
  }

  predicate Records(e: Event, p: Phase) {
    e.WasRecorded? && e.phase == p
  }

  /** The last record of a phase that nothing voided since. */
  function Live(log: seq<Event>, p: Phase): (k: Option<nat>)
    ensures k.Some? ==> k.value < |log| && Records(log[k.value], p)
    ensures k.Some? ==> forall j | k.value < j < |log| :: !Voids(log[j], p) && !Records(log[j], p)
    ensures k.None? ==> forall i | 0 <= i < |log| && Records(log[i], p) :: exists j | i < j < |log| :: Voids(log[j], p)
  {
    if log == [] then None
    else
      var n := |log| - 1;
      if Records(log[n], p) then Some(n)
      else if Voids(log[n], p) then None
      else Live(log[..n], p)
  }

  /** The last entry into a block. */
  function BlockStart(log: seq<Event>): (k: Option<nat>)
    ensures k.Some? ==> k.value < |log| && log[k.value].WasMoved? && log[k.value].to == Blocked
    ensures k.Some? ==> forall j | k.value < j < |log| :: !(log[j].WasMoved? && log[j].to == Blocked)
  {
    if log == [] then None
    else
      var n := |log| - 1;
      if log[n].WasMoved? && log[n].to == Blocked then Some(n) else BlockStart(log[..n])
  }

  lemma LiveAppend(log: seq<Event>, es: seq<Event>, p: Phase)
    requires |es| <= 1
    ensures Live(log + es, p) ==
      if es == [] then Live(log, p)
      else if Records(es[0], p) then Some(|log|)
      else if Voids(es[0], p) then None
      else Live(log, p)
  {
    if es == [] {
      assert log + es == log;
    } else {
      assert (log + es)[..|log|] == log;
    }
  }

  lemma BlockAppend(log: seq<Event>, es: seq<Event>)
    requires |es| <= 1
    ensures BlockStart(log + es) ==
      if es == [] then BlockStart(log)
      else if es[0].WasMoved? && es[0].to == Blocked then Some(|log|)
      else BlockStart(log)
  {
    if es == [] {
      assert log + es == log;
    } else {
      assert (log + es)[..|log|] == log;
    }
  }

  // ---- what the history says about the state

  /** The state keeps exactly the live records, each recorded at its own gate. */
  ghost predicate Kept(log: seq<Event>, st: WorkflowState) {
    && (forall p :: p in st.reviews <==> Live(log, p).Some?)
    && (forall p | p in st.reviews ::
          && Live(log, p).Some?
          && var e := log[Live(log, p).value];
             e.id == st.reviews[p] && MayRecord(p, e.at) && StageOf(st.workflow, e.at))
  }

  /** Live records of gates lie behind the item, and in the order of their gates. */
  ghost predicate Ordered(log: seq<Event>, st: WorkflowState) {
    && (forall p | Gated(p) && Live(log, p).Some? ::
          Rank(st.workflow, log[Live(log, p).value].at) <= Rank(st.workflow, st.Effective()))
    && (forall p, q | Gated(p) && Gated(q) && Live(log, p).Some? && Live(log, q).Some?
                      && Rank(st.workflow, log[Live(log, p).value].at)
                         < Rank(st.workflow, log[Live(log, q).value].at) ::
          Live(log, p).value < Live(log, q).value)
  }

  ghost predicate BlockKnown(log: seq<Event>, st: WorkflowState) {
    st.stage == Blocked && st.resume.Some? ==>
      && BlockStart(log).Some?
      && log[BlockStart(log).value].from == st.resume.value
  }

  /** Of each review that the state keeps, the store holds the record as it was made. */
  ghost predicate Filed(log: seq<Event>, subject: Id, store: Store, st: WorkflowState) {
    forall p | p in st.reviews && Live(log, p).Some? ::
      var e := log[Live(log, p).value];
      var key := RecordKey(RecordKindOf(p), st.reviews[p]);
      && e.review.phase == p && Resolves(e.world, e.review.evidence)
      && key in store && store[key] == Reviewed(RecordOf(subject, e.review, e.world))
  }

  ghost predicate StateTold(log: seq<Event>, subject: Id, store: Store, st: WorkflowState) {
    Kept(log, st) && Ordered(log, st) && BlockKnown(log, st) && Filed(log, subject, store, st)
  }

  ghost predicate Told(log: seq<Event>, y: Life) {
    Consistent(y.item) && (y.item.state.Some? ==> StateTold(log, y.subject, y.store, y.item.state.value))
  }

  // ---- one event at a time

  lemma VoidedAll(log: seq<Event>, e: Event, st: WorkflowState)
    requires forall p :: Voids(e, p)
    requires st.reviews == map[] && st.stage != Blocked
    ensures forall subject, store :: StateTold(log + [e], subject, store, st)
  {
    forall p ensures Live(log + [e], p).None? {
      LiveAppend(log, [e], p);
    }
    hide Live, Voids;
  }

  lemma LiveRecorded(log: seq<Event>, e: Event)
    requires e.WasRecorded?
    ensures forall q :: Live(log + [e], q) == if q == e.phase then Some(|log|) else Live(log, q)
  {
    hide Live, Voids;
    forall q ensures Live(log + [e], q) == if q == e.phase then Some(|log|) else Live(log, q) {
      LiveAppend(log, [e], q);
      RecordsVoidNothing(e, q);
    }
  }

  lemma RecordsVoidNothing(e: Event, q: Phase)
    requires e.WasRecorded?
    ensures !Voids(e, q)
  {
  }

  lemma RecordKept(log: seq<Event>, st: WorkflowState, e: Event)
    requires Kept(log, st) && e.WasRecorded? && e.at == st.stage
    requires MayRecord(e.phase, st.stage) && StageOf(st.workflow, st.stage)
    ensures Kept(log + [e], st.(reviews := st.reviews[e.phase := e.id]))
  {
    hide Live, Voids, MayRecord, Position;
    LiveRecorded(log, e);
  }

  lemma RecordOrdered(log: seq<Event>, st: WorkflowState, e: Event)
    requires Ordered(log, st) && e.WasRecorded? && e.at == st.stage && MayRecord(e.phase, st.stage)
    ensures Ordered(log + [e], st.(reviews := st.reviews[e.phase := e.id]))
  {
    assert Gated(e.phase) ==> st.Effective() == st.stage;
    hide Live, Voids, MayRecord, Position;
    LiveRecorded(log, e);
  }

  /** A record takes an unused id, so no record that is kept is ever replaced. */
  lemma RecordFiled(log: seq<Event>, subject: Id, store: Store, st: WorkflowState, e: Event)
    requires Filed(log, subject, store, st) && e.WasRecorded? && e.review.phase == e.phase
    requires Kept(log, st) && Resolves(e.world, e.review.evidence) && RecordKey(RecordKindOf(e.phase), e.id) !in store
    ensures Filed(log + [e], subject,
                  store[RecordKey(RecordKindOf(e.phase), e.id) := Reviewed(RecordOf(subject, e.review, e.world))],
                  st.(reviews := st.reviews[e.phase := e.id]))
  {
    hide Live, Voids, MayRecord, Position, RecordKindOf, RecordOf, Resolves;
    LiveRecorded(log, e);
  }

  /** The reviews after a move are those the move does not void. */
  lemma MovedReviews(st: WorkflowState, target: Stage, reason: string, p: Phase)
    requires st.stage == Blocked ==> target != Blocked
    ensures var e := WasMoved(st.workflow, st.stage, target);
      p in Moved(st, target, reason).reviews <==> p in st.reviews && !Voids(e, p)
    ensures p in Moved(st, target, reason).reviews ==> Moved(st, target, reason).reviews[p] == st.reviews[p]
  {
  }

  lemma LiveMoved(log: seq<Event>, e: Event)
    requires e.WasMoved?
    ensures forall q :: Live(log + [e], q) == if Voids(e, q) then None else Live(log, q)
  {
    hide Live, Voids;
    forall q ensures Live(log + [e], q) == if Voids(e, q) then None else Live(log, q) {
      LiveAppend(log, [e], q);
    }
  }

  lemma MovedAll(st: WorkflowState, target: Stage, reason: string)
    requires st.stage == Blocked ==> target != Blocked
    ensures Moved(st, target, reason).workflow == st.workflow
    ensures var e := WasMoved(st.workflow, st.stage, target);
      forall p :: p in Moved(st, target, reason).reviews <==> p in st.reviews && !Voids(e, p)
    ensures forall p | p in Moved(st, target, reason).reviews ::
              p in st.reviews && Moved(st, target, reason).reviews[p] == st.reviews[p]
  {
    forall p ensures p in Moved(st, target, reason).reviews
                     <==> p in st.reviews && !Voids(WasMoved(st.workflow, st.stage, target), p) {
      MovedReviews(st, target, reason, p);
    }
    hide Voids;
  }

  lemma MoveKept(log: seq<Event>, st: WorkflowState, target: Stage, reason: string)
    requires Kept(log, st) && (st.stage == Blocked ==> target != Blocked)
    ensures Kept(log + [WasMoved(st.workflow, st.stage, target)], Moved(st, target, reason))
  {
    hide Live, Voids, MayRecord, Position, Moved;
    LiveMoved(log, WasMoved(st.workflow, st.stage, target));
    MovedAll(st, target, reason);
  }

  /** A move goes forward, or voids every gated record that it goes back past. */
  lemma MoveRank(st: WorkflowState, target: Stage, reason: string, p: Phase, at: Stage)
    requires st.Valid() && target in Targets(st) && MayRecord(p, at) && StageOf(st.workflow, at)
    requires Gated(p) && !Voids(WasMoved(st.workflow, st.stage, target), p)
    requires Rank(st.workflow, at) <= Rank(st.workflow, st.Effective())
    ensures Rank(st.workflow, at) <= Rank(st.workflow, Moved(st, target, reason).Effective())
  {
    hide Rows, Forward, Keep;
    if Forward(st.workflow, st.stage).Some? {
      ForwardStays(st.workflow, st.stage);
    }
  }

  lemma MoveOrdered(log: seq<Event>, st: WorkflowState, target: Stage, reason: string)
    requires st.Valid() && target in Targets(st) && Kept(log, st) && Ordered(log, st)
    requires st.stage == Blocked ==> target != Blocked
    ensures Ordered(log + [WasMoved(st.workflow, st.stage, target)], Moved(st, target, reason))
  {
    hide Live, Voids, MayRecord, Position, Moved, Targets, Rank, WorkflowState.Valid, WorkflowState.Effective;
    var e := WasMoved(st.workflow, st.stage, target);
    var t := Moved(st, target, reason);
    MovedAll(st, target, reason);
    LiveMoved(log, e);
    forall p | Gated(p) && Live(log, p).Some? && !Voids(e, p)
      ensures Rank(t.workflow, log[Live(log, p).value].at) <= Rank(t.workflow, t.Effective())
    {
      MoveRank(st, target, reason, p, log[Live(log, p).value].at);
    }
  }

  lemma MoveFiled(log: seq<Event>, subject: Id, store: Store, st: WorkflowState, target: Stage, reason: string)
    requires Filed(log, subject, store, st) && (st.stage == Blocked ==> target != Blocked)
    ensures Filed(log + [WasMoved(st.workflow, st.stage, target)], subject, store, Moved(st, target, reason))
  {
    hide Live, Voids, Moved, RecordKindOf, RecordOf, Resolves;
    LiveMoved(log, WasMoved(st.workflow, st.stage, target));
    MovedAll(st, target, reason);
  }

  lemma StoreGrows(log: seq<Event>, subject: Id, store: Store, st: WorkflowState, key: RecordKey, stored: Stored)
    requires Filed(log, subject, store, st) && key !in store
    ensures Filed(log, subject, store[key := stored], st)
  {
    hide Live, RecordKindOf, RecordOf, Resolves;
  }

  lemma MoveBlock(log: seq<Event>, st: WorkflowState, target: Stage, reason: string)
    ensures BlockKnown(log + [WasMoved(st.workflow, st.stage, target)], Moved(st, target, reason))
  {
    BlockAppend(log, [WasMoved(st.workflow, st.stage, target)]);
  }

  lemma CompletedTold(log: seq<Event>, subject: Id, store: Store, st: WorkflowState)
    requires st.Valid() && StateTold(log, subject, store, st)
    ensures StateTold(log, subject, store, st.(stage := Done, resume := None, reason := ""))
  {
    EffectiveBelow(st);
    hide Live, Position, MayRecord, RecordKindOf, RecordOf, Resolves;
  }

  lemma EffectiveBelow(st: WorkflowState)
    requires st.Valid()
    ensures Rank(st.workflow, st.Effective()) <= Rank(st.workflow, Done)
  {
  }

  lemma AssignTold(log: seq<Event>, y: Life, p: Step)
    requires Told(log, y) && p.DoAssign? && Attempt(y, p).Some?
    ensures Told(log + Events(y, p), Next(y, p))
  {
    hide StateTold, Consistent, Assign;
    AssignWrites(y.item, p.workflow, p.stage);
    AssignFresh(y.item, p.workflow, p.stage);
    VoidedAll(log, WasAssigned, Fresh(p.workflow, p.stage));
  }

  lemma AssignFresh(it: Item, w: WorkflowId, stage: Stage)
    requires Assign(it, w, stage).Some?
    ensures Assign(it, w, stage).value.state == Some(Fresh(w, stage)) && stage != Blocked
  {
  }

  lemma RecordTold(log: seq<Event>, y: Life, p: Step)
    requires Told(log, y) && p.DoRecord? && Attempt(y, p).Some?
    ensures Told(log + Events(y, p), Next(y, p))
  {
    hide Kept, Ordered, MayRecord, Position, Filed, RecordOf, Resolves;
    var st, r := y.item.state.value, p.review;
    var e := WasRecorded(r.phase, p.id, st.stage, r, Linked(y.world, p.links));
    RecordWrites(y.item, p.id, r, Storable(y, p.id, r, p.links));
    RecordKept(log, st, e);
    RecordOrdered(log, st, e);
    RecordFiled(log, y.subject, y.store, st, e);
    BlockAppend(log, [e]);
  }

  lemma TransitionTold(log: seq<Event>, y: Life, p: Step)
    requires Told(log, y) && p.DoTransition? && Attempt(y, p).Some?
    ensures Told(log + Events(y, p), Next(y, p))
  {
    hide Kept, Ordered, BlockKnown, Filed, Targets, Moved, Gaps, Position, ViewOf;
    var st := y.item.state.value;
    TransitionWrites(y.item, y.View(), y.world.done, p.target, p.reason);
    TargetStays(st, p.target);
    MoveKept(log, st, p.target, p.reason);
    MoveOrdered(log, st, p.target, p.reason);
    MoveFiled(log, y.subject, y.store, st, p.target, p.reason);
    MoveBlock(log, st, p.target, p.reason);
  }

  lemma ProgressTold(log: seq<Event>, y: Life, p: Step)
    requires Told(log, y) && p.DoSetProgress? && Attempt(y, p).Some?
    ensures Told(log + Events(y, p), Next(y, p))
  {
    hide StateTold, Gaps, Position, ViewOf, Blank;
    var key := RecordKey(PacketRecord, p.record);
    var a := p.attestation.(stored := p.attestation.stored && key !in y.store);
    SetProgressWrites(y.item, y.View(), y.world.done, p.progress, a);
    assert log + [] == log;
    if y.item.state.Some? {
      OtherTold(log, y, key, Other);
      CompletedTold(log, y.subject, y.store[key := Other], y.item.state.value);
      VoidedAll(log, WasReopened, Reopened(y.item.state.value));
    }
  }

  lemma OtherTold(log: seq<Event>, y: Life, key: RecordKey, stored: Stored)
    requires Told(log, y) && y.item.state.Some? && key !in y.store
    ensures StateTold(log, y.subject, y.store[key := stored], y.item.state.value)
  {
    hide Kept, Ordered, BlockKnown, Filed, Consistent;
    StoreGrows(log, y.subject, y.store, y.item.state.value, key, stored);
  }

  lemma EnvironmentTold(log: seq<Event>, y: Life, p: Step)
    requires Told(log, y) && (p.SetArchived? || p.Shift? || p.Foreign?) && Attempt(y, p).Some?
    ensures Told(log + Events(y, p), Next(y, p))
  {
    hide StateTold, Position;
    assert log + [] == log;
    if p.Foreign? && y.item.state.Some? {
      OtherTold(log, y, p.key, p.stored);
    }
  }

  lemma NextTold(log: seq<Event>, y: Life, p: Step)
    requires Told(log, y)
    ensures Told(log + Events(y, p), Next(y, p))
  {
    hide Told, Assign, Recorded, Transition, Progressed;
    assert log + [] == log;
    if Attempt(y, p).Some? {
      match p
      case DoAssign(_, _) => AssignTold(log, y, p);
      case DoRecord(_, _, _) => RecordTold(log, y, p);
      case DoTransition(_, _) => TransitionTold(log, y, p);
      case DoSetProgress(_, _, _) => ProgressTold(log, y, p);
      case _ => EnvironmentTold(log, y, p);
    }
  }

  lemma NewTold(y: Life)
    requires New(y)
    ensures Told([], y)
  {
  }

  /** At any time the state holds what the history says, is valid, and agrees with the progress. */
  lemma {:induction false} RunTold(y: Life, steps: seq<Step>)
    requires New(y)
    ensures Told(History(y, steps), Run(y, steps))
    decreases |steps|
  {
    hide Told, New, Next, Events;
    if steps == [] {
      NewTold(y);
    } else {
      var n := |steps| - 1;
      RunTold(y, steps[..n]);
      NextTold(History(y, steps[..n]), Run(y, steps[..n]), steps[n]);
    }
  }

  // ---- promises

  /** The event that a live record of `p` was made by. */
  function LiveRecord(log: seq<Event>, p: Phase): Event
    requires Live(log, p).Some?
  {
    log[Live(log, p).value]
  }

  /** A live record of `p` whose review still counts: it is not archived, and nothing it was made on has changed. */
  ghost predicate Standing(log: seq<Event>, y: Life, p: Phase) {
    && Live(log, p).Some?
    && var e := LiveRecord(log, p);
       && RecordKey(RecordKindOf(p), e.id) !in y.world.archivedRecords
       && Unchanged(e.world, y.world, p) && EvidenceKept(e.world, y.world, e.review.evidence)
  }

  ghost predicate StandsEndorsed(log: seq<Event>, y: Life, p: Phase) {
    Standing(log, y, p) && Endorses(LiveRecord(log, p).review)
  }

  /** Recorded at its gate as an approval with evidence, and still standing. */
  ghost predicate Passed(log: seq<Event>, y: Life, w: WorkflowId, p: Phase) {
    Gated(p) && StandsEndorsed(log, y, p) && LiveRecord(log, p).at == GateOf(w, p)
  }

  /** A standing ledger leaves nothing unmet, lists every requirement and excludes every open child. */
  ghost predicate LedgerStands(log: seq<Event>, y: Life) {
    && Standing(log, y, Requirements)
    && Completes(LiveRecord(log, Requirements).review, y.world.requirements.Keys, y.world.children.Keys,
                 y.world.blockers, y.world.done)
  }

  lemma GateIsOwn(w: WorkflowId, p: Phase, at: Stage)
    requires Gated(p) && MayRecord(p, at) && StageOf(w, at)
    ensures at == GateOf(w, p)
  {
  }

  /** What a gate reads is what was recorded, exactly as long as that stands. */
  lemma ReadsTheRecord(log: seq<Event>, y: Life, p: Phase)
    requires y.item.state.Some? && StateTold(log, y.subject, y.store, y.item.state.value)
    ensures var r := y.View().ReviewOf(y.item.state.value, p);
      && (r.Some? <==> Standing(log, y, p))
      && (r.Some? ==> r.value == LiveRecord(log, p).review)
  {
    var st := y.item.state.value;
    hide Live, Ordered, BlockKnown, ViewOf, Unchanged, EvidenceKept, RecordOf, Resolves, RecordKindOf;
    hide MayRecord, Position;
    if p in st.reviews {
      var e := LiveRecord(log, p);
      CountsExactly(y.subject, y.store, e.world, y.world, st, e.review);
    }
  }

  lemma EndorsedExact(log: seq<Event>, y: Life, p: Phase)
    requires y.item.state.Some? && StateTold(log, y.subject, y.store, y.item.state.value)
    ensures Endorsed(y.View(), y.item.state.value, p) <==> StandsEndorsed(log, y, p)
    ensures StandsEndorsed(log, y, p) && Gated(p) ==> Passed(log, y, y.item.state.value.workflow, p)
  {
    hide Live, Ordered, BlockKnown, ViewOf, Unchanged, EvidenceKept, Filed, Endorses, GateOf, View.ReviewOf;
    hide MayRecord, Position, RecordKindOf;
    ReadsTheRecord(log, y, p);
    if StandsEndorsed(log, y, p) && Gated(p) {
      StandsKept(log, y, p);
      GateIsOwn(y.item.state.value.workflow, p, LiveRecord(log, p).at);
    }
  }

  lemma StandsKept(log: seq<Event>, y: Life, p: Phase)
    requires y.item.state.Some? && StateTold(log, y.subject, y.store, y.item.state.value) && Standing(log, y, p)
    ensures MayRecord(p, LiveRecord(log, p).at) && StageOf(y.item.state.value.workflow, LiveRecord(log, p).at)
  {
    hide Live, Ordered, BlockKnown, Filed, MayRecord, Position;
  }

  lemma CompletedExact(log: seq<Event>, y: Life)
    requires y.item.state.Some? && StateTold(log, y.subject, y.store, y.item.state.value)
    ensures Completed(y.View(), y.item.state.value, y.world.done) <==> LedgerStands(log, y)
  {
    hide StateTold, Standing, Live, Completes, View.ReviewOf;
    ReadsTheRecord(log, y, Requirements);
  }

  // ---- every move

  /** What it takes to stand at `s`, in terms of what was recorded. */
  ghost predicate Earned(log: seq<Event>, y: Life, w: WorkflowId, s: Stage) {
    && (forall p | JustBefore(w, p, s) :: Passed(log, y, w, p))
    && (Rank(w, s) == Rank(w, Outset(w)) + 1 ==> StandsEndorsed(log, y, Requirements))
    && (Judged(w, s) ==> LedgerStands(log, y))
    && (s == Done ==> (forall p | Demanded(w, p) :: Passed(log, y, w, p))
                      && (y.item.kind == Proposal ==> y.world.disposition.Some?))
  }

  lemma EarnedExact(log: seq<Event>, y: Life, s: Stage)
    requires y.item.state.Some? && StateTold(log, y.subject, y.store, y.item.state.value)
    ensures MayStand(y.View(), y.item.kind, y.item.state.value, s, y.world.done)
        <==> Earned(log, y, y.item.state.value.workflow, s)
  {
    hide StateTold, StandsEndorsed, Passed, LedgerStands, Endorsed, Completed, Position, Judged, GateOf;
    var st := y.item.state.value;
    forall p ensures && (Endorsed(y.View(), st, p) <==> StandsEndorsed(log, y, p))
                     && (Gated(p) ==> (StandsEndorsed(log, y, p) <==> Passed(log, y, st.workflow, p))) {
      EndorsedExact(log, y, p);
      PassedStands(log, y, st.workflow, p);
    }
    CompletedExact(log, y);
  }

  lemma PassedStands(log: seq<Event>, y: Life, w: WorkflowId, p: Phase)
    ensures Passed(log, y, w, p) ==> StandsEndorsed(log, y, p)
  {
  }

  /** Whether the history grants a move to `target`. */
  ghost predicate Granted(log: seq<Event>, y: Life, target: Stage, reason: string)
    requires y.item.state.Some?
  {
    var st := y.item.state.value;
    if target == Blocked then st.stage != Blocked && !Blank(reason)
    else if st.stage == Blocked then
      && BlockStart(log).Some? && log[BlockStart(log).value].from == target
      && StandsEndorsed(log, y, Resolution)
    else if GoesBack(st.workflow, st.stage, target) then !Blank(reason)
    else Rank(st.workflow, target) == Rank(st.workflow, st.stage) + 1 && Earned(log, y, st.workflow, target)
  }

  lemma GrantedIsMayMove(log: seq<Event>, y: Life, target: Stage, reason: string)
    requires y.item.state.Some? && y.item.state.value.Valid()
    requires StateTold(log, y.subject, y.store, y.item.state.value)
    ensures MayMove(y.item.kind, y.item.state.value, y.View(), y.world.done, target, reason)
        <==> Granted(log, y, target, reason)
  {
    hide BlockStart, StandsEndorsed, Endorsed, Earned, MayStand, GoesBack, Position, Blank, ViewOf;
    hide Kept, Ordered, Filed;
    EndorsedExact(log, y, Resolution);
    EarnedExact(log, y, target);
  }

  /**
   In every life, a move is granted if and only if the work is open and its history earns the move: nothing but
   a reason for a block or for going back; a resolution of this very block for leaving it; and for going on, every
   gate at the stage left passed, the ledger endorsed after planning, and the delivery complete where it is judged.
   Then the work stands at the stage asked for, with the reviews that survive the move.
   */
  lemma MovesExactly(y0: Life, steps: seq<Step>, target: Stage, reason: string)
    requires New(y0)
    ensures var y, log := Run(y0, steps), History(y0, steps);
      && (Attempt(y, DoTransition(target, reason)).Some? <==>
            && !y.item.archived && y.item.state.Some? && y.item.state.value.stage != Done
            && Granted(log, y, target, reason))
      && (Attempt(y, DoTransition(target, reason)).Some? ==>
            var z := Attempt(y, DoTransition(target, reason)).value;
            && z.store == y.store && z.world == y.world && z.item.version == y.item.version + 1 && z.item.state.Some?
            && z.item.progress == Some(StageProgress(target))
            && Lands(y.item.state.value, target, reason, z.item.state.value))
  {
    hide Run, History, Transition, StateTold, Granted, MayMove, Lands, WorkflowState.Valid, ViewOf;
    var y, log := Run(y0, steps), History(y0, steps);
    RunTold(y0, steps);
    TransitionExactly(y.item, y.View(), y.world.done, target, reason);
    if y.item.state.Some? {
      GrantedIsMayMove(log, y, target, reason);
    }
  }

  /** Only the last gate leads to done. */
  lemma OnlyLastGate(w: WorkflowId, s: Stage)
    requires StageOf(w, s)
    ensures Rank(w, Done) == Rank(w, s) + 1 ==> s == LastGate(w)
    ensures !GoesBack(w, s, Done) && Judged(w, Done)
  {
  }

  /**
   Work moves to done only from the last gate. Each demanded phase has then been recorded at its own
   gate, as an approval with evidence, since anything voided it, and neither the work and its requirements
   nor, for the phases of delivery, its children nor the evidence have changed since that record. So has the
   ledger of requirements, which leaves nothing unmet, covers every requirement and excludes every open child.
   */
  lemma DonePassedEveryGate(y0: Life, steps: seq<Step>, reason: string)
    requires New(y0) && Attempt(Run(y0, steps), DoTransition(Done, reason)).Some?
    ensures var y, log := Run(y0, steps), History(y0, steps);
      && y.item.state.Some?
      && var w := y.item.state.value.workflow;
         && y.item.state.value.stage == LastGate(w)
         && (forall p | Demanded(w, p) :: Passed(log, y, w, p))
         && LedgerStands(log, y)
  {
    hide Run, History, Attempt, StateTold, Passed, LedgerStands, StandsEndorsed, Lands, Position, GoesBack, Judged;
    hide Blank;
    MovesExactly(y0, steps, Done, reason);
    RunTold(y0, steps);
    if Run(y0, steps).item.state.value.stage == Blocked {
      NotFromBlock(y0, steps);
    }
    OnlyLastGate(Run(y0, steps).item.state.value.workflow, Run(y0, steps).item.state.value.stage);
  }

  /** A block is never left for done. */
  lemma NotFromBlock(y0: Life, steps: seq<Step>)
    requires New(y0) && Run(y0, steps).item.state.Some? && Run(y0, steps).item.state.value.stage == Blocked
    ensures var log := History(y0, steps); BlockStart(log).Some? ==> log[BlockStart(log).value].from != Done
  {
    hide Run, History, Kept, Ordered, Filed, BlockStart;
    RunTold(y0, steps);
  }

  /** So the children are, at their versions, those that every delivery review was made on. */
  lemma ChildrenAsReviewed(y0: Life, steps: seq<Step>, reason: string, p: Phase)
    requires New(y0) && Attempt(Run(y0, steps), DoTransition(Done, reason)).Some?
    requires Demanded(Run(y0, steps).item.state.value.workflow, p) && !IsPlan(p)
    ensures Live(History(y0, steps), p).Some?
    ensures LiveRecord(History(y0, steps), p).world.children == Run(y0, steps).world.children
  {
    hide Run, History, Live, Attempt, GateOf, Endorses, EvidenceKept, LedgerStands, Position;
    DonePassedEveryGate(y0, steps, reason);
    assert Passed(History(y0, steps), Run(y0, steps), Run(y0, steps).item.state.value.workflow, p);
  }

  /** And the gates were passed in their order. */
  lemma GatesInOrder(y0: Life, steps: seq<Step>, reason: string, p: Phase, q: Phase)
    requires New(y0) && Attempt(Run(y0, steps), DoTransition(Done, reason)).Some?
    requires var w := Run(y0, steps).item.state.value.workflow;
      Gated(p) && Gated(q) && Demanded(w, p) && Demanded(w, q) && Rank(w, GateOf(w, p)) < Rank(w, GateOf(w, q))
    ensures Live(History(y0, steps), p).Some? && Live(History(y0, steps), q).Some?
    ensures Live(History(y0, steps), p).value < Live(History(y0, steps), q).value
  {
    hide Run, History, Live, Attempt, GateOf, Position, Endorses, Unchanged, EvidenceKept, LedgerStands;
    hide Kept, BlockKnown, Filed, Consistent;
    DonePassedEveryGate(y0, steps, reason);
    RunTold(y0, steps);
    var w := Run(y0, steps).item.state.value.workflow;
    assert Passed(History(y0, steps), Run(y0, steps), w, p) && Passed(History(y0, steps), Run(y0, steps), w, q);
  }

  lemma ResolvedInBlock(log: seq<Event>, subject: Id, store: Store, st: WorkflowState)
    requires StateTold(log, subject, store, st)
    requires st.stage == Blocked && st.resume.Some? && Resolution in st.reviews
    ensures BlockStart(log).Some? && Live(log, Resolution).Some?
    ensures log[BlockStart(log).value].from == st.resume.value
    ensures BlockStart(log).value < Live(log, Resolution).value
  {
    hide Live, BlockStart, Ordered, Filed, MayRecord, Position, Return, Invalidates;
    var b := BlockStart(log).value;
    assert Voids(log[b], Resolution) && !Records(log[b], Resolution);
  }

  /**
   A transition out of a block goes to the stage that was left, on a resolution that was recorded in
   this very block as an approval with evidence, and that still stands.
   */
  lemma ResumesWhereItLeft(y0: Life, steps: seq<Step>, target: Stage, reason: string)
    requires var y := Run(y0, steps);
      && New(y0) && y.item.state.Some? && y.item.state.value.stage == Blocked
      && Attempt(y, DoTransition(target, reason)).Some?
    ensures var log := History(y0, steps);
      && BlockStart(log).Some? && Standing(log, Run(y0, steps), Resolution)
      && log[BlockStart(log).value].from == target
      && BlockStart(log).value < Live(log, Resolution).value
      && Endorses(LiveRecord(log, Resolution).review)
  {
    hide Run, History, Live, BlockStart, Attempt, Endorses, Lands, Unchanged, EvidenceKept, Earned, GoesBack, Blank;
    hide Ordered, BlockKnown, Filed, Position, MayRecord;
    MovesExactly(y0, steps, target, reason);
    RunTold(y0, steps);
    var y := Run(y0, steps);
    assert Resolution in y.item.state.value.reviews;
    ResolvedInBlock(History(y0, steps), y.subject, y.store, y.item.state.value);
  }

  // ---- reviews and progress

  /**
   A review is recorded if and only if the work is open, stands at the gate of the phase, the id is unused, and
   each piece of evidence is an active one or a link that is created with the record.
   */
  lemma RecordsExactly(y: Life, id: Id, r: Review, links: map<Id, Node>)
    requires Consistent(y.item)
    ensures Attempt(y, DoRecord(id, r, links)).Some? <==>
            && !y.item.archived && y.item.state.Some? && y.item.state.value.stage != Done
            && AtItsGate(y.item.state.value, r)
            && RecordKey(RecordKindOf(r.phase), id) !in y.store
            && (forall e | e in links :: e in r.evidence && e !in y.world.evidence)
            && (forall e | e in r.evidence ::
                  if e in links then !links[e].archived
                  else e in y.world.evidence && !y.world.evidence[e].archived)
    ensures Attempt(y, DoRecord(id, r, links)).Some? ==>
            var z := Attempt(y, DoRecord(id, r, links)).value;
            && z.item.state.Some? && z.item.state.value.reviews == y.item.state.value.reviews[r.phase := id]
            && z.item.state.value.stage == y.item.state.value.stage && z.item.version == y.item.version + 1
  {
    hide RecordKindOf, AtItsGate, Record, RecordOf;
    RecordExactly(y.item, id, r, Storable(y, id, r, links));
    StorableExact(y, id, r, links);
    hide Storable;
  }

  lemma StorableExact(y: Life, id: Id, r: Review, links: map<Id, Node>)
    ensures Storable(y, id, r, links) <==>
            && RecordKey(RecordKindOf(r.phase), id) !in y.store
            && (forall e | e in links :: e in r.evidence && e !in y.world.evidence)
            && (forall e | e in r.evidence ::
                  if e in links then !links[e].archived
                  else e in y.world.evidence && !y.world.evidence[e].archived)
  {
    hide RecordKindOf;
  }

  /** A change of progress is granted and leaves what `MayProgress` and `Resets` say, under an unused record id. */
  lemma ProgressExactly(y: Life, target: Progress, a: Attestation, id: Id)
    requires Consistent(y.item)
    ensures Attempt(y, DoSetProgress(target, a, id)).Some? <==>
            && !y.item.archived && y.item.progress != Some(target) && a.stored
            && RecordKey(PacketRecord, id) !in y.store
            && MayProgress(y.item, y.View(), y.world.done, target, a)
    ensures Attempt(y, DoSetProgress(target, a, id)).Some? ==>
            var z := Attempt(y, DoSetProgress(target, a, id)).value;
            && z.item.progress == Some(target) && z.item.version == y.item.version + 1 && z.world == y.world
            && RecordKey(PacketRecord, id) in z.store
            && Resets(y.item, y.View(), target, z.item.state)
  {
    hide SetProgress, ViewOf, Resets, MayStand, Settles;
    var b := a.(stored := a.stored && RecordKey(PacketRecord, id) !in y.store);
    SetProgressExactly(y.item, y.View(), y.world.done, target, b);
    assert MayProgress(y.item, y.View(), y.world.done, target, a)
      <==> MayProgress(y.item, y.View(), y.world.done, target, b);
  }

  /** An item without a classification has no workflow, or stands in the backlog. */
  ghost predicate Untouched(it: Item) {
    it.progress.None? && it.state.Some? ==> it.state.value.stage == Backlog
  }

  lemma NextUntouched(y: Life, p: Step)
    requires Untouched(y.item)
    ensures Untouched(Next(y, p).item)
  {
    hide ViewOf, Gaps, Targets, Moved, MayRecord, ProgressState;
  }

  lemma {:induction false} RunUntouched(y: Life, steps: seq<Step>)
    requires New(y)
    ensures Untouched(Run(y, steps).item)
    decreases |steps|
  {
    hide Next, Untouched;
    if steps == [] {
      assert Untouched(y.item) by { NewUntouched(y); }
    } else {
      RunUntouched(y, steps[..|steps| - 1]);
      NextUntouched(Run(y, steps[..|steps| - 1]), steps[|steps| - 1]);
    }
  }

  lemma NewUntouched(y: Life)
    requires New(y)
    ensures Untouched(y.item)
  {
  }

  /** So in a life only base Todos and rejected Proposals are ever completed without a transition. */
  lemma CompletedByAttestation(y0: Life, steps: seq<Step>, a: Attestation, id: Id)
    requires New(y0) && Attempt(Run(y0, steps), DoSetProgress(Complete, a, id)).Some?
    ensures var y := Run(y0, steps);
      && y.world.blockers <= y.world.done
      && if y.item.kind == Todo then Settles(a.ledger, y.world.requirements.Keys)
         else y.item.kind == Proposal && y.world.disposition == Some(Rejected) && a.evidence
  {
    hide Run, Attempt, MayStand, Settles, Resets;
    var y := Run(y0, steps);
    AlwaysConsistent(y0, steps);
    RunUntouched(y0, steps);
    ProgressExactly(y, Complete, a, id);
  }

  /** Started work returns to not started if and only if it resumes from a block that began in the backlog. */
  lemma BackToNotStarted(y: Life, p: Step)
    requires Consistent(y.item) && (y.item.progress == Some(Started) || y.item.progress == Some(Complete))
    ensures Next(y, p).item.progress == Some(NotStarted) <==>
            && p.DoTransition? && Attempt(y, p).Some?
            && y.item.state.value.stage == Blocked && y.item.state.value.resume == Some(Backlog)
  {
    hide Gaps, Rows, ViewOf;
    if p.DoTransition? && Attempt(y, p).Some? {
      TargetStays(y.item.state.value, p.target);
      BacklogTarget(y.item.state.value, p.target);
    }
  }

  lemma BacklogTarget(st: WorkflowState, target: Stage)
    requires st.Valid() && target in Targets(st)
    ensures target == Backlog ==> st.stage == Blocked
  {
    if Forward(st.workflow, st.stage).Some? {
      ForwardStays(st.workflow, st.stage);
    }
    hide Rows, Forward;
  }

  /** Whatever is done to an item, its state is valid and its progress is the progress of its stage. */
  lemma AlwaysConsistent(y: Life, steps: seq<Step>)
    requires New(y)
    ensures Consistent(Run(y, steps).item)
  {
    hide Run, History, Consistent, StateTold;
    RunTold(y, steps);
  }
}
