/** The operations that change the workflow and the progress of one item. */
module Workflows {
  import opened Basics
  import opened WorkflowContract

  datatype Item = Item(
    kind: Kind,
    archived: bool,
    progress: Option<Progress>,
    state: Option<WorkflowState>,
    version: nat)

  function Save(it: Item, st: WorkflowState): Item {
    it.(state := Some(st), progress := Some(StageProgress(st.stage)), version := it.version + 1)
  }

  /** What every workflow operation asks first. */
  predicate Open(it: Item) {
    !it.archived && it.kind != Todo
  }

  predicate Underway(it: Item) {
    Open(it) && it.state.Some? && it.state.value.stage != Done
  }

  /** None is a conflict, which leaves the item as it was; so below. */
  function Assign(it: Item, w: WorkflowId, stage: Stage): Option<Item> {
    if !Open(it) || it.state.Some? || !StageOf(w, stage) || stage !in {Backlog, Planning, Intake}
       || (it.progress in {Some(Started), Some(Complete)} && stage == Backlog)
    then None
    else Some(Save(it, Fresh(w, stage)))
  }

  /** `stored` says that the record's id is new and that its evidence resolves. */
  function Record(it: Item, id: Id, r: Review, stored: bool): Option<Item> {
    if !Underway(it) || !MayRecord(r.phase, it.state.value.stage)
       || (r.phase == Requirements && r.requirements == []) || !stored
    then None
    else Some(Save(it, it.state.value.(reviews := it.state.value.reviews[r.phase := id])))
  }

  function Targets(st: WorkflowState): seq<Stage> {
    if st.stage == Done then []
    else if st.stage == Blocked then (if st.resume.Some? then [st.resume.value] else [])
    else
      (if Forward(st.workflow, st.stage).Some? then [Forward(st.workflow, st.stage).value] else [])
      + (if Return(st.workflow, st.stage).Some? then [Return(st.workflow, st.stage).value] else [])
      + [Blocked]
  }

  /** The reviews that a return to `target` invalidates. */
  predicate Invalidates(target: Stage, p: Phase) {
    target in {Planning, Intake} || p in {Commit, Technical, CeoDelivery, Handoff, Requirements}
  }

  function Keep(reviews: map<Phase, Id>, target: Stage): map<Phase, Id> {
    map p | p in reviews && !Invalidates(target, p) :: reviews[p]
  }

  function Moved(st: WorkflowState, target: Stage, reason: string): WorkflowState {
    if target == Blocked then
      st.(stage := Blocked, resume := Some(st.stage), reason := reason, reviews := st.reviews - {Resolution})
    else if st.stage == Blocked then st.(stage := target, resume := None, reason := "")
    else if Return(st.workflow, st.stage) == Some(target) then
      st.(stage := target, reviews := Keep(st.reviews, target))
    else st.(stage := target)
  }

  predicate NeedsReason(st: WorkflowState, target: Stage) {
    target == Blocked || Return(st.workflow, st.stage) == Some(target)
  }

  function Transition(it: Item, v: View, done: set<Id>, target: Stage, reason: string): Option<Item> {
    if !Underway(it) || target !in Targets(it.state.value)
       || Gaps(v, it.kind, it.archived, it.state.value, target, done) != []
       || (NeedsReason(it.state.value, target) && Blank(reason))
    then None
    else Some(Save(it, Moved(it.state.value, target, reason)))
  }

  // ---- progress

  /** `evidence` says that some was given; `ledger` is the attested verdicts on requirements. */
  datatype Attestation = Attestation(evidence: bool, ledger: seq<RequirementVerdict>, stored: bool)

  predicate LedgerMeets(ledger: seq<RequirementVerdict>, requirements: set<Id>) {
    requirements <= (set x | x in ledger :: x.subject) && (forall x | x in ledger :: !x.outcome.Unmet?)
  }

  function Reopened(st: WorkflowState): WorkflowState {
    Fresh(st.workflow, if st.workflow == VibeCeo then Planning else Intake)
  }

  /** The state that a progress change leaves, or None when the change is refused. */
  function ProgressState(it: Item, v: View, done: set<Id>, target: Progress, a: Attestation)
    : Option<Option<WorkflowState>>
  {
    if it.kind == Proposal && v.disposition == Some(Rejected) && target == Complete then
      if !a.evidence then None
      else if it.state.None? then Some(None)
      else Some(Some(it.state.value.(stage := Done, resume := None, reason := "")))
    else if it.state.Some? then
      if it.progress == Some(Complete) && target == Started then Some(Some(Reopened(it.state.value)))
      else if target != StageProgress(it.state.value.stage) then None
      else if target == Complete && Gaps(v, it.kind, it.archived, it.state.value, Done, done) != [] then None
      else Some(it.state)
    else if target == Complete && it.kind != Todo then None
    else Some(None)
  }

  function SetProgress(it: Item, v: View, done: set<Id>, target: Progress, a: Attestation): Option<Item> {
    if it.archived || it.progress == Some(target) || (target == NotStarted && it.progress.Some?) then None
    else
      var st := ProgressState(it, v, done, target, a);
      if st.None? then None
      else if target == Complete && ((it.kind == Todo && !LedgerMeets(a.ledger, v.requirements))
                                      || !(v.blockers <= done))
      then None
      else if !a.stored then None
      else Some(it.(progress := Some(target), state := st.value, version := it.version + 1))
  }

  // ---- what is written

  /** A stored item: a valid state, a base Todo without one, and a progress that agrees with the stage. */
  predicate Consistent(it: Item) {
    && (it.state.Some? ==> it.kind != Todo && it.state.value.Valid())
    && (it.state.Some? && it.progress.Some? ==> it.progress.value == StageProgress(it.state.value.stage))
  }

  /** And one that was just written is classified. */
  predicate Written(it: Item) {
    Consistent(it) && it.progress.Some?
  }

  lemma ForwardStays(w: WorkflowId, s: Stage)
    requires Forward(w, s).Some?
    ensures Position(w, Forward(w, s).value) == Some(Position(w, s).value + 1)
  {
    IndexIsPosition(w, Position(w, s).value + 1);
    hide Position;
  }

  lemma ReturnGoesBack(w: WorkflowId, s: Stage)
    requires Return(w, s).Some?
    ensures Position(w, s).Some? && Position(w, Return(w, s).value).Some?
    ensures 1 <= Position(w, Return(w, s).value).value < Position(w, s).value
    ensures Return(w, s).value in {Planning, Intake} <==> Position(w, Return(w, s).value).value == 1
  {
  }

  lemma AssignWrites(it: Item, w: WorkflowId, stage: Stage)
    requires Consistent(it) && Assign(it, w, stage).Some?
    ensures Written(Assign(it, w, stage).value)
  {
  }

  lemma RecordWrites(it: Item, id: Id, r: Review, stored: bool)
    requires Consistent(it) && Record(it, id, r, stored).Some?
    ensures Written(Record(it, id, r, stored).value)
  {
  }

  lemma TargetStays(st: WorkflowState, target: Stage)
    requires st.Valid() && target in Targets(st)
    ensures StageOf(st.workflow, target) && st.stage != Done
    ensures st.stage == Blocked ==> Some(target) == st.resume
  {
    if Return(st.workflow, st.stage).Some? {
      ReturnGoesBack(st.workflow, st.stage);
    }
    if Forward(st.workflow, st.stage).Some? {
      ForwardStays(st.workflow, st.stage);
    }
    hide Forward, Rows, Return;
  }

  lemma MovedValid(st: WorkflowState, target: Stage, reason: string)
    requires st.Valid() && target in Targets(st) && (NeedsReason(st, target) ==> !Blank(reason))
    ensures Moved(st, target, reason).Valid()
  {
    hide Targets, Keep, Blank;
    TargetStays(st, target);
  }

  lemma TransitionWrites(it: Item, v: View, done: set<Id>, target: Stage, reason: string)
    requires Consistent(it) && Transition(it, v, done, target, reason).Some?
    ensures Written(Transition(it, v, done, target, reason).value)
  {
    hide Gaps, Targets, Moved;
    MovedValid(it.state.value, target, reason);
  }

  lemma SetProgressWrites(it: Item, v: View, done: set<Id>, target: Progress, a: Attestation)
    requires Consistent(it) && SetProgress(it, v, done, target, a).Some?
    ensures Written(SetProgress(it, v, done, target, a).value)
  {
    hide Gaps;
  }

  // ---- the item as it is edited

  class WorkItem {
    var item: Item

    constructor (it: Item)
      ensures item == it
    {
      item := it;
    }

    method Store(st: WorkflowState)
      modifies this
      ensures item == Save(old(item), st)
    {
      item := item.(state := Some(st), progress := Some(StageProgress(st.stage)));
      item := item.(version := item.version + 1);
    }

    /** Drops the invalidated reviews one by one. */
    static method Invalidate(reviews: map<Phase, Id>, target: Stage) returns (kept: map<Phase, Id>)
      ensures kept == Keep(reviews, target)
    {
      kept := reviews;
      var rest := if target in {Planning, Intake} then reviews.Keys
                  else {Commit, Technical, CeoDelivery, Handoff, Requirements};
      ghost var all := rest;
      assert Keep(reviews, target) == reviews - all;
      hide Keep, Invalidates;
      while rest != {}
        invariant rest <= all && kept == reviews - (all - rest)
        decreases |rest|
      {
        var p :| p in rest;
        kept := kept - {p};
        rest := rest - {p};
      }
      assert all - {} == all;
    }

    method Move(v: View, done: set<Id>, target: Stage, reason: string) returns (ok: bool)
      modifies this
      ensures ok == Transition(old(item), v, done, target, reason).Some?
      ensures item == if ok then Transition(old(item), v, done, target, reason).value else old(item)
    {
      hide Gaps, Targets, Keep;
      if !Underway(item) { return false; }
      var st := item.state.value;
      if target !in Targets(st) || Gaps(v, item.kind, item.archived, st, target, done) != [] { return false; }
      if target == Blocked {
        if Blank(reason) { return false; }
        st := st.(resume := Some(st.stage), reason := reason);
        st := st.(reviews := st.reviews - {Resolution});
      } else if st.stage == Blocked {
        st := st.(resume := None, reason := "");
      } else if Return(st.workflow, st.stage) == Some(target) {
        if Blank(reason) { return false; }
        var kept := Invalidate(st.reviews, target);
        st := st.(reviews := kept);
      }
      st := st.(stage := target);
      Store(st);
      return true;
    }

    method Review(id: Id, r: Review, stored: bool) returns (ok: bool)
      modifies this
      ensures ok == Record(old(item), id, r, stored).Some?
      ensures item == if ok then Record(old(item), id, r, stored).value else old(item)
    {
      if !Underway(item) || !MayRecord(r.phase, item.state.value.stage) { return false; }
      if (r.phase == Requirements && r.requirements == []) || !stored { return false; }
      var st := item.state.value;
      st := st.(reviews := st.reviews[r.phase := id]);
      Store(st);
      return true;
    }

    /** `set_progress`: checks in order, then one write. */
    method Progress(v: View, done: set<Id>, target: Progress, a: Attestation) returns (ok: bool)
      modifies this
      ensures ok == SetProgress(old(item), v, done, target, a).Some?
      ensures item == if ok then SetProgress(old(item), v, done, target, a).value else old(item)
    {
      hide Gaps, LedgerMeets;
      if item.archived || item.progress == Some(target) { return false; }
      if target == NotStarted && item.progress.Some? { return false; }
      var state := item.state;
      if item.kind == Proposal && v.disposition == Some(Rejected) && target == Complete {
        if !a.evidence { return false; }
        if state.Some? { state := Some(state.value.(stage := Done, resume := None, reason := "")); }
      } else if state.Some? {
        if item.progress == Some(Complete) && target == Started {
          state := Some(Reopened(state.value));
        } else if target != StageProgress(state.value.stage) {
          return false;
        }
        if target == Complete && Gaps(v, item.kind, item.archived, state.value, Done, done) != [] { return false; }
      } else if target == Complete && item.kind != Todo {
        return false;
      }
      if target == Complete {
        if item.kind == Todo && !LedgerMeets(a.ledger, v.requirements) { return false; }
        if !(v.blockers <= done) { return false; }
      }
      if !a.stored { return false; }
      item := item.(progress := Some(target), state := state, version := item.version + 1);
      return true;
    }

    method Classify(w: WorkflowId, stage: Stage) returns (ok: bool)
      modifies this
      ensures ok == Assign(old(item), w, stage).Some?
      ensures item == if ok then Assign(old(item), w, stage).value else old(item)
    {
      if !Open(item) || item.state.Some? { return false; }
      if !StageOf(w, stage) || stage !in {Backlog, Planning, Intake} { return false; }
      if item.progress in {Some(Started), Some(Complete)} && stage == Backlog { return false; }
      Store(Fresh(w, stage));
      return true;
    }
  }
}
