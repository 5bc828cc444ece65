/**
 The gates of the two workflows, told by what each stage is for. Nothing here looks at the tables of
 entry reviews, completion gates and returns; `GapsExact` says that those tables mean the same.
 */
module WorkflowGates {
  import opened Basics
  import opened WorkflowContract

  function Rank(w: WorkflowId, s: Stage): int {
    if Position(w, s).Some? then Position(w, s).value else -1
  }

  /** Where planning starts. */
  function Outset(w: WorkflowId): Stage {
    if w.VibeCeo? then Planning else Intake
  }

  /** Where the work itself is done. */
  function Making(w: WorkflowId): Stage {
    if w.VibeCeo? then InProgress else ImplementingCommit
  }

  function LastGate(w: WorkflowId): Stage {
    if w.VibeCeo? then HandoffVerification else DeliveryPacketReady
  }

  /** A phase with a gate of its own on the way to done. */
  predicate Gated(p: Phase) {
    p != Requirements && p != Resolution
  }

  /** The gate at which a phase is recorded in a workflow. */
  function GateOf(w: WorkflowId, p: Phase): Stage
    requires Gated(p)
  {
    match p
    case DeveloperPlan => DeveloperPlanApproval
    case CeoPlan => CeoPlanApproval
    case CeoDelivery => CeoDeliveryApproval
    case Baseline => RequirementsNormalized
    case Commit => ImplementingCommit
    case Technical => if w.VibeCeo? then TechnicalReview else LayerReview
    case Handoff => LastGate(w)
  }

  /** Every phase that has its gate in the workflow is demanded at done. */
  predicate Demanded(w: WorkflowId, p: Phase) {
    Gated(p) && StageOf(w, GateOf(w, p))
  }

  /** Plans are made before the work is split, so they do not depend on the children. */
  predicate IsPlan(p: Phase) {
    p in {DeveloperPlan, CeoPlan, Baseline}
  }

  /** The stages at which the delivery as a whole is judged. */
  predicate Judged(w: WorkflowId, s: Stage) {
    s == Done || s == LastGate(w) || (w.VibeCeo? && s == CeoDeliveryApproval)
  }

  /** From a later stage back to the making, and from the making or the approval of a plan back to the outset. */
  predicate GoesBack(w: WorkflowId, from: Stage, to: Stage) {
    || (to == Making(w) && Rank(w, Making(w)) < Rank(w, from) < Rank(w, Done))
    || (to == Outset(w) && (from == Making(w) || (w.VibeCeo? && from in {DeveloperPlanApproval, CeoPlanApproval})))
  }

  // ---- what a gate asks

  ghost predicate Covers(layers: seq<LayerVerdict>, l: Layer) {
    exists x | x in layers :: x.layer == l
  }

  /** An approval with evidence; a technical one speaks of every layer, and asks for no change in any. */
  ghost predicate Endorses(r: Review) {
    && r.verdict == Approved && r.evidence != {}
    && (r.phase == Technical ==>
          (forall l: Layer :: Covers(r.layers, l)) && (forall x | x in r.layers :: x.verdict != ChangesRequested))
  }

  ghost predicate Lists(ledger: seq<RequirementVerdict>, id: Id) {
    exists x | x in ledger :: x.subject == id
  }

  ghost predicate Excludes(ledger: seq<RequirementVerdict>, id: Id) {
    exists x | x in ledger :: x.subject == id && x.outcome == Excluded
  }

  /** The ledger speaks of every requirement and leaves nothing unmet. */
  ghost predicate Settles(ledger: seq<RequirementVerdict>, requirements: set<Id>) {
    (forall q | q in requirements :: Lists(ledger, q)) && (forall x | x in ledger :: x.outcome != Unmet)
  }

  /** An approved ledger settles the requirements, and every open child is excluded in it; no blocker is open. */
  ghost predicate Completes(r: Review, requirements: set<Id>, children: set<Id>, blockers: set<Id>, done: set<Id>) {
    && r.verdict == Approved && r.requirements != [] && Settles(r.requirements, requirements)
    && (forall c | c in children :: c in done || Excludes(r.requirements, c))
    && (forall b | b in blockers :: b in done)
  }

  ghost predicate Endorsed(v: View, st: WorkflowState, p: Phase) {
    v.ReviewOf(st, p).Some? && Endorses(v.ReviewOf(st, p).value)
  }

  ghost predicate Completed(v: View, st: WorkflowState, done: set<Id>) {
    && v.ReviewOf(st, Requirements).Some?
    && Completes(v.ReviewOf(st, Requirements).value, v.requirements, v.children, v.blockers, done)
  }

  /** The phases whose gate is the stage before `s`. */
  predicate JustBefore(w: WorkflowId, p: Phase, s: Stage) {
    Demanded(w, p) && Rank(w, GateOf(w, p)) + 1 == Rank(w, s)
  }

  /**
   What it takes to stand at `s`: the gate before it is passed, planning has given an endorsed ledger, where
   the delivery is judged it is complete, and at done every gate is passed and a Proposal is disposed of.
   */
  ghost predicate MayStand(v: View, kind: Kind, st: WorkflowState, s: Stage, done: set<Id>) {
    && (forall p | JustBefore(st.workflow, p, s) :: Endorsed(v, st, p))
    && (Rank(st.workflow, s) == Rank(st.workflow, Outset(st.workflow)) + 1 ==> Endorsed(v, st, Requirements))
    && (Judged(st.workflow, s) ==> Completed(v, st, done))
    && (s == Done ==> (forall p | Demanded(st.workflow, p) :: Endorsed(v, st, p))
                      && (kind == Proposal ==> v.disposition.Some?))
  }

  // ---- the tables mean this

  lemma EndorsesExact(r: Review)
    ensures r.Approval() <==> Endorses(r)
  {
    var named := set x | x in r.layers :: x.layer;
    forall l: Layer ensures l in LAYERS && (l in named <==> Covers(r.layers, l)) {
      assert l.Product? || l.Architecture? || l.Implementation? || l.EndToEnd? || l.Design? || l.Ux?;
    }
    hide Covers;
    if forall l: Layer :: Covers(r.layers, l) {
      assert named == LAYERS;
    }
  }

  lemma SettlesExact(ledger: seq<RequirementVerdict>, requirements: set<Id>)
    ensures requirements <= (set x | x in ledger :: x.subject) <==> forall q | q in requirements :: Lists(ledger, q)
  {
    assert forall q :: q in (set x | x in ledger :: x.subject) <==> Lists(ledger, q);
  }

  lemma CompletesExact(v: View, st: WorkflowState, done: set<Id>)
    ensures CompletionGaps(v, st, done) == [] <==> Completed(v, st, done)
  {
    if v.ReviewOf(st, Requirements).Some? {
      var r := v.ReviewOf(st, Requirements).value;
      SettlesExact(r.requirements, v.requirements);
      assert forall c :: c in r.Excluded() <==> Excludes(r.requirements, c);
    }
  }

  /** The phases asked on the way into `target`. */
  predicate Asked(w: WorkflowId, target: Stage, p: Phase) {
    || JustBefore(w, p, target)
    || (p == Requirements && Rank(w, target) == Rank(w, Outset(w)) + 1)
    || (target == Done && Demanded(w, p))
  }

  lemma CeoEntry(target: Stage, p: Phase)
    requires StageOf(VibeCeo, target) && target != Done && target != Blocked
    ensures p in EntryReviews(target) <==> Asked(VibeCeo, target, p)
  {
  }

  lemma ExecutionEntry(target: Stage, p: Phase)
    requires StageOf(Execution, target) && target != Done && target != Blocked
    ensures p in EntryReviews(target) <==> Asked(Execution, target, p)
  {
  }

  lemma EntryExact(w: WorkflowId, target: Stage, p: Phase)
    requires StageOf(w, target) && target != Done && target != Blocked
    ensures p in EntryReviews(target) <==> Asked(w, target, p)
  {
    hide EntryReviews, Asked;
    if w.VibeCeo? {
      CeoEntry(target, p);
    } else {
      ExecutionEntry(target, p);
    }
  }

  lemma DoneExact(w: WorkflowId, p: Phase)
    ensures p in RequiredReviews(w, Done) <==> Asked(w, Done, p)
  {
    if w.VibeCeo? {
      assert RequiredReviews(w, Done) == [Technical, Handoff, DeveloperPlan, CeoPlan, CeoDelivery];
    } else {
      assert RequiredReviews(w, Done) == [Technical, Handoff, Baseline, Commit];
    }
  }

  lemma RequiredExact(w: WorkflowId, target: Stage, p: Phase)
    requires StageOf(w, target) && target != Blocked
    ensures p in RequiredReviews(w, target) <==> Asked(w, target, p)
  {
    if target == Done {
      DoneExact(w, p);
    } else {
      EntryExact(w, target, p);
      hide EntryReviews, Asked;
    }
  }

  lemma ReturnExact(w: WorkflowId, from: Stage, to: Stage)
    requires StageOf(w, from)
    ensures Return(w, from) == Some(to) <==> GoesBack(w, from, to)
  {
  }

  lemma JudgedExact(w: WorkflowId, target: Stage)
    requires StageOf(w, target)
    ensures CompletionGate(target) <==> Judged(w, target)
  {
  }

  lemma ApprovesExact(v: View, st: WorkflowState, p: Phase)
    ensures v.Approves(st, p) <==> Endorsed(v, st, p)
  {
    hide Review.Approval, Endorses;
    if v.ReviewOf(st, p).Some? {
      EndorsesExact(v.ReviewOf(st, p).value);
    }
  }

  lemma AskedApproved(v: View, st: WorkflowState, target: Stage)
    requires StageOf(st.workflow, target) && target != Blocked
    ensures ApprovalGaps(v, st, RequiredReviews(st.workflow, target)) == []
        <==> forall p | Asked(st.workflow, target, p) :: Endorsed(v, st, p)
  {
    hide RequiredReviews, Asked, View.Approves, Endorsed, Position;
    forall p ensures p in RequiredReviews(st.workflow, target) <==> Asked(st.workflow, target, p) {
      RequiredExact(st.workflow, target, p);
    }
    forall p ensures v.Approves(st, p) <==> Endorsed(v, st, p) {
      ApprovesExact(v, st, p);
    }
  }

  lemma StandExact(v: View, kind: Kind, st: WorkflowState, s: Stage, done: set<Id>)
    requires StageOf(st.workflow, s) && s != Blocked
    ensures && ApprovalGaps(v, st, RequiredReviews(st.workflow, s)) == []
            && (CompletionGate(s) ==> CompletionGaps(v, st, done) == [])
            && !(s == Done && kind == Proposal && v.disposition.None?)
        <==> MayStand(v, kind, st, s, done)
  {
    hide RequiredReviews, CompletionGate, CompletionGaps, Endorsed, Completed, Judged, Position, JustBefore, Demanded;
    hide ApprovalGaps;
    AskedApproved(v, st, s);
    JudgedExact(st.workflow, s);
    CompletesExact(v, st, done);
  }

  /**
   No gap stands in the way of `target` if and only if: nothing is asked for a block, a resolution for leaving
   one, nothing for going back, and otherwise all that standing at `target` takes.
   */
  lemma GapsExact(v: View, kind: Kind, archived: bool, st: WorkflowState, target: Stage, done: set<Id>)
    requires StageOf(st.workflow, st.stage) && StageOf(st.workflow, target)
    ensures Gaps(v, kind, archived, st, target, done) == [] <==>
            && !archived
            && (|| target == Blocked
                || (if st.stage == Blocked then Endorsed(v, st, Resolution)
                    else GoesBack(st.workflow, st.stage, target) || MayStand(v, kind, st, target, done)))
  {
    hide RequiredReviews, CompletionGate, CompletionGaps, Endorsed, MayStand, GoesBack, Return, Position;
    hide View.Approves, ApprovalGaps;
    ApprovesExact(v, st, Resolution);
    ReturnExact(st.workflow, st.stage, target);
    if target != Blocked {
      StandExact(v, kind, st, target, done);
    }
  }
}
