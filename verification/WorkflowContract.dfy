/** The two staged workflows, their states, and the gates between their stages. */
module WorkflowContract {
  import opened Basics

  type Id = string

  datatype WorkflowId = VibeCeo | Execution

  datatype Stage =
    | Backlog | Planning | DeveloperPlanApproval | CeoPlanApproval | Ready | InProgress
    | CeoDeliveryApproval | TechnicalReview | HandoffVerification
    | Intake | RequirementsNormalized | BaselineCaptured | ImplementingCommit | CommitReadyForReview
    | LayerReview | ReconcilingLedger | DeliveryPacketReady
    | Done | Blocked

  datatype Phase =
    | Requirements | Baseline | DeveloperPlan | CeoPlan | Commit | CeoDelivery | Technical | Handoff | Resolution

  datatype Layer = Product | Architecture | Implementation | EndToEnd | Design | Ux

  const LAYERS := {Product, Architecture, Implementation, EndToEnd, Design, Ux}

  datatype Progress = NotStarted | Started | Complete

  /** The stages of a workflow in order, the waiting stage last. */
  function Rows(w: WorkflowId): seq<Stage> {
    match w
    case VibeCeo =>
      [Backlog, Planning, DeveloperPlanApproval, CeoPlanApproval, Ready, InProgress,
       CeoDeliveryApproval, TechnicalReview, HandoffVerification, Done, Blocked]
    case Execution =>
      [Backlog, Intake, RequirementsNormalized, BaselineCaptured, ImplementingCommit, CommitReadyForReview,
       LayerReview, ReconcilingLedger, DeliveryPacketReady, Done, Blocked]
  }

  /** Where a stage stands in its workflow. */
  function Position(w: WorkflowId, s: Stage): Option<nat> {
    match s
    case Backlog => Some(0)
    case Done => Some(9)
    case Blocked => Some(10)
    case Planning => if w.VibeCeo? then Some(1) else None
    case DeveloperPlanApproval => if w.VibeCeo? then Some(2) else None
    case CeoPlanApproval => if w.VibeCeo? then Some(3) else None
    case Ready => if w.VibeCeo? then Some(4) else None
    case InProgress => if w.VibeCeo? then Some(5) else None
    case CeoDeliveryApproval => if w.VibeCeo? then Some(6) else None
    case TechnicalReview => if w.VibeCeo? then Some(7) else None
    case HandoffVerification => if w.VibeCeo? then Some(8) else None
    case Intake => if w.Execution? then Some(1) else None
    case RequirementsNormalized => if w.Execution? then Some(2) else None
    case BaselineCaptured => if w.Execution? then Some(3) else None
    case ImplementingCommit => if w.Execution? then Some(4) else None
    case CommitReadyForReview => if w.Execution? then Some(5) else None
    case LayerReview => if w.Execution? then Some(6) else None
    case ReconcilingLedger => if w.Execution? then Some(7) else None
    case DeliveryPacketReady => if w.Execution? then Some(8) else None
  }

  predicate StageOf(w: WorkflowId, s: Stage) {
    Position(w, s).Some?
  }

  lemma PositionIsIndex(w: WorkflowId, s: Stage)
    ensures Position(w, s).Some? ==> Position(w, s).value < |Rows(w)| && Rows(w)[Position(w, s).value] == s
  {
  }

  lemma IndexIsPosition(w: WorkflowId, k: nat)
    requires k < |Rows(w)|
    ensures Position(w, Rows(w)[k]) == Some(k)
  {
    if k <= 4 {
      assert k == 0 || k == 1 || k == 2 || k == 3 || k == 4;
    } else {
      assert k == 5 || k == 6 || k == 7 || k == 8 || k == 9 || k == 10;
    }
  }

  /** `Position` is the index in the table of stages. */
  lemma PositionExact(w: WorkflowId, s: Stage)
    ensures Position(w, s).Some? <==> s in Rows(w)
    ensures Position(w, s).Some? ==> Position(w, s).value < |Rows(w)| && Rows(w)[Position(w, s).value] == s
  {
    PositionIsIndex(w, s);
    hide Position;
    if s in Rows(w) {
      var k :| 0 <= k < |Rows(w)| && Rows(w)[k] == s;
      IndexIsPosition(w, k);
    }
  }

  /** The next stage: every stage but the last two rows has one. */
  function Forward(w: WorkflowId, s: Stage): Option<Stage> {
    var p := Position(w, s);
    if p.Some? && p.value < 9 then Some(Rows(w)[p.value + 1]) else None
  }

  function Return(w: WorkflowId, s: Stage): Option<Stage> {
    match w
    case VibeCeo =>
      if s in {InProgress, DeveloperPlanApproval, CeoPlanApproval} then Some(Planning)
      else if s in {CeoDeliveryApproval, TechnicalReview, HandoffVerification} then Some(InProgress)
      else None
    case Execution =>
      if s == ImplementingCommit then Some(Intake)
      else if s in {CommitReadyForReview, LayerReview, ReconcilingLedger, DeliveryPacketReady}
      then Some(ImplementingCommit)
      else None
  }

  function EntryReviews(s: Stage): seq<Phase> {
    match s
    case DeveloperPlanApproval => [Requirements]
    case CeoPlanApproval => [DeveloperPlan]
    case Ready => [CeoPlan]
    case RequirementsNormalized => [Requirements]
    case BaselineCaptured => [Baseline]
    case CommitReadyForReview => [Commit]
    case ReconcilingLedger => [Technical]
    case TechnicalReview => [CeoDelivery]
    case HandoffVerification => [Technical]
    case Done => [Technical, Handoff]
    case _ => []
  }

  predicate CompletionGate(s: Stage) {
    s in {CeoDeliveryApproval, DeliveryPacketReady, HandoffVerification, Done}
  }

  /** The reviews asked for on the way into `target`. */
  function RequiredReviews(w: WorkflowId, target: Stage): seq<Phase> {
    EntryReviews(target)
    + if target != Done then []
      else if w.VibeCeo? then [DeveloperPlan, CeoPlan, CeoDelivery]
      else [Baseline, Commit]
  }

  /** The stages at which a phase may be recorded; requirements may be recorded anywhere. */
  function OwnGates(p: Phase): set<Stage> {
    match p
    case DeveloperPlan => {DeveloperPlanApproval}
    case CeoPlan => {CeoPlanApproval}
    case CeoDelivery => {CeoDeliveryApproval}
    case Baseline => {RequirementsNormalized}
    case Commit => {ImplementingCommit}
    case Technical => {TechnicalReview, LayerReview}
    case Handoff => {HandoffVerification, DeliveryPacketReady}
    case Resolution => {Blocked}
    case Requirements => {}
  }

  predicate MayRecord(p: Phase, s: Stage) {
    p.Requirements? || s in OwnGates(p)
  }

  function StageProgress(s: Stage): Progress {
    if s == Backlog then NotStarted else if s == Done then Complete else Started
  }

  datatype WorkflowState = WorkflowState(
    workflow: WorkflowId,
    stage: Stage,
    resume: Option<Stage>,
    reason: string,
    reviews: map<Phase, Id>)
  {
    /** `WorkflowState.valid`. */
    predicate Valid() {
      && StageOf(workflow, stage)
      && (resume.Some? ==> StageOf(workflow, resume.value) && resume.value != Done && resume.value != Blocked)
      && (stage == Blocked <==> resume.Some?)
      && (stage == Blocked ==> !Blank(reason))
    }

    /** The stage the work is at, seen through a block. */
    function Effective(): Stage {
      if stage == Blocked && resume.Some? then resume.value else stage
    }
  }

  /** Only white space. */
  predicate Blank(s: string) {
    forall c | c in s :: c in {' ', '\t', '\n', '\r', '\U{0b}', '\U{0c}'}
  }

  function Fresh(w: WorkflowId, s: Stage): WorkflowState {
    WorkflowState(w, s, None, "", map[])
  }

  // ---- what a gate reads

  datatype Verdict = Approved | ChangesRequested | NotApplicable

  datatype Outcome = Met | Unmet | Excluded

  datatype RequirementVerdict = RequirementVerdict(subject: Id, outcome: Outcome)

  datatype LayerVerdict = LayerVerdict(layer: Layer, verdict: Verdict)

  datatype Review = Review(
    phase: Phase,
    verdict: Verdict,
    evidence: set<Id>,
    requirements: seq<RequirementVerdict>,
    layers: seq<LayerVerdict>)
  {
    /** Approved with evidence; a technical review covers every layer and asks for no change. */
    predicate Approval() {
      && verdict.Approved? && evidence != {}
      && (phase.Technical? ==>
            && (set x | x in layers :: x.layer) == LAYERS
            && (forall x | x in layers :: !x.verdict.ChangesRequested?))
    }

    /** An approved ledger of requirements that leaves nothing unmet. */
    predicate Satisfied() {
      verdict.Approved? && requirements != [] && (forall x | x in requirements :: !x.outcome.Unmet?)
    }

    function Subjects(): set<Id> {
      set x | x in requirements :: x.subject
    }

    function Excluded(): set<Id> {
      set x | x in requirements && x.outcome.Excluded? :: x.subject
    }
  }

  datatype RecordKind = DecisionRecord | HandoffRecord | PacketRecord

  function RecordKindOf(p: Phase): RecordKind {
    if p in {DeveloperPlan, CeoPlan, CeoDelivery, Resolution} then DecisionRecord
    else if p == Handoff then HandoffRecord
    else PacketRecord
  }

  datatype RecordKey = RecordKey(kind: RecordKind, id: Id)

  datatype Disposition = Accepted | Rejected

  datatype Kind = Todo | Proposal | Initiative | Project | Issue | Task

  /**
   What the graph shows about one item. `current` holds the review records that can be trusted;
   `WorkflowRecords` computes it from the stored records and the graph.
   */
  datatype View = View(
    current: map<RecordKey, Review>,
    requirements: set<Id>,
    children: set<Id>,
    blockers: set<Id>,
    disposition: Option<Disposition>)
  {
    function ReviewOf(state: WorkflowState, p: Phase): Option<Review> {
      if p !in state.reviews then None
      else
        var key := RecordKey(RecordKindOf(p), state.reviews[p]);
        if key in current && current[key].phase == p then Some(current[key]) else None
    }

    predicate Approves(state: WorkflowState, p: Phase) {
      ReviewOf(state, p).Some? && ReviewOf(state, p).value.Approval()
    }

    function Exclusions(state: WorkflowState): set<Id> {
      var ledger := ReviewOf(state, Requirements);
      if ledger.None? then {} else ledger.value.Excluded()
    }
  }

  datatype Gap =
    | ArchivedWork
    | InputMissing
    | ApprovalMissing(phase: Phase)
    | LedgerUnsatisfied
    | LedgerIncomplete
    | ChildOpen
    | BlockerOpen
    | DispositionMissing
    | NoGateEvidence
    | AttestationInvalid

  /** Whether the ledger of requirements is approved and leaves nothing unmet. */
  predicate LedgerSatisfied(v: View, state: WorkflowState) {
    v.ReviewOf(state, Requirements).Some? && v.ReviewOf(state, Requirements).value.Satisfied()
  }

  predicate LedgerCovers(v: View, state: WorkflowState) {
    var ledger := v.ReviewOf(state, Requirements);
    ledger.Some? ==> v.requirements <= ledger.value.Subjects()
  }

  /** `done` holds the items whose progress is complete. */
  function CompletionGaps(v: View, state: WorkflowState, done: set<Id>): seq<Gap> {
    (if LedgerSatisfied(v, state) then [] else [LedgerUnsatisfied])
    + (if LedgerCovers(v, state) then [] else [LedgerIncomplete])
    + (if v.children <= done + v.Exclusions(state) then [] else [ChildOpen])
    + (if v.blockers <= done then [] else [BlockerOpen])
  }

  function ApprovalGaps(v: View, state: WorkflowState, phases: seq<Phase>): (gaps: seq<Gap>)
    ensures gaps == [] <==> forall p | p in phases :: v.Approves(state, p)
    ensures forall g | g in gaps :: g.ApprovalMissing? && g.phase in phases
  {
    if phases == [] then []
    else (if v.Approves(state, phases[0]) then [] else [ApprovalMissing(phases[0])])
         + ApprovalGaps(v, state, phases[1..])
  }

  /** Why `target` may not be entered. */
  function Gaps(v: View, kind: Kind, archived: bool, state: WorkflowState, target: Stage, done: set<Id>): seq<Gap> {
    if archived then [ArchivedWork]
    else if target == Blocked then []
    else if state.stage == Blocked then (if v.Approves(state, Resolution) then [] else [InputMissing])
    else if Return(state.workflow, state.stage) == Some(target) then []
    else
      ApprovalGaps(v, state, RequiredReviews(state.workflow, target))
      + (if CompletionGate(target) then CompletionGaps(v, state, done) else [])
      + (if target == Done && kind == Proposal && v.disposition.None? then [DispositionMissing] else [])
  }
}
