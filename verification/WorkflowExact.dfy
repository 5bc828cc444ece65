/** When each operation on an item is granted, and what it leaves, in terms of the gates. */
module WorkflowExact {
  import opened Basics
  import opened WorkflowContract
  import opened WorkflowGates
  import opened Workflows

  // ---- assignment

  /** Work may be classified at the start of a workflow only, and started work not as backlog. */
  lemma AssignExactly(it: Item, w: WorkflowId, stage: Stage)
    ensures Assign(it, w, stage).Some? <==>
            && !it.archived && it.kind != Todo && it.state.None?
            && stage in {Backlog, Outset(w)}
            && (stage == Backlog ==> it.progress != Some(Started) && it.progress != Some(Complete))
    ensures Assign(it, w, stage).Some? ==>
            var t := Assign(it, w, stage).value;
            && t.state == Some(WorkflowState(w, stage, None, "", map[])) && t.version == it.version + 1
            && t.kind == it.kind && t.archived == it.archived
            && t.progress == Some(if stage == Backlog then NotStarted else Started)
  {
  }

  // ---- reviews

  /** A ledger may be recorded at any time, a resolution in a block, and any other phase at its gate only. */
  predicate AtItsGate(st: WorkflowState, r: Review) {
    if r.phase == Requirements then r.requirements != []
    else if r.phase == Resolution then st.stage == Blocked
    else st.stage == GateOf(st.workflow, r.phase)
  }

  lemma GateExact(st: WorkflowState, r: Review)
    requires StageOf(st.workflow, st.stage)
    ensures MayRecord(r.phase, st.stage) && !(r.phase == Requirements && r.requirements == []) <==> AtItsGate(st, r)
  {
  }

  /** What is decided at an approval or in a block is a Decision, a handoff is a Handoff, the rest are packets. */
  lemma RecordKindExact(p: Phase)
    ensures RecordKindOf(p) == DecisionRecord <==>
            p == Resolution
            || (Gated(p) && GateOf(VibeCeo, p) in {DeveloperPlanApproval, CeoPlanApproval, CeoDeliveryApproval})
    ensures RecordKindOf(p) == HandoffRecord <==> Gated(p) && forall w :: GateOf(w, p) == LastGate(w)
  {
    if RecordKindOf(p) != HandoffRecord && Gated(p) {
      assert GateOf(VibeCeo, p) != LastGate(VibeCeo);
    }
  }

  lemma RecordExactly(it: Item, id: Id, r: Review, stored: bool)
    requires Consistent(it)
    ensures Record(it, id, r, stored).Some? <==>
            && !it.archived && it.state.Some? && it.state.value.stage != Done
            && AtItsGate(it.state.value, r) && stored
    ensures Record(it, id, r, stored).Some? ==>
            var t, st := Record(it, id, r, stored).value, it.state.value;
            && t.kind == it.kind && !t.archived && t.version == it.version + 1 && t.state.Some?
            && t.state.value.workflow == st.workflow && t.state.value.stage == st.stage
            && t.state.value.resume == st.resume && t.state.value.reason == st.reason
            && t.state.value.reviews == st.reviews[r.phase := id]
  {
    hide MayRecord, AtItsGate, Position;
    if it.state.Some? {
      GateExact(it.state.value, r);
    }
  }

  // ---- transitions

  /** Whether a transition of unarchived, unfinished work is granted. */
  ghost predicate MayMove(kind: Kind, st: WorkflowState, v: View, done: set<Id>, target: Stage, reason: string) {
    if target == Blocked then st.stage != Blocked && !Blank(reason)
    else if st.stage == Blocked then st.resume == Some(target) && Endorsed(v, st, Resolution)
    else if GoesBack(st.workflow, st.stage, target) then !Blank(reason)
    else Rank(st.workflow, target) == Rank(st.workflow, st.stage) + 1 && MayStand(v, kind, st, target, done)
  }

  /** The reviews that a move keeps: a block asks anew for its resolution, and going back voids what comes after. */
  predicate Survives(st: WorkflowState, target: Stage, p: Phase) {
    if target == Blocked then p != Resolution
    else if st.stage != Blocked && GoesBack(st.workflow, st.stage, target) then
      target == Making(st.workflow) && (IsPlan(p) || p == Resolution)
    else true
  }

  ghost predicate Lands(st: WorkflowState, target: Stage, reason: string, to: WorkflowState) {
    && to.workflow == st.workflow && to.stage == target
    && to.resume == (if target == Blocked then Some(st.stage) else None)
    && (target == Blocked ==> to.reason == reason)
    && (st.stage == Blocked ==> to.reason == "")
    && (forall p :: p in to.reviews <==> p in st.reviews && Survives(st, target, p))
    && (forall p | p in to.reviews :: p in st.reviews && to.reviews[p] == st.reviews[p])
  }

  lemma ForwardExact(w: WorkflowId, s: Stage, t: Stage)
    requires StageOf(w, s) && s != Done && s != Blocked
    ensures Forward(w, s) == Some(t) <==> Rank(w, t) == Rank(w, s) + 1
  {
    ForwardStays(w, s);
    if Rank(w, t) == Rank(w, s) + 1 {
      PositionIsIndex(w, t);
    }
    hide Position, Rows;
  }

  lemma TargetsExact(st: WorkflowState, target: Stage)
    requires st.Valid() && st.stage != Done
    ensures target in Targets(st) <==>
            if st.stage == Blocked then st.resume == Some(target)
            else target == Blocked || GoesBack(st.workflow, st.stage, target)
                 || Rank(st.workflow, target) == Rank(st.workflow, st.stage) + 1
  {
    hide Forward, Return, GoesBack, Position, Blank;
    ReturnExact(st.workflow, st.stage, target);
    if st.stage != Blocked {
      ForwardExact(st.workflow, st.stage, target);
      ForwardThere(st.workflow, st.stage);
    }
  }

  lemma ForwardThere(w: WorkflowId, s: Stage)
    requires StageOf(w, s) && s != Done && s != Blocked
    ensures Forward(w, s).Some?
  {
  }

  lemma BlockStays(w: WorkflowId, t: Stage)
    ensures !GoesBack(w, Blocked, t) && !GoesBack(w, t, Blocked)
  {
  }

  lemma GrantedExact(kind: Kind, st: WorkflowState, v: View, done: set<Id>, target: Stage, reason: string)
    requires st.Valid() && st.stage != Done
    ensures target in Targets(st) && Gaps(v, kind, false, st, target, done) == []
            && (NeedsReason(st, target) ==> !Blank(reason))
        <==> MayMove(kind, st, v, done, target, reason)
  {
    hide Targets, Gaps, GoesBack, Return, Position, Blank, MayStand, Endorsed;
    TargetsExact(st, target);
    ReturnExact(st.workflow, st.stage, target);
    BlockStays(st.workflow, target);
    if target in Targets(st) {
      TargetStays(st, target);
      GapsExact(v, kind, false, st, target, done);
    }
  }

  lemma InvalidatesExact(st: WorkflowState, target: Stage, p: Phase)
    requires GoesBack(st.workflow, st.stage, target)
    ensures Invalidates(target, p) <==> !(target == Making(st.workflow) && (IsPlan(p) || p == Resolution))
  {
    hide Position;
  }

  lemma MovedLands(st: WorkflowState, target: Stage, reason: string)
    requires st.Valid() && target in Targets(st)
    ensures Lands(st, target, reason, Moved(st, target, reason))
  {
    hide Targets, Return, GoesBack, Position, Invalidates, IsPlan;
    TargetStays(st, target);
    ReturnExact(st.workflow, st.stage, target);
    if GoesBack(st.workflow, st.stage, target) {
      forall p ensures Invalidates(target, p) <==>
                       !(target == Making(st.workflow) && (IsPlan(p) || p == Resolution)) {
        InvalidatesExact(st, target, p);
      }
    }
  }

  lemma TransitionExactly(it: Item, v: View, done: set<Id>, target: Stage, reason: string)
    requires Consistent(it)
    ensures Transition(it, v, done, target, reason).Some? <==>
            && !it.archived && it.state.Some? && it.state.value.stage != Done
            && MayMove(it.kind, it.state.value, v, done, target, reason)
    ensures Transition(it, v, done, target, reason).Some? ==>
            var t := Transition(it, v, done, target, reason).value;
            && t.kind == it.kind && !t.archived && t.version == it.version + 1 && t.state.Some?
            && t.progress == Some(StageProgress(target)) && Lands(it.state.value, target, reason, t.state.value)
  {
    hide Targets, Gaps, MayMove, Moved, NeedsReason, Lands, WorkflowState.Valid, Blank;
    if it.state.Some? && it.state.value.stage != Done {
      GrantedExact(it.kind, it.state.value, v, done, target, reason);
      if target in Targets(it.state.value) {
        MovedLands(it.state.value, target, reason);
        LandsThere(it.state.value, target, reason);
      }
    }
  }

  lemma LandsThere(st: WorkflowState, target: Stage, reason: string)
    ensures Moved(st, target, reason).stage == target
  {
  }

  // ---- progress

  /** A rejected Proposal is completed by handing it off. */
  predicate Dismissed(kind: Kind, v: View) {
    kind == Proposal && v.disposition == Some(Rejected)
  }

  /**
   Completion without a transition: of a base Todo on an attested ledger, of a rejected Proposal on evidence,
   and of other work only where its workflow stands at done with all that this takes.
   */
  ghost predicate MayComplete(it: Item, v: View, done: set<Id>, a: Attestation) {
    && (forall b | b in v.blockers :: b in done)
    && if it.kind == Todo then Settles(a.ledger, v.requirements)
       else if Dismissed(it.kind, v) then a.evidence
       else it.state.Some? && it.state.value.stage == Done && MayStand(v, it.kind, it.state.value, Done, done)
  }

  ghost predicate MayProgress(it: Item, v: View, done: set<Id>, target: Progress, a: Attestation) {
    match target
    case NotStarted => it.progress.None? && (it.state.Some? ==> it.state.value.stage == Backlog)
    case Started => it.state.None? || it.progress == Some(Complete) || it.state.value.stage !in {Backlog, Done}
    case Complete => MayComplete(it, v, done, a)
  }

  /** Reopened work starts over at the outset without reviews; dismissed work is done; other work stays. */
  ghost predicate Resets(it: Item, v: View, target: Progress, to: Option<WorkflowState>) {
    && to.Some? == it.state.Some?
    && (to.Some? ==>
          && var st := it.state.value;
          if it.progress == Some(Complete) && target == Started
          then to.value == WorkflowState(st.workflow, Outset(st.workflow), None, "", map[])
          else if target == Complete && Dismissed(it.kind, v)
          then to.value == WorkflowState(st.workflow, Done, None, "", st.reviews)
          else to == it.state)
  }

  lemma LedgerExact(ledger: seq<RequirementVerdict>, requirements: set<Id>)
    ensures LedgerMeets(ledger, requirements) <==> Settles(ledger, requirements)
  {
    SettlesExact(ledger, requirements);
  }

  lemma CompletionExact(it: Item, v: View, done: set<Id>, a: Attestation)
    requires Consistent(it) && !it.archived && it.progress != Some(Complete)
    ensures && ProgressState(it, v, done, Complete, a).Some?
            && (it.kind == Todo ==> LedgerMeets(a.ledger, v.requirements)) && v.blockers <= done
        <==> MayComplete(it, v, done, a)
  {
    hide Gaps, MayStand, Settles, LedgerMeets, GoesBack, Position;
    LedgerExact(a.ledger, v.requirements);
    if it.state.Some? && it.state.value.stage == Done {
      DoneStays(it.state.value.workflow);
      GapsExact(v, it.kind, false, it.state.value, Done, done);
    }
  }

  lemma DoneStays(w: WorkflowId)
    ensures StageOf(w, Done) && !GoesBack(w, Done, Done)
  {
  }

  lemma SetProgressExactly(it: Item, v: View, done: set<Id>, target: Progress, a: Attestation)
    requires Consistent(it)
    ensures SetProgress(it, v, done, target, a).Some? <==>
            !it.archived && it.progress != Some(target) && MayProgress(it, v, done, target, a) && a.stored
    ensures SetProgress(it, v, done, target, a).Some? ==>
            var t := SetProgress(it, v, done, target, a).value;
            && t.kind == it.kind && !t.archived && t.version == it.version + 1 && t.progress == Some(target)
            && Resets(it, v, target, t.state)
  {
    hide Gaps, MayComplete, LedgerMeets, Position, Blank;
    if target == Complete && !it.archived && it.progress != Some(Complete) {
      CompletionExact(it, v, done, a);
    }
  }
}
