/** The forward-only progress migration: classify every record that its own evidence supports. */
module Migration {
  import opened Basics
  import opened WorkflowContract
  import opened WorkflowExact
  import opened WorkflowGates
  import W = Workflows

  /** Reading a stored state refuses one that is not valid. */
  type SoundState = st: WorkflowState | st.Valid() witness Fresh(VibeCeo, Backlog)

  datatype Recorded = Absent | Value(progress: Progress) | Malformed

  /**
   One record of the old graph. `attested` is its completion attestation if that can be trusted:
   present, about this item, on its present basis, saying done, with unchanged evidence.
   */
  datatype Row = Row(
    key: Id,
    kind: Kind,
    recorded: Recorded,
    state: Option<SoundState>,
    view: View,
    attested: Option<W.Attestation>)

  datatype Reason = Contradiction | NoEvidence | BacklogReviewed | GapFound(gap: Gap)

  // ---- the first mapping

  function StageOnly(row: Row): Option<Progress> {
    if row.state.None? then None else Some(StageProgress(row.state.value.stage))
  }

  function FirstReasons(row: Row): seq<Reason> {
    (match row.recorded
     case Absent => if row.state.None? then [NoEvidence] else []
     case Value(p) => if row.state.Some? && Some(p) != StageOnly(row) then [Contradiction] else []
     case Malformed => [Contradiction])
    + (if row.state.Some? && row.state.value.stage == Backlog && row.state.value.reviews != map[]
       then [BacklogReviewed] else [])
  }

  /** The progress that the record claims, unless its claims are missing or contradict each other. */
  function Mapped(row: Row): (p: Option<Progress>)
    ensures p.None? <==> FirstReasons(row) != []
    ensures p.Some? && row.recorded.Value? ==> p.value == row.recorded.progress
    ensures p.Some? && row.state.Some? ==> p == StageOnly(row)
  {
    if FirstReasons(row) != [] then None
    else if row.recorded.Value? then Some(row.recorded.progress)
    else StageOnly(row)
  }

  /** Record and stage agree on `p`, at least one of them says so, and the backlog holds no reviews. */
  predicate Claims(row: Row, p: Progress) {
    && row.recorded in {Absent, Value(p)} && (row.recorded == Value(p) || row.state.Some?)
    && (row.state.Some? ==>
          StageProgress(row.state.value.stage) == p && (p == NotStarted ==> row.state.value.reviews == map[]))
  }

  lemma MappedExact(row: Row, p: Progress)
    ensures Mapped(row) == Some(p) <==> Claims(row, p)
  {
  }

  // ---- gaps against an assignment

  /** Rows whose completion rests on an attestation and not on the gates of a workflow. */
  predicate ByAttestation(row: Row) {
    row.kind == Todo || (row.kind == Proposal && row.view.disposition == Some(Rejected))
  }

  predicate AttestationStands(row: Row) {
    && row.attested.Some?
    && (row.kind == Proposal ==> row.view.disposition == Some(Rejected) && row.attested.value.evidence)
    && (row.kind == Todo ==> W.LedgerMeets(row.attested.value.ledger, row.view.requirements))
  }

  function AttestationGaps(row: Row, done: set<Id>): seq<Gap> {
    if AttestationStands(row) && row.view.blockers <= done then [] else [AttestationInvalid]
  }

  function RowGaps(row: Row, p: Progress, done: set<Id>): seq<Gap> {
    if p == Complete && ByAttestation(row) then AttestationGaps(row, done)
    else if row.state.Some? then Gaps(row.view, row.kind, false, row.state.value, row.state.value.stage, done)
    else if p == Complete then [NoGateEvidence]
    else []
  }

  /**
   What supports a classification when `done` is what counts as done: an attestation for a completed Todo or
   rejected Proposal; for a row with a workflow, all that standing at its stage takes, and nothing at a block;
   and completion needs one of the two.
   */
  ghost predicate Justified(row: Row, p: Progress, done: set<Id>) {
    if p == Complete && (row.kind == Todo || Dismissed(row.kind, row.view)) then
      && row.attested.Some? && (forall b | b in row.view.blockers :: b in done)
      && (if row.kind == Todo then Settles(row.attested.value.ledger, row.view.requirements)
          else row.attested.value.evidence)
    else if row.state.Some? then
      || row.state.value.stage == Blocked
      || MayStand(row.view, row.kind, row.state.value, row.state.value.stage, done)
    else p != Complete
  }

  lemma NoLoop(w: WorkflowId, s: Stage)
    ensures !GoesBack(w, s, s)
  {
  }

  lemma AttestationExact(row: Row, done: set<Id>)
    requires ByAttestation(row)
    ensures AttestationGaps(row, done) == [] <==> Justified(row, Complete, done)
  {
    hide Settles, W.LedgerMeets, MayStand;
    if row.attested.Some? {
      LedgerExact(row.attested.value.ledger, row.view.requirements);
    }
  }

  lemma RowGapsExact(row: Row, p: Progress, done: set<Id>)
    ensures RowGaps(row, p, done) == [] <==> Justified(row, p, done)
  {
    hide AttestationGaps, MayStand, Gaps, Settles, GoesBack, Position;
    if p == Complete && ByAttestation(row) {
      AttestationExact(row, done);
    } else if row.state.Some? {
      NoLoop(row.state.value.workflow, row.state.value.stage);
      GapsExact(row.view, row.kind, false, row.state.value, row.state.value.stage, done);
    }
  }

  lemma StandMonotone(v: View, kind: Kind, st: WorkflowState, s: Stage, done: set<Id>, more: set<Id>)
    requires done <= more && MayStand(v, kind, st, s, done)
    ensures MayStand(v, kind, st, s, more)
  {
    hide Endorsed, JustBefore, Demanded, Judged, Position, Settles, Excludes;
  }

  lemma JustifiedMonotone(row: Row, p: Progress, done: set<Id>, more: set<Id>)
    requires done <= more && Justified(row, p, done)
    ensures Justified(row, p, more)
  {
    hide MayStand, Settles;
    if row.state.Some? && MayStand(row.view, row.kind, row.state.value, row.state.value.stage, done) {
      StandMonotone(row.view, row.kind, row.state.value, row.state.value.stage, done, more);
    }
  }

  lemma GapsMonotone(row: Row, p: Progress, done: set<Id>, more: set<Id>)
    requires done <= more && RowGaps(row, p, done) == []
    ensures RowGaps(row, p, more) == []
  {
    hide RowGaps, Justified;
    RowGapsExact(row, p, done);
    RowGapsExact(row, p, more);
    JustifiedMonotone(row, p, done, more);
  }

  type Assignment = map<Id, Progress>

  /** The items that count as done: by the assignment if they are migrated, else as stored. */
  function DoneIn(keys: set<Id>, outside: set<Id>, c: Assignment): set<Id> {
    (set k | k in c && c[k] == Complete) + (outside - keys)
  }

  predicate Within(c: Assignment, d: Assignment) {
    c.Keys <= d.Keys && forall k | k in c :: c[k] == d[k]
  }

  lemma DoneMonotone(keys: set<Id>, outside: set<Id>, c: Assignment, d: Assignment)
    requires Within(c, d)
    ensures DoneIn(keys, outside, c) <= DoneIn(keys, outside, d)
  {
  }

  ghost predicate Supported(rows: map<Id, Row>, outside: set<Id>, c: Assignment, k: Id)
    requires k in c && k in rows
  {
    Justified(rows[k], c[k], DoneIn(rows.Keys, outside, c))
  }

  /** Every member is justified given the members themselves. */
  ghost predicate SelfSupporting(rows: map<Id, Row>, outside: set<Id>, c: Assignment) {
    c.Keys <= rows.Keys && forall k | k in c :: Supported(rows, outside, c, k)
  }

  /** Every member has the progress that its row claims. */
  ghost predicate Claimed(rows: map<Id, Row>, c: Assignment) {
    c.Keys <= rows.Keys && forall k | k in c :: Claims(rows[k], c[k])
  }

  function First(rows: map<Id, Row>): Assignment {
    map k | k in rows && Mapped(rows[k]).Some? :: Mapped(rows[k]).value
  }

  lemma FirstExact(rows: map<Id, Row>, c: Assignment)
    ensures Within(c, First(rows)) <==> Claimed(rows, c)
  {
    hide Mapped, Claims;
    forall k | k in rows && k in c ensures Mapped(rows[k]) == Some(c[k]) <==> Claims(rows[k], c[k]) {
      MappedExact(rows[k], c[k]);
    }
  }

  /** The largest classification that is claimed and supports itself. */
  ghost predicate Greatest(rows: map<Id, Row>, outside: set<Id>, c: Assignment) {
    && Claimed(rows, c) && SelfSupporting(rows, outside, c)
    && forall d | Claimed(rows, d) && SelfSupporting(rows, outside, d) :: Within(d, c)
  }

  /** There is only one, so the order of the records does not matter. */
  lemma GreatestUnique(rows: map<Id, Row>, outside: set<Id>, c: Assignment, d: Assignment)
    requires Greatest(rows, outside, c) && Greatest(rows, outside, d)
    ensures c == d
  {
    hide SelfSupporting, Claimed;
    assert Within(c, d) && Within(d, c);
  }

  /** Whatever can support itself survives the removal of a row that has a gap. */
  lemma RemovalSafe(rows: map<Id, Row>, outside: set<Id>, c: Assignment, k: Id, d: Assignment)
    requires c.Keys <= rows.Keys && k in c && !Supported(rows, outside, c, k)
    requires Within(d, c) && SelfSupporting(rows, outside, d)
    ensures Within(d, c - {k})
  {
    if k in d {
      assert Supported(rows, outside, d, k);
      DoneMonotone(rows.Keys, outside, d, c);
      JustifiedMonotone(rows[k], c[k], DoneIn(rows.Keys, outside, d), DoneIn(rows.Keys, outside, c));
    }
  }

  /** Whatever supports itself within `c` lies within `d`. */
  ghost predicate KeepsAll(rows: map<Id, Row>, outside: set<Id>, c: Assignment, d: Assignment) {
    forall e | Within(e, c) && SelfSupporting(rows, outside, e) :: Within(e, d)
  }

  lemma KeepsSame(rows: map<Id, Row>, outside: set<Id>, c: Assignment)
    ensures KeepsAll(rows, outside, c, c)
  {
  }

  lemma RemovalKeeps(rows: map<Id, Row>, outside: set<Id>, c0: Assignment, c: Assignment, k: Id)
    requires c.Keys <= rows.Keys && k in c && !Supported(rows, outside, c, k) && KeepsAll(rows, outside, c0, c)
    ensures KeepsAll(rows, outside, c0, c - {k})
  {
    hide SelfSupporting, Supported, Within;
    forall d | Within(d, c0) && SelfSupporting(rows, outside, d) ensures Within(d, c - {k}) {
      RemovalSafe(rows, outside, c, k, d);
    }
  }

  // ---- the passes

  predicate Explained(rows: map<Id, Row>, c: Assignment, reasons: map<Id, seq<Reason>>) {
    reasons.Keys == rows.Keys && forall k | k in rows :: k in c <==> reasons[k] == []
  }

  function Reasoned(gaps: seq<Gap>): (r: seq<Reason>)
    ensures |r| == |gaps| && forall i | 0 <= i < |gaps| :: r[i] == GapFound(gaps[i])
  {
    seq(|gaps|, i requires 0 <= i < |gaps| => GapFound(gaps[i]))
  }

  /** The dictionary of the records: the last record of every key. */
  ghost predicate Loaded(records: seq<Row>, rows: map<Id, Row>) {
    && (forall k :: k in rows <==> exists i | 0 <= i < |records| :: records[i].key == k)
    && (forall k | k in rows :: LastOf(records, rows[k], k))
  }

  ghost predicate LastOf(records: seq<Row>, row: Row, k: Id) {
    exists i | 0 <= i < |records| ::
      records[i] == row && row.key == k && forall j | i < j < |records| :: records[j].key != k
  }

  lemma LoadedMore(records: seq<Row>, rows: map<Id, Row>, row: Row)
    requires Loaded(records, rows)
    ensures Loaded(records + [row], rows[row.key := row])
  {
    var more, next := records + [row], rows[row.key := row];
    forall k ensures k in next <==> exists i | 0 <= i < |more| :: more[i].key == k {
      if k == row.key {
        assert more[|records|].key == k;
      } else if k in rows {
        var i :| 0 <= i < |records| && records[i].key == k;
        assert more[i].key == k;
      }
    }
    forall k | k in next ensures LastOf(more, next[k], k) {
      if k == row.key {
        assert more[|records|] == row;
      } else {
        var i :| 0 <= i < |records| && records[i] == rows[k] && rows[k].key == k
                 && forall j | i < j < |records| :: records[j].key != k;
        assert more[i] == rows[k];
      }
    }
  }

  method Load(records: seq<Row>) returns (rows: map<Id, Row>, order: seq<Id>)
    ensures Loaded(records, rows)
    ensures forall k :: k in order <==> k in rows
  {
    rows, order := map[], [];
    for i := 0 to |records|
      invariant Loaded(records[..i], rows)
      invariant forall k :: k in order <==> k in rows
    {
      var row := records[i];
      LoadedMore(records[..i], rows, row);
      assert records[..i + 1] == records[..i] + [row];
      if row.key !in rows { order := order + [row.key]; }
      rows := rows[row.key := row];
    }
    assert records[..|records|] == records;
  }

  /** One sweep over the records, which removes as it goes. */
  method Sweep(rows: map<Id, Row>, order: seq<Id>, outside: set<Id>, c0: Assignment, r0: map<Id, seq<Reason>>)
    returns (c: Assignment, reasons: map<Id, seq<Reason>>, changed: bool)
    requires c0.Keys <= rows.Keys && (forall k :: k in order <==> k in rows) && Explained(rows, c0, r0)
    ensures Within(c, c0) && Explained(rows, c, reasons)
    ensures changed <==> c != c0
    ensures changed ==> |c| < |c0|
    ensures !changed ==> SelfSupporting(rows, outside, c)
    ensures KeepsAll(rows, outside, c0, c)
  {
    c, reasons, changed := c0, r0, false;
    KeepsSame(rows, outside, c0);
    hide RowGaps, Justified, SelfSupporting, DoneIn, KeepsAll;
    for i := 0 to |order|
      invariant Within(c, c0) && Explained(rows, c, reasons)
      invariant changed <==> c != c0
      invariant changed ==> |c| < |c0|
      invariant !changed ==> forall j | 0 <= j < i && order[j] in c :: Supported(rows, outside, c, order[j])
      invariant KeepsAll(rows, outside, c0, c)
    {
      var k := order[i];
      if k in c {
        var gaps := RowGaps(rows[k], c[k], DoneIn(rows.Keys, outside, c));
        RowGapsExact(rows[k], c[k], DoneIn(rows.Keys, outside, c));
        if gaps != [] {
          RemovalKeeps(rows, outside, c0, c, k);
          reasons := reasons[k := reasons[k] + Reasoned(gaps)];
          c := c - {k};
          changed := true;
        }
      }
    }
    if !changed {
      Swept(rows, order, outside, c);
    }
  }

  lemma Swept(rows: map<Id, Row>, order: seq<Id>, outside: set<Id>, c: Assignment)
    requires c.Keys <= rows.Keys && (forall k :: k in order <==> k in rows)
    requires forall j | 0 <= j < |order| && order[j] in c :: Supported(rows, outside, c, order[j])
    ensures SelfSupporting(rows, outside, c)
  {
    hide Supported;
    forall k | k in c ensures Supported(rows, outside, c, k) {
      assert k in order;
    }
  }

  /** Sweeps until nothing changes: the greatest self-supporting classification, each refusal with a reason. */
  method Resolve(rows: map<Id, Row>, order: seq<Id>, outside: set<Id>)
    returns (c: Assignment, reasons: map<Id, seq<Reason>>)
    requires forall k :: k in order <==> k in rows
    ensures Greatest(rows, outside, c) && Explained(rows, c, reasons)
  {
    hide SelfSupporting, Mapped, FirstReasons;
    c, reasons := First(rows), map k | k in rows :: FirstReasons(rows[k]);
    var changed := true;
    while changed
      invariant Within(c, First(rows)) && Explained(rows, c, reasons)
      invariant !changed ==> SelfSupporting(rows, outside, c)
      invariant forall d | Within(d, First(rows)) && SelfSupporting(rows, outside, d) :: Within(d, c)
      decreases |c|, if changed then 1 else 0
    {
      c, reasons, changed := Sweep(rows, order, outside, c, reasons);
    }
    forall d ensures Within(d, First(rows)) <==> Claimed(rows, d) {
      FirstExact(rows, d);
    }
  }

  const BUDGET := 10000

  method Plan(records: seq<Row>, outside: set<Id>)
    returns (plan: Option<(map<Id, Row>, Assignment, map<Id, seq<Reason>>)>)
    ensures plan.None? <==> |records| > BUDGET
    ensures plan.Some? ==> Loaded(records, plan.value.0)
    ensures plan.Some? ==> Greatest(plan.value.0, outside, plan.value.1)
                           && Explained(plan.value.0, plan.value.1, plan.value.2)
  {
    if |records| > BUDGET { return None; }
    var rows, order := Load(records);
    var c, reasons := Resolve(rows, order, outside);
    return Some((rows, c, reasons));
  }

  // ---- what the plan promises

  /** A classification is never invented: it is the recorded one and the one of the stage. */
  lemma KeepsTheRecord(rows: map<Id, Row>, outside: set<Id>, c: Assignment, k: Id)
    requires Greatest(rows, outside, c) && k in c
    ensures k in rows
    ensures rows[k].recorded.Value? ==> c[k] == rows[k].recorded.progress
    ensures rows[k].state.Some? ==> c[k] == StageProgress(rows[k].state.value.stage)
    ensures rows[k].recorded.Value? || rows[k].state.Some?
  {
  }

  /** Migrated work counts as done if the plan says so, and other work as it is stored. */
  predicate CountsDone(rows: map<Id, Row>, outside: set<Id>, c: Assignment, k: Id) {
    if k in rows then k in c && c[k] == Complete else k in outside
  }

  lemma DoneExact(rows: map<Id, Row>, outside: set<Id>, c: Assignment, k: Id)
    requires c.Keys <= rows.Keys
    ensures k in DoneIn(rows.Keys, outside, c) <==> CountsDone(rows, outside, c, k)
  {
  }

  /**
   A row is in the plan with a progress if and only if it claims it and is justified when exactly what the plan
   completes, and what is stored as complete elsewhere, counts as done.
   */
  lemma ClassifiedExactly(rows: map<Id, Row>, outside: set<Id>, c: Assignment, k: Id, p: Progress, done: set<Id>)
    requires Greatest(rows, outside, c) && k in rows
    requires forall j :: j in done <==> CountsDone(rows, outside, c, j)
    ensures k in c && c[k] == p <==> Claims(rows[k], p) && Justified(rows[k], p, done)
  {
    hide Claims, Justified, DoneIn;
    assert done == DoneIn(rows.Keys, outside, c) by {
      forall j ensures j in done <==> j in DoneIn(rows.Keys, outside, c) {
        DoneExact(rows, outside, c, j);
      }
    }
    if k in c && c[k] == p {
      assert Supported(rows, outside, c, k);
    } else if Claims(rows[k], p) && Justified(rows[k], p, DoneIn(rows.Keys, outside, c)) {
      if k in c { ClaimsOne(rows[k], p, c[k]); }
      NothingMissing(rows, outside, c, k, p);
    }
  }

  lemma ClaimsOne(row: Row, p: Progress, q: Progress)
    requires Claims(row, p) && Claims(row, q)
    ensures p == q
  {
  }

  /** Nothing can be added to the greatest classification. */
  lemma NothingMissing(rows: map<Id, Row>, outside: set<Id>, c: Assignment, k: Id, p: Progress)
    requires Greatest(rows, outside, c) && k in rows && (k in c ==> c[k] == p)
    requires Claims(rows[k], p) && Justified(rows[k], p, DoneIn(rows.Keys, outside, c))
    ensures k in c && c[k] == p
  {
    hide Claims, Justified, DoneIn;
    var d := c[k := p];
    DoneMonotone(rows.Keys, outside, c, d);
    forall j | j in d ensures Supported(rows, outside, d, j) {
      if j != k { assert Supported(rows, outside, c, j); }
      JustifiedMonotone(rows[j], d[j], DoneIn(rows.Keys, outside, c), DoneIn(rows.Keys, outside, d));
    }
    assert Claimed(rows, d) && SelfSupporting(rows, outside, d);
    assert Within(d, c);
  }

  lemma ExclusionsExact(v: View, st: WorkflowState, done: set<Id>)
    requires Completed(v, st, done)
    ensures v.children <= done + v.Exclusions(st) && v.blockers <= done
  {
    var r := v.ReviewOf(st, Requirements).value;
    assert forall c | Excludes(r.requirements, c) :: c in r.Excluded();
    hide Settles, Excludes, View.ReviewOf;
  }

  lemma CompleteAtDone(row: Row, done: set<Id>)
    requires row.state.Some? && row.state.value.stage == Done && Justified(row, Complete, done)
    ensures row.view.blockers <= done
    ensures !ByAttestation(row) ==> row.view.children <= done + row.view.Exclusions(row.state.value)
  {
    hide Endorsed, Completed, Settles, Position, View.Exclusions;
    if !ByAttestation(row) {
      ExclusionsExact(row.view, row.state.value, done);
    }
  }

  lemma CompleteJustified(rows: map<Id, Row>, outside: set<Id>, c: Assignment, k: Id)
    requires Greatest(rows, outside, c) && k in c && c[k] == Complete
    ensures k in rows && Justified(rows[k], Complete, DoneIn(rows.Keys, outside, c))
    ensures rows[k].state.Some? ==> rows[k].state.value.stage == Done
  {
    hide Justified, DoneIn;
    assert Supported(rows, outside, c, k) && Claims(rows[k], c[k]);
  }

  /** Every item left done has all its blockers done. */
  lemma BlockersDone(rows: map<Id, Row>, outside: set<Id>, c: Assignment, k: Id)
    requires Greatest(rows, outside, c) && k in c && c[k] == Complete
    ensures forall b | b in rows[k].view.blockers :: CountsDone(rows, outside, c, b)
  {
    assert c.Keys <= rows.Keys;
    hide Greatest, DoneIn, MayStand, Settles, CountsDone;
    CompleteJustified(rows, outside, c, k);
    if rows[k].state.Some? {
      CompleteAtDone(rows[k], DoneIn(rows.Keys, outside, c));
    }
    forall b | b in rows[k].view.blockers ensures CountsDone(rows, outside, c, b) {
      DoneExact(rows, outside, c, b);
    }
  }

  /** Every item left done by its workflow has each child done or explicitly excluded. */
  lemma ChildrenDone(rows: map<Id, Row>, outside: set<Id>, c: Assignment, k: Id)
    requires Greatest(rows, outside, c) && k in c && c[k] == Complete && !ByAttestation(rows[k])
    ensures rows[k].state.Some?
    ensures forall child | child in rows[k].view.children ::
              CountsDone(rows, outside, c, child) || child in rows[k].view.Exclusions(rows[k].state.value)
  {
    assert c.Keys <= rows.Keys;
    hide Greatest, DoneIn, MayStand, Settles, View.Exclusions, CountsDone;
    CompleteJustified(rows, outside, c, k);
    CompleteAtDone(rows[k], DoneIn(rows.Keys, outside, c));
    forall child | child in DoneIn(rows.Keys, outside, c) ensures CountsDone(rows, outside, c, child) {
      DoneExact(rows, outside, c, child);
    }
  }

  ghost predicate DistinctKeys(records: seq<Row>) {
    forall i, j | 0 <= i < j < |records| :: records[i].key != records[j].key
  }

  lemma OneRowPerKey(records: seq<Row>, row: Row, k: Id)
    requires DistinctKeys(records) && row in records && row.key == k
    ensures forall other | LastOf(records, other, k) :: other == row
  {
  }

  /** Records in any order, loaded and resolved in any order, get the same progress. */
  lemma OrderIndependent(a: seq<Row>, b: seq<Row>, outside: set<Id>, ra: map<Id, Row>, rb: map<Id, Row>,
                         ca: Assignment, cb: Assignment)
    requires DistinctKeys(a) && DistinctKeys(b) && multiset(a) == multiset(b)
    requires Loaded(a, ra) && Loaded(b, rb) && Greatest(ra, outside, ca) && Greatest(rb, outside, cb)
    ensures ra == rb && ca == cb
  {
    hide Greatest, Loaded, DistinctKeys;
    SameRows(a, b, ra, rb);
    SameRows(b, a, rb, ra);
    assert ra == rb;
    GreatestUnique(ra, outside, ca, cb);
  }

  lemma SameRows(a: seq<Row>, b: seq<Row>, ra: map<Id, Row>, rb: map<Id, Row>)
    requires DistinctKeys(b) && multiset(a) == multiset(b) && Loaded(a, ra) && Loaded(b, rb)
    ensures forall k | k in ra :: k in rb && ra[k] == rb[k]
  {
    forall k | k in ra ensures k in rb && ra[k] == rb[k] {
      assert LastOf(a, ra[k], k);
      assert ra[k] in multiset(a);
      assert ra[k] in b;
      OneRowPerKey(b, ra[k], k);
    }
  }

  // ---- children of a row completed by attestation

  /** The children that a row's ledger excludes; a row without a workflow excludes none. */
  function ExcludedBy(row: Row): set<Id> {
    if row.state.None? then {} else row.view.Exclusions(row.state.value)
  }

  /** A row without a workflow is complete by attestation only. */
  lemma WorklessByAttestation(row: Row, done: set<Id>)
    requires row.state.None? && Justified(row, Complete, done)
    ensures ByAttestation(row)
  {
  }

  /**
   A row completed by attestation, with a workflow or without, can be left done beside an open child that
   nothing excludes: the child clause holds for all children if and only if the row is judged by its workflow.
   */
  lemma ChildClauseExact(row: Row, done: set<Id>)
    requires Justified(row, Complete, done) && (row.state.Some? ==> row.state.value.stage == Done)
    ensures !ByAttestation(row) <==>
            forall children: set<Id> | Justified(WithChildren(row, children), Complete, done) ::
              children <= done + ExcludedBy(row)
  {
    if ByAttestation(row) {
      var child := FreshId(done + ExcludedBy(row));
      assert Justified(WithChildren(row, {child}), Complete, done);
      assert child in {child};
    } else {
      if row.state.None? { WorklessByAttestation(row, done); }
      forall children: set<Id> | Justified(WithChildren(row, children), Complete, done)
        ensures children <= done + ExcludedBy(row)
      {
        CompleteAtDone(WithChildren(row, children), done);
      }
    }
  }

  function WithChildren(row: Row, children: set<Id>): Row {
    row.(view := row.view.(children := children))
  }

  lemma FreshId(taken: set<Id>) returns (id: Id)
    ensures id !in taken
  {
    var n := Longest(taken);
    id := seq(n + 1, _ => 'x');
  }

  lemma {:induction false} Longest(taken: set<Id>) returns (n: nat)
    ensures forall id | id in taken :: |id| <= n
    decreases |taken|
  {
    if taken == {} {
      n := 0;
    } else {
      var id :| id in taken;
      n := Longest(taken - {id});
      if |id| > n { n := |id|; }
    }
  }

  /** One complete row whose attestation stands is the whole migration of its graph. */
  lemma AttestedAlone(row: Row)
    requires ByAttestation(row) && AttestationStands(row) && row.view.blockers == {} && Mapped(row) == Some(Complete)
    ensures Greatest(map[row.key := row], {}, map[row.key := Complete])
  {
    var rows, c := map[row.key := row], map[row.key := Complete];
    assert First(rows) == c;
    hide First, Mapped, AttestationStands;
    assert Supported(rows, {}, c, row.key);
  }

  const OPEN_CHILD := View(map[], {}, {"child"}, {}, Some(Rejected))
  const ATTESTED := W.Attestation(true, [], true)
  const REJECTED := Row("p", Proposal, Absent, Some(Fresh(VibeCeo, Done)), OPEN_CHILD, Some(ATTESTED))
  const BASE_TODO := Row("t", Todo, Value(Complete), None, OPEN_CHILD, Some(ATTESTED))

  /** A rejected Proposal at done, and a base Todo, keep their place beside an open child. */
  lemma AttestedKeepsOpenChild(row: Row)
    requires row == REJECTED || row == BASE_TODO
    ensures Greatest(map[row.key := row], {}, map[row.key := Complete])
    ensures exists child | child in row.view.children ::
              !CountsDone(map[row.key := row], {}, map[row.key := Complete], child) && child !in ExcludedBy(row)
  {
    AttestedAlone(row);
    hide Greatest;
    assert |"child"| == 5 && |row.key| == 1;
    assert "child" in row.view.children;
    assert !CountsDone(map[row.key := row], {}, map[row.key := Complete], "child") && "child" !in ExcludedBy(row);
  }
}
