/**
 Review records: what a review was made on, and when it still counts.

 A record keeps the basis of the work and the properties of the evidence as they were. Digests are
 injective, so they are modelled by what they are digests of.
 */
module WorkflowRecords {
  import opened Basics
  import opened WorkflowContract
  import opened WorkflowGates

  datatype Content = Content(title: string, description: string, artifacts: seq<Id>, links: seq<Id>)

  /** A stored node: a requirement, a criterion or a piece of evidence. */
  datatype Node = Node(archived: bool, properties: string)

  /** The surroundings of one item in the graph. */
  datatype World = World(
    content: Content,                          // of the item itself
    children: map<Id, nat>,                    // with their versions
    requirements: map<Id, Option<Node>>,       // requirements and criteria, with the nodes they resolve to
    evidence: map<Id, Node>,                   // Artifacts and external links
    archivedRecords: set<RecordKey>,
    blockers: set<Id>,
    disposition: Option<Disposition>,
    done: set<Id>)                             // the work that is complete

  datatype Basis = Basis(content: Content, children: map<Id, nat>, requirements: map<Id, Option<Node>>)

  function BasisOf(w: World, p: Phase): Basis {
    Basis(w.content, if IsPlan(p) then map[] else w.children, w.requirements)
  }

  datatype ReviewRecord = ReviewRecord(subject: Id, basis: Basis, hashes: map<Id, string>, review: Review)

  /** Other records share the ids of review records. */
  datatype Stored = Reviewed(record: ReviewRecord) | Other

  type Store = map<RecordKey, Stored>

  predicate Resolves(w: World, refs: set<Id>) {
    forall ref | ref in refs :: ref in w.evidence && !w.evidence[ref].archived
  }

  /** The record of a review made in `w`. */
  function RecordOf(subject: Id, r: Review, w: World): ReviewRecord {
    ReviewRecord(subject, BasisOf(w, r.phase),
                 map ref | ref in r.evidence && ref in w.evidence :: w.evidence[ref].properties, r)
  }

  predicate Trusted(subject: Id, w: World, r: ReviewRecord) {
    && r.subject == subject && r.basis == BasisOf(w, r.review.phase)
    && (forall ref | ref in r.hashes ::
          ref in w.evidence && !w.evidence[ref].archived && w.evidence[ref].properties == r.hashes[ref])
  }

  function ViewOf(subject: Id, store: Store, w: World): View {
    View(
      map key | key in store && store[key].Reviewed? && key !in w.archivedRecords
                && Trusted(subject, w, store[key].record) :: store[key].record.review,
      w.requirements.Keys, w.children.Keys, w.blockers, w.disposition)
  }

  // ---- when a review counts

  /** The item, its requirements and, after planning, its children are as they were. */
  predicate Unchanged(was: World, now: World, p: Phase) {
    && now.content == was.content && now.requirements == was.requirements
    && (!IsPlan(p) ==> now.children == was.children)
  }

  predicate EvidenceKept(was: World, now: World, refs: set<Id>) {
    forall ref | ref in refs ::
      && ref in was.evidence && ref in now.evidence && !now.evidence[ref].archived
      && now.evidence[ref].properties == was.evidence[ref].properties
  }

  lemma BasisExact(was: World, now: World, p: Phase)
    ensures BasisOf(was, p) == BasisOf(now, p) <==> Unchanged(was, now, p)
  {
  }

  lemma TrustedExact(subject: Id, r: Review, was: World, now: World)
    requires Resolves(was, r.evidence)
    ensures Trusted(subject, now, RecordOf(subject, r, was)) <==>
            Unchanged(was, now, r.phase) && EvidenceKept(was, now, r.evidence)
  {
    BasisExact(was, now, r.phase);
    hide BasisOf, Unchanged;
    assert RecordOf(subject, r, was).hashes.Keys == r.evidence;
  }

  /**
   A review that was recorded in the world `was` counts in the world `now` if and only if its record is
   not archived and nothing that it was made on has changed.
   */
  lemma CountsExactly(subject: Id, store: Store, was: World, now: World, st: WorkflowState, r: Review)
    requires r.phase in st.reviews && Resolves(was, r.evidence)
    requires var key := RecordKey(RecordKindOf(r.phase), st.reviews[r.phase]);
      key in store && store[key] == Reviewed(RecordOf(subject, r, was))
    ensures var key := RecordKey(RecordKindOf(r.phase), st.reviews[r.phase]);
      ViewOf(subject, store, now).ReviewOf(st, r.phase)
      == if key !in now.archivedRecords && Unchanged(was, now, r.phase) && EvidenceKept(was, now, r.evidence)
         then Some(r) else None
  {
    hide RecordKindOf, Unchanged, EvidenceKept, Trusted;
    TrustedExact(subject, r, was, now);
  }
}
