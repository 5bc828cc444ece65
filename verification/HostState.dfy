/**
 The browser host's mutex-protected `State` as a value, and every operation that the
 host performs on it while it holds the lock.

 An `Arc<Mutation>` is named by its generation. What several holders of an `Arc` share
 (the dispatch cell, the cancellation token and the reader of a stream) is kept in
 tables beside the maps, so that a stream removed from `streams` can still be read by
 the pull that cloned it.

 The last two fields are history variables. No branch reads them.
 */
module HostState {
  import opened Basics

  type Id = nat
  type Generation = nat

  const MAX_CONTROLS := 65536
  const MAX_ALIASES := 131072

  /** `DispatchState`: one irreversible boundary between dispatch and cancellation. */
  datatype Cell = Idle | Cancelled | Dispatched {
    function Cancel(): Cell {
      if Idle? then Cancelled else this
    }
  }

  /** Owner of a dispatch cell and a cancellation token. */
  datatype Handle = OfMutation(generation: Generation) | OfControl(id: Id)

  datatype Connection = Connection(id: Id, read: Option<Id>)

  datatype Stream = Stream(
    mutation: Option<Generation>, // None for a read stream
    control: Id,                  // the request that opened the stream
    dispatched: bool,
    pulling: bool,
    nextSeq: nat,
    previousAck: int,
    done: bool)
  {
    function Token(): Handle {
      HandleOf(mutation, control)
    }
  }

  datatype State = State(
    connection: Option<Connection>,
    seen: set<Id>,
    generated: set<Id>,
    cancelled: set<Id>,
    history: map<Id, bool>,
    aliases: map<Id, Generation>,
    reserved: multiset<Generation>, // multiplicity = reserved alias count
    nextGeneration: nat,
    disposed: bool,
    pending: map<Id, Option<Generation>>,
    authorizations: map<Id, Generation>,
    streams: set<Id>,
    readSlots: nat,
    work: Option<Generation>,
    cells: map<Handle, Cell>,
    tokens: set<Handle>,            // the cancelled tokens
    objects: map<Id, Stream>,
    owner: map<Id, Generation>,     // history: the mutation an id ever joined
    panicked: bool)                 // history: an assertion in `alias` failed
  {
    function CellOf(h: Handle): Cell {
      if h in cells then cells[h] else Idle
    }

    predicate Owns(g: Generation) {
      work == Some(g)
    }

    predicate Bound(connectionId: Id) {
      connection.Some? && connection.value.id == connectionId
    }
  }

  const INITIAL := State(None, {}, {}, {}, map[], map[], multiset{}, 0, false, map[], map[], {}, 0, None,
                         map[], {}, map[], map[], false)

  function HandleOf(mutation: Option<Generation>, control: Id): Handle {
    if mutation.Some? then OfMutation(mutation.value) else OfControl(control)
  }

  function CancelCells(cells: map<Handle, Cell>, hs: set<Handle>): map<Handle, Cell> {
    map h | h in cells.Keys + hs ::
      var c := if h in cells then cells[h] else Idle;
      if h in hs then c.Cancel() else c
  }

  /** Cancels the cell and the token of each handle. */
  function CancelAll(s: State, hs: set<Handle>): State {
    s.(cells := CancelCells(s.cells, hs), tokens := s.tokens + hs)
  }

  function LessOne(n: nat): nat {
    if n == 0 then 0 else n - 1
  }

  function PendingHandles(pending: map<Id, Option<Generation>>): set<Handle> {
    set id | id in pending :: HandleOf(pending[id], id)
  }

  /** Handles whose cells `clear` cancels: the current mutation and every pending control. */
  function LiveHandles(s: State): set<Handle> {
    (if s.work.Some? then {OfMutation(s.work.value)} else {}) + PendingHandles(s.pending)
  }

  function StreamTokens(streams: set<Id>, objects: map<Id, Stream>): set<Handle> {
    set id | id in streams && id in objects :: objects[id].Token()
  }

  function Clear(s: State): State {
    var c := CancelAll(s, LiveHandles(s));
    c.(tokens := c.tokens + StreamTokens(s.streams, s.objects),
       connection := None, disposed := true, authorizations := map[], streams := {}, pending := map[],
       aliases := map[], history := map[], reserved := multiset{}, seen := {}, generated := {},
       cancelled := {}, readSlots := 0, work := None)
  }

  function Used(s: State): nat {
    |s.aliases| + |s.history| + |s.reserved|
  }

  function Reserve(s: State, g: Generation, count: nat): (State, bool) {
    if count > (if Used(s) > MAX_ALIASES then 0 else MAX_ALIASES - Used(s)) then
      (Clear(s), false)
    else
      (s.(reserved := s.reserved[g := s.reserved[g] + count]), true)
  }

  /** `alias` without the look at `cancelled`. */
  function Link(s: State, id: Id, g: Generation): State {
    s.(panicked := s.panicked || s.reserved[g] == 0 || id in s.aliases,
       reserved := s.reserved[g := LessOne(s.reserved[g])],
       aliases := s.aliases[id := g],
       owner := s.owner[id := g])
  }

  function Alias(s: State, id: Id, g: Generation): State {
    var t := Link(s, id, g);
    if id in s.cancelled then CancelAll(t, {OfMutation(g)}) else t
  }

  predicate HandleAvailable(s: State, id: Id) {
    && id !in s.seen && id !in s.generated && id !in s.cancelled
    && id !in s.aliases && id !in s.history && id !in s.streams && id !in s.authorizations
    && !(s.connection.Some? && (s.connection.value.id == id || s.connection.value.read == Some(id)))
  }

  /** `tries[i]` is what the i-th call of `opaque_id` yields; None is a randomness failure. */
  function PickHandle(s: State, tries: seq<Option<Id>>, i: nat): (State, Option<Id>)
    requires i <= 16
    decreases 16 - i
  {
    if i == 16 then (Clear(s), None)
    else if i >= |tries| || tries[i].None? then (s, None)
    else if HandleAvailable(s, tries[i].value) then
      (s.(generated := s.generated + {tries[i].value}), tries[i])
    else PickHandle(s, tries, i + 1)
  }

  function UniqueHandle(s: State, tries: seq<Option<Id>>): (State, Option<Id>) {
    if |s.generated| >= MAX_CONTROLS then (Clear(s), None) else PickHandle(s, tries, 0)
  }

  function InsertPending(s: State, id: Id, mutation: Option<Generation>): State {
    var t := if id in s.cancelled then CancelAll(s, {HandleOf(mutation, id)}) else s;
    t.(pending := t.pending[id := mutation])
  }

  function MutationPending(s: State, id: Id, g: Generation): State {
    InsertPending(Alias(s, id, g), id, Some(g))
  }

  /** Registers the newest generation as the current mutation, unless the alias budget is spent. */
  function OpenMutation(s: State, id: Id): (State, bool) {
    var g := s.nextGeneration;
    var (t, ok) := Reserve(s, g, 2);
    if ok then (MutationPending(t.(work := Some(g)), id, g), true) else (t, false)
  }

  /** False means that the mutation was refused. */
  function StartMutation(s: State, id: Id): (State, bool) {
    if s.work.Some? then (s, false) else OpenMutation(s.(nextGeneration := s.nextGeneration + 1), id)
  }

  function Without(m: map<Id, Generation>, g: Generation): map<Id, Generation> {
    map id | id in m && m[id] != g :: m[id]
  }

  function PendingWithout(pending: map<Id, Option<Generation>>, g: Generation): map<Id, Option<Generation>> {
    map id | id in pending && pending[id] != Some(g) :: pending[id]
  }

  function StreamsWithout(streams: set<Id>, objects: map<Id, Stream>, g: Generation): set<Id> {
    set id | id in streams && (id in objects ==> objects[id].mutation != Some(g))
  }

  /** The terminal history of the aliases of `g`. */
  function Retired(aliases: map<Id, Generation>, g: Generation, dispatched: bool): map<Id, bool> {
    map id | id in aliases && aliases[id] == g :: dispatched
  }

  function FinishMutation(s: State, g: Generation): (State, bool) {
    var dispatched := s.CellOf(OfMutation(g)).Dispatched?;
    var t := CancelAll(s, {OfMutation(g)});
    (t.(work := if s.Owns(g) then None else s.work,
        pending := PendingWithout(s.pending, g),
        authorizations := Without(s.authorizations, g),
        streams := StreamsWithout(s.streams, s.objects, g),
        history := s.history + Retired(s.aliases, g, dispatched),
        aliases := Without(s.aliases, g),
        reserved := s.reserved[g := 0]),
     dispatched)
  }

  /** Releases what a failed or finished request holds: its mutation, or one read slot. */
  function Release(s: State, mutation: Option<Generation>): State {
    if mutation.Some? then FinishMutation(s, mutation.value).0 else s.(readSlots := LessOne(s.readSlots))
  }

  /** The mutations of the authorizations in `expired`, in the order they are met. */
  function ExpiredOwners(s: State, expired: seq<Id>): seq<Generation> {
    if expired == [] then []
    else (if expired[0] in s.authorizations then [s.authorizations[expired[0]]] else [])
         + ExpiredOwners(s, expired[1..])
  }

  function FinishEach(s: State, gs: seq<Generation>): State
    decreases |gs|
  {
    if gs == [] then s else FinishEach(FinishMutation(s, gs[0]).0, gs[1..])
  }

  /** `expired` lists the authorizations whose deadline the clock has reached. */
  function ExpireAuthorizations(s: State, expired: seq<Id>): State {
    FinishEach(s, ExpiredOwners(s, expired))
  }

  /** Publishes a response under a fresh handle, which becomes an alias of its mutation. */
  function OpenStream(s: State, handle: Id, control: Id, mutation: Option<Generation>): State {
    var t := if mutation.Some? then Alias(s, handle, mutation.value) else s;
    t.(streams := t.streams + {handle},
       objects := t.objects[handle := Stream(mutation, control, mutation.Some?, false, 0, -1, false)])
  }

  function Respond(s: State, control: Id, mutation: Option<Generation>, tries: seq<Option<Id>>): State {
    var (t, handle) := UniqueHandle(s, tries);
    if handle.Some? then OpenStream(t, handle.value, control, mutation) else Release(t, mutation)
  }

  /** The locked tail of a read or an execute; `ok` says whether a response head arrived. */
  function FinishStream(s: State, id: Id, connectionId: Id, mutation: Option<Generation>, ok: bool,
                        tries: seq<Option<Id>>): State
  {
    var still := id in s.pending;
    var t := s.(pending := s.pending - {id});
    if !still || HandleOf(mutation, id) in s.tokens || !s.Bound(connectionId)
       || (mutation.Some? && !s.Owns(mutation.value))
    then
      if mutation.Some? || still then Release(t, mutation) else t
    else if ok then Respond(t, id, mutation, tries)
    else Release(t, mutation)
  }

  /** Publishes an authorization under a fresh handle, unless the clock cannot be read. */
  function Grant(s: State, g: Generation, tries: seq<Option<Id>>, clock: bool): State {
    var (t, handle) := UniqueHandle(s, tries);
    if handle.None? then FinishMutation(t, g).0
    else
      var u := Alias(t, handle.value, g);
      if clock then u.(authorizations := u.authorizations[handle.value := g]) else FinishMutation(u, g).0
  }

  /** The locked tail of an authorize; `clock` says whether the clock could be read. */
  function FinishAuthorize(s: State, id: Id, connectionId: Id, g: Generation, ok: bool,
                           tries: seq<Option<Id>>, clock: bool): State
  {
    var t := s.(pending := s.pending - {id});
    if id !in s.pending || !s.Owns(g) || OfMutation(g) in s.tokens || !s.Bound(connectionId) || !ok then
      FinishMutation(t, g).0
    else Grant(t, g, tries, clock)
  }

  /** Takes a stream out of `streams`, cancels its token and gives a read slot back. */
  function DropStream(s: State, id: Id): State
    requires id in s.objects
  {
    s.(streams := s.streams - {id}, tokens := s.tokens + {s.objects[id].Token()}, readSlots := LessOne(s.readSlots))
  }

  /**
   The end of a stream that is still open. The token of a mutation's stream is the mutation's
   own, and finishing the mutation cancels it and drops all its streams.
   */
  function CloseStream(s: State, id: Id): State {
    if id !in s.streams || id !in s.objects then s
    else if s.objects[id].mutation.Some? then FinishMutation(s, s.objects[id].mutation.value).0
    else DropStream(s, id)
  }

  function Mark(s: State, target: Id): State {
    s.(cancelled := s.cancelled + {target})
  }

  /** Cancels a target that is not an alias: a read, a pull of a read, or a read stream. */
  function CancelPlain(s: State, target: Id): State {
    var t := if target in s.pending then CancelAll(s, {HandleOf(s.pending[target], target)}) else s;
    if target in t.streams && target in t.objects then DropStream(t, target) else t
  }

  /** The locked region of a cancel command, and the `dispatched` flag it answers, if it answers. */
  function CancelTarget(s: State, target: Id): (State, Option<bool>) {
    if |s.cancelled| >= MAX_CONTROLS && target !in s.cancelled then (Clear(s), None)
    else if target in s.aliases then
      var (t, dispatched) := FinishMutation(s, s.aliases[target]);
      (Mark(t, target), Some(dispatched))
    else
      (CancelPlain(Mark(s, target), target),
       Some((target in s.history && s.history[target])
            || (target in s.pending && s.CellOf(HandleOf(s.pending[target], target)).Dispatched?)
            || (target in s.streams && target in s.objects && s.objects[target].dispatched)))
  }

  /** The mutation an id has joined, if any. */
  function OwnerOf(s: State, id: Id): Option<Generation> {
    if id in s.owner then Some(s.owner[id]) else None
  }

  // ---- what every operation keeps

  /** Every alias, authorization, mutation control, mutation stream and reservation belongs to `work`. */
  ghost predicate Belongs(s: State) {
    && (s.work.Some? ==> 1 <= s.work.value <= s.nextGeneration)
    && (forall id | id in s.aliases :: s.work == Some(s.aliases[id]))
    && (forall id | id in s.authorizations :: id in s.aliases && s.aliases[id] == s.authorizations[id])
    && (forall id | id in s.pending && s.pending[id].Some? ::
          id in s.aliases && s.pending[id] == Some(s.aliases[id]))
    && (forall id | id in s.streams ::
          id in s.objects
          && (s.objects[id].mutation.Some? ==> id in s.aliases && s.objects[id].mutation == Some(s.aliases[id])))
    && (forall g | g in s.reserved :: s.work == Some(g))
  }

  /** Controls, handles, live aliases and retired aliases never get mixed up. */
  ghost predicate Separate(s: State) {
    && s.aliases.Keys !! s.history.Keys
    && s.seen !! s.generated
    && s.aliases.Keys + s.history.Keys <= s.seen + s.generated
    && s.streams <= s.generated
    && s.pending.Keys <= s.seen
    && (forall id | id in s.aliases :: id in s.owner && s.owner[id] == s.aliases[id])
    && s.history.Keys <= s.owner.Keys
    && (!s.disposed ==> s.owner.Keys <= s.aliases.Keys + s.history.Keys && s.objects.Keys <= s.generated)
    && !s.panicked
  }

  /** Only the current mutation can still be idle or have a live token, and then no id of it was cancelled. */
  ghost predicate Owned(s: State) {
    && (forall id | id in s.owner :: 1 <= s.owner[id] <= s.nextGeneration)
    && (forall id | id in s.owner
                    && (s.CellOf(OfMutation(s.owner[id])).Idle? || OfMutation(s.owner[id]) !in s.tokens) ::
          s.work == Some(s.owner[id]) && id !in s.cancelled)
  }

  ghost predicate Tokens(s: State) {
    && (forall g: Generation | OfMutation(g) in s.tokens :: !s.CellOf(OfMutation(g)).Idle?)
    && (forall g: Generation | OfMutation(g) in s.cells :: 1 <= g <= s.nextGeneration)
  }

  /** The history of a retired id says what the cell of its mutation says. */
  ghost predicate Recorded(s: State) {
    forall id | id in s.history && id in s.owner ::
      var c := s.CellOf(OfMutation(s.owner[id]));
      !c.Idle? && s.history[id] == c.Dispatched? && OfMutation(s.owner[id]) in s.tokens
  }

  /** The handle of a stream belongs to the stream's mutation, and that of a read stream to none. */
  ghost predicate Flagged(s: State) {
    && (forall id: Id :: !s.CellOf(OfControl(id)).Dispatched?)
    && (forall id | id in s.objects ::
          s.objects[id].dispatched == s.objects[id].mutation.Some? && s.objects[id].mutation == OwnerOf(s, id))
  }

  /** A stream that left `streams` has a cancelled token. */
  ghost predicate ClosedCancelled(s: State) {
    forall id | id in s.objects && id !in s.streams :: s.objects[id].Token() in s.tokens
  }

  ghost predicate Emptied(s: State) {
    s.disposed ==>
      && s.connection.None? && s.work.None? && s.aliases == map[] && s.history == map[]
      && s.authorizations == map[] && s.pending == map[] && s.streams == {} && s.readSlots == 0
      && s.reserved == multiset{} && s.seen == {} && s.generated == {} && s.cancelled == {}
  }

  ghost predicate StateInv(s: State) {
    && Belongs(s) && Separate(s) && Owned(s) && Tokens(s) && Recorded(s) && Flagged(s)
    && ClosedCancelled(s) && Emptied(s) && Used(s) <= MAX_ALIASES
  }
}
