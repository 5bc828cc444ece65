/**
 The host as a concurrent system: the shared state and the commands in flight.

 A command releases the lock while the network works, so each locked region is one
 step, and so are the lock-free `begin` of a dispatch and the read of a chunk. Clocks,
 randomness and the network are parameters of the steps: an expiry may happen at any
 time, and any request may fail.
 */
module HostSteps {
  import opened Basics
  import opened HostState

  datatype Command =
    | Connect
    | ReadAccess(connection: Id)
    | Read(connection: Id, context: Id)
    | Authorize(connection: Id)
    | Execute(connection: Id, authorization: Id)
    | Pull(connection: Id, stream: Id, ack: int)
    | Cancel(connection: Id, target: Id)
    | Dispose(connection: Id)

  /** What a pull has in hand when it takes the lock again. */
  datatype Outcome = Failed | Got(seqNo: nat, last: bool)

  /** Where a command in flight stands. */
  datatype Task =
    | Accepted(command: Command)
    | Reading(connection: Id)
    | Authorizing(connection: Id, generation: Generation)
    | Executing(connection: Id, generation: Generation, begun: Option<bool>)
    | Pulling(connection: Id, stream: Id, ack: int)
    | Pulled(connection: Id, stream: Id, ack: int, outcome: Outcome)

  datatype System = System(state: State, tasks: map<Id, Task>)

  const START := System(INITIAL, map[])

  datatype Step =
    | Accept(id: Id, command: Command)
    | Refuse(id: Id)                     // an error answered without a state change
    | DoConnect(id: Id, tries: seq<Option<Id>>)
    | DoReadAccess(id: Id, tries: seq<Option<Id>>, clock: bool)
    | StartRead(id: Id, live: bool)
    | EndRead(id: Id, ok: bool, tries: seq<Option<Id>>)
    | StartAuthorize(id: Id, expired: seq<Id>)
    | EndAuthorize(id: Id, ok: bool, tries: seq<Option<Id>>, clock: bool)
    | StartExecute(id: Id, expired: seq<Id>)
    | Begin(id: Id)
    | EndExecute(id: Id, ok: bool, tries: seq<Option<Id>>)
    | StartPull(id: Id)
    | ReadChunk(id: Id, live: bool, chunk: Option<bool>) // the chunk's `done` flag, if one arrives
    | EndPull(id: Id)
    | DoCancel(id: Id)
    | DoDispose(id: Id)
    | Disconnect
    | ExpireAuthorization(authorization: Id, generation: Generation)
    | ExpireStream(stream: Id)

  predicate IsAccepted(y: System, id: Id) {
    id in y.tasks && y.tasks[id].Accepted?
  }

  function Drop(y: System, id: Id, s: State): System {
    System(s, y.tasks - {id})
  }

  function DoAccept(y: System, id: Id, command: Command): System {
    var s := y.state;
    if s.disposed then y
    else if |s.seen| >= MAX_CONTROLS then y.(state := Clear(s))
    else if id in s.generated || id in s.aliases || id in s.history || id in s.seen then y
    else System(s.(seen := s.seen + {id}), y.tasks[id := Accepted(command)])
  }

  function Connecting(s: State, tries: seq<Option<Id>>): State {
    if s.disposed || s.connection.Some? then s
    else
      var (t, handle) := UniqueHandle(s, tries);
      if handle.None? then t else t.(connection := Some(Connection(handle.value, None)))
  }

  /** `clock` says whether the clock could be read; a handle that was drawn before stays drawn. */
  function GrantingRead(s: State, connectionId: Id, tries: seq<Option<Id>>, clock: bool): State {
    if !s.Bound(connectionId) then s
    else
      var (t, handle) := UniqueHandle(s, tries);
      if handle.None? || !clock then t
      else t.(connection := if t.connection.None? then None
                            else Some(Connection(t.connection.value.id, handle)))
  }

  /** Takes a read slot and registers the control. */
  function OpenRead(s: State, id: Id): State {
    InsertPending(s.(readSlots := s.readSlots + 1), id, None)
  }

  const MAX_READS := 4

  predicate MayRead(s: State, c: Command, live: bool)
    requires c.Read?
  {
    s.Bound(c.connection) && s.connection.value.read == Some(c.context) && live && s.readSlots < MAX_READS
  }

  function StartingRead(y: System, id: Id, c: Command, live: bool): System
    requires c.Read?
  {
    if MayRead(y.state, c, live) then System(OpenRead(y.state, id), y.tasks[id := Reading(c.connection)])
    else Drop(y, id, y.state)
  }

  function StartingAuthorize(y: System, id: Id, c: Command, expired: seq<Id>): System
    requires c.Authorize?
  {
    if !y.state.Bound(c.connection) then Drop(y, id, y.state)
    else
      var (t, ok) := StartMutation(ExpireAuthorizations(y.state, expired), id);
      if ok then System(t, y.tasks[id := Authorizing(c.connection, t.nextGeneration)]) else Drop(y, id, t)
  }

  /** Consumes an authorization: its mutation reserves two aliases, and the control takes one. */
  function Consume(s: State, id: Id, a: Id, g: Generation): (State, bool) {
    var (t, ok) := Reserve(s, g, 2);
    if ok then (MutationPending(t.(authorizations := t.authorizations - {a}), id, g), true) else (t, false)
  }

  function StartingExecute(y: System, id: Id, c: Command, expired: seq<Id>): System
    requires c.Execute?
  {
    if !y.state.Bound(c.connection) then Drop(y, id, y.state)
    else
      var s := ExpireAuthorizations(y.state, expired);
      if c.authorization !in s.authorizations then Drop(y, id, s)
      else
        var g := s.authorizations[c.authorization];
        var (t, ok) := Consume(s, id, c.authorization, g);
        if ok then System(t, y.tasks[id := Executing(c.connection, g, None)]) else Drop(y, id, t)
  }

  /** `begin`: a compare-exchange from idle, outside the state lock. */
  function Beginning(y: System, id: Id, k: Task): System
    requires k.Executing?
  {
    if k.begun.Some? then y
    else
      var h := OfMutation(k.generation);
      if y.state.CellOf(h).Idle? then
        System(y.state.(cells := y.state.cells[h := Dispatched]), y.tasks[id := k.(begun := Some(true))])
      else y.(tasks := y.tasks[id := k.(begun := Some(false))])
  }

  /** Claims the reader of a stream for the control `id`; a mutation's pull also takes an alias. */
  function OpenPull(s: State, id: Id, stream: Id): (State, bool)
    requires stream in s.objects
  {
    var o := s.objects[stream];
    var t := s.(objects := s.objects[stream := o.(pulling := true)]);
    if o.mutation.None? then (InsertPending(t, id, None), true)
    else
      var (u, ok) := Reserve(t, o.mutation.value, 1);
      if ok then (MutationPending(u, id, o.mutation.value), true) else (u, false)
  }

  function StartingPull(y: System, id: Id, c: Command): System
    requires c.Pull?
  {
    var s := y.state;
    if !s.Bound(c.connection) || c.stream !in s.streams || c.stream !in s.objects
       || s.objects[c.stream].pulling
    then Drop(y, id, s)
    else
      var (t, ok) := OpenPull(s, id, c.stream);
      if ok then System(t, y.tasks[id := Pulling(c.connection, c.stream, c.ack)]) else Drop(y, id, t)
  }

  /** A pull waits on the token of its control, and its reader on the token of the stream. */
  predicate PullCancelled(s: State, id: Id, o: Stream) {
    o.Token() in s.tokens || HandleOf(o.mutation, id) in s.tokens
  }

  /** The reader after a pull with `ack`, and what the pull has in hand. */
  function NextChunk(o: Stream, ack: int, cancelled: bool, live: bool, chunk: Option<bool>): (Stream, Outcome) {
    if !live || o.done || ack != o.previousAck || cancelled || chunk.None? then (o, Failed)
    else (o.(nextSeq := o.nextSeq + 1, previousAck := o.nextSeq, done := chunk.value), Got(o.nextSeq, chunk.value))
  }

  function ReadingChunk(y: System, id: Id, k: Task, live: bool, chunk: Option<bool>): System
    requires k.Pulling? && k.stream in y.state.objects
  {
    var o := y.state.objects[k.stream];
    var (p, outcome) := NextChunk(o, k.ack, PullCancelled(y.state, id, o), live, chunk);
    System(y.state.(objects := y.state.objects[k.stream := p]),
           y.tasks[id := Pulled(k.connection, k.stream, k.ack, outcome)])
  }

  /** What a pull answers: its chunk, unless it or its stream was cancelled meanwhile. */
  function Delivered(s: State, id: Id, k: Task): Outcome
    requires k.Pulled? && k.stream in s.objects
  {
    if PullCancelled(s, id, s.objects[k.stream]) || !s.Bound(k.connection) then Failed else k.outcome
  }

  /** Unregisters a pull and lets go of the reader. */
  function LetGo(s: State, id: Id, stream: Id): State
    requires stream in s.objects
  {
    s.(pending := s.pending - {id}, objects := s.objects[stream := s.objects[stream].(pulling := false)])
  }

  function EndingPull(s: State, id: Id, k: Task): State
    requires k.Pulled? && k.stream in s.objects
  {
    var outcome := Delivered(s, id, k);
    var t := LetGo(s, id, k.stream);
    if outcome.Failed? || outcome.last then CloseStream(t, k.stream) else t
  }

  /** One step; a step that is not enabled changes nothing. */
  function Next(y: System, p: Step): System {
    var s := y.state;
    match p
    case Accept(id, command) => DoAccept(y, id, command)
    case Refuse(id) => if IsAccepted(y, id) then Drop(y, id, s) else y
    case DoConnect(id, tries) =>
      if IsAccepted(y, id) && y.tasks[id].command.Connect? then Drop(y, id, Connecting(s, tries)) else y
    case DoReadAccess(id, tries, clock) =>
      if IsAccepted(y, id) && y.tasks[id].command.ReadAccess?
      then Drop(y, id, GrantingRead(s, y.tasks[id].command.connection, tries, clock)) else y
    case StartRead(id, live) =>
      if IsAccepted(y, id) && y.tasks[id].command.Read? then StartingRead(y, id, y.tasks[id].command, live) else y
    case EndRead(id, ok, tries) =>
      if id in y.tasks && y.tasks[id].Reading?
      then Drop(y, id, FinishStream(s, id, y.tasks[id].connection, None, ok, tries)) else y
    case StartAuthorize(id, expired) =>
      if IsAccepted(y, id) && y.tasks[id].command.Authorize?
      then StartingAuthorize(y, id, y.tasks[id].command, expired) else y
    case EndAuthorize(id, ok, tries, clock) =>
      if id in y.tasks && y.tasks[id].Authorizing?
      then Drop(y, id, FinishAuthorize(s, id, y.tasks[id].connection, y.tasks[id].generation, ok, tries, clock))
      else y
    case StartExecute(id, expired) =>
      if IsAccepted(y, id) && y.tasks[id].command.Execute?
      then StartingExecute(y, id, y.tasks[id].command, expired) else y
    case Begin(id) =>
      if id in y.tasks && y.tasks[id].Executing? then Beginning(y, id, y.tasks[id]) else y
    case EndExecute(id, ok, tries) =>
      if id in y.tasks && y.tasks[id].Executing?
      then Drop(y, id, FinishStream(s, id, y.tasks[id].connection, Some(y.tasks[id].generation),
                                    ok && y.tasks[id].begun == Some(true), tries))
      else y
    case StartPull(id) =>
      if IsAccepted(y, id) && y.tasks[id].command.Pull? then StartingPull(y, id, y.tasks[id].command) else y
    case ReadChunk(id, live, chunk) =>
      if id in y.tasks && y.tasks[id].Pulling? && y.tasks[id].stream in s.objects
      then ReadingChunk(y, id, y.tasks[id], live, chunk) else y
    case EndPull(id) =>
      if id in y.tasks && y.tasks[id].Pulled? && y.tasks[id].stream in s.objects
      then Drop(y, id, EndingPull(s, id, y.tasks[id])) else y
    case DoCancel(id) =>
      if IsAccepted(y, id) && y.tasks[id].command.Cancel? && s.Bound(y.tasks[id].command.connection)
      then Drop(y, id, CancelTarget(s, y.tasks[id].command.target).0) else y
    case DoDispose(id) =>
      if IsAccepted(y, id) && y.tasks[id].command.Dispose? && s.Bound(y.tasks[id].command.connection)
      then Drop(y, id, Clear(s)) else y
    case Disconnect => y.(state := Clear(s))
    case ExpireAuthorization(a, g) =>
      if a in s.authorizations && s.authorizations[a] == g then y.(state := FinishMutation(s, g).0) else y
    case ExpireStream(id) => y.(state := CloseStream(s, id))
  }

  function Run(y: System, steps: seq<Step>): System
    decreases |steps|
  {
    if steps == [] then y else Run(Next(y, steps[0]), steps[1..])
  }

  // ---- what every step keeps

  /** Tasks that still have one alias to take: an authorize or an execute waiting for its answer. */
  predicate Holds(k: Task) {
    k.Authorizing? || k.Executing?
  }

  predicate Pulls(k: Task) {
    k.Pulling? || k.Pulled?
  }

  /** A pull has joined the mutation of its stream, and the pull of a read is registered. */
  ghost predicate PullOwned(s: State, id: Id, stream: Id)
    requires stream in s.objects
  {
    && OwnerOf(s, id) == s.objects[stream].mutation
    && (s.objects[stream].mutation.None? && !s.disposed ==> id in s.pending && s.pending[id].None?)
  }

  ghost predicate TaskOk(s: State, id: Id, k: Task) {
    && (!s.disposed ==> id in s.seen)
    && (k.Accepted? ==> !s.disposed ==> id !in s.owner && id !in s.pending)
    && (k.Reading? ==> !s.disposed ==> id in s.pending && s.pending[id].None?)
    && (Holds(k) ==> id in s.owner && s.owner[id] == k.generation
                     && (s.Owns(k.generation) ==>
                           s.reserved[k.generation] >= 1 && id in s.pending && s.pending[id] == Some(k.generation)))
    && (Pulls(k) ==> k.stream in s.objects && s.objects[k.stream].pulling && PullOwned(s, id, k.stream))
  }

  ghost predicate TasksOk(y: System) {
    forall id | id in y.tasks :: TaskOk(y.state, id, y.tasks[id])
  }

  /** One authorization, or one task that holds a mutation, but never both and never two. */
  ghost predicate Single(y: System) {
    && (forall i, j | i in y.tasks && j in y.tasks && Holds(y.tasks[i]) && Holds(y.tasks[j])
                      && y.tasks[i].generation == y.tasks[j].generation :: i == j)
    && (forall a, b | a in y.state.authorizations && b in y.state.authorizations :: a == b)
    && (forall i, a | i in y.tasks && a in y.state.authorizations && Holds(y.tasks[i]) ::
          y.tasks[i].generation != y.state.authorizations[a])
  }

  /** At most one pull is active on a stream. */
  ghost predicate SinglePull(y: System) {
    forall i, j | i in y.tasks && j in y.tasks && Pulls(y.tasks[i]) && Pulls(y.tasks[j])
                  && y.tasks[i].stream == y.tasks[j].stream :: i == j
  }

  ghost predicate Inv(y: System) {
    StateInv(y.state) && TasksOk(y) && Single(y) && SinglePull(y)
  }
}
