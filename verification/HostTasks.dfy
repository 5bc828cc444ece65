/** Each operation of the host leaves every other command in flight in order. */
module HostTasks {
  import opened Basics
  import opened HostState
  import opened HostSteps
  import opened HostInvariant
  import opened HostOperations

  lemma ClearTask(s: State, id: Id, k: Task)
    requires TaskOk(s, id, k)
    ensures TaskOk(Clear(s), id, k)
  {
  }

  lemma FinishTask(s: State, g: Generation, id: Id, k: Task)
    requires TaskOk(s, id, k)
    ensures TaskOk(FinishMutation(s, g).0, id, k)
  {
  }

  lemma ReserveTask(s: State, g: Generation, n: nat, id: Id, k: Task)
    requires TaskOk(s, id, k)
    ensures TaskOk(Reserve(s, g, n).0, id, k)
  {
    if Reserve(s, g, n).1 {
      assert TaskOk(s.(reserved := s.reserved[g := s.reserved[g] + n]), id, k);
    } else {
      ClearTask(s, id, k);
    }
  }

  lemma HandleTask(s: State, tries: seq<Option<Id>>, id: Id, k: Task)
    requires TaskOk(s, id, k)
    ensures TaskOk(UniqueHandle(s, tries).0, id, k)
  {
    PickHandleOutcome(s, tries, 0);
    var (t, h) := UniqueHandle(s, tries);
    if h.Some? {
      assert TaskOk(s.(generated := s.generated + {h.value}), id, k);
    } else {
      ClearTask(s, id, k);
    }
  }

  /** The newcomer is another id; a task that holds `g` keeps its own reservation. */
  lemma AliasTask(s: State, newcomer: Id, g: Generation, id: Id, k: Task)
    requires TaskOk(s, id, k) && newcomer != id
    requires Holds(k) && k.generation == g ==> s.reserved[g] >= 2
    ensures TaskOk(Alias(s, newcomer, g), id, k)
  {
    var t := Link(s, newcomer, g);
    assert TaskOk(t, id, k);
    CancelTask(t, {OfMutation(g)}, id, k);
  }

  lemma CancelTask(s: State, hs: set<Handle>, id: Id, k: Task)
    requires TaskOk(s, id, k)
    ensures TaskOk(CancelAll(s, hs), id, k)
  {
  }

  lemma PendingTask(s: State, newcomer: Id, mutation: Option<Generation>, id: Id, k: Task)
    requires TaskOk(s, id, k) && newcomer != id
    ensures TaskOk(InsertPending(s, newcomer, mutation), id, k)
  {
    CancelTask(s, {HandleOf(mutation, newcomer)}, id, k);
  }

  lemma MutationPendingTask(s: State, newcomer: Id, g: Generation, id: Id, k: Task)
    requires TaskOk(s, id, k) && newcomer != id
    requires Holds(k) && k.generation == g ==> s.reserved[g] >= 2
    ensures TaskOk(MutationPending(s, newcomer, g), id, k)
  {
    AliasTask(s, newcomer, g, id, k);
    PendingTask(Alias(s, newcomer, g), newcomer, Some(g), id, k);
  }

  lemma ReleaseTask(s: State, mutation: Option<Generation>, id: Id, k: Task)
    requires TaskOk(s, id, k)
    ensures TaskOk(Release(s, mutation), id, k)
  {
    if mutation.Some? {
      FinishTask(s, mutation.value, id, k);
    }
  }

  lemma DropStreamTask(s: State, stream: Id, id: Id, k: Task)
    requires TaskOk(s, id, k) && stream in s.objects
    ensures TaskOk(DropStream(s, stream), id, k)
  {
  }

  lemma CloseTask(s: State, stream: Id, id: Id, k: Task)
    requires TaskOk(s, id, k)
    ensures TaskOk(CloseStream(s, stream), id, k)
  {
    hide TaskOk, FinishMutation, DropStream;
    if stream in s.streams && stream in s.objects {
      if s.objects[stream].mutation.Some? {
        FinishTask(s, s.objects[stream].mutation.value, id, k);
      } else {
        DropStreamTask(s, stream, id, k);
      }
    }
  }

  lemma {:induction false} FinishEachTask(s: State, gs: seq<Generation>, id: Id, k: Task)
    requires TaskOk(s, id, k)
    ensures TaskOk(FinishEach(s, gs), id, k)
    decreases |gs|
  {
    if gs != [] {
      FinishTask(s, gs[0], id, k);
      FinishEachTask(FinishMutation(s, gs[0]).0, gs[1..], id, k);
    }
  }

  lemma OpenStreamTask(s: State, handle: Id, control: Id, mutation: Option<Generation>, id: Id, k: Task)
    requires TaskOk(s, id, k) && handle != id && handle !in s.objects
    requires mutation.Some? ==> !(Holds(k) && k.generation == mutation.value)
    ensures TaskOk(OpenStream(s, handle, control, mutation), id, k)
  {
    if mutation.Some? {
      AliasTask(s, handle, mutation.value, id, k);
      PublishedTask(Alias(s, handle, mutation.value), handle, control, mutation, id, k);
      AliasObjects(s, handle, mutation.value);
    } else {
      PublishedTask(s, handle, control, mutation, id, k);
    }
    hide TaskOk, Alias;
  }

  lemma AliasObjects(s: State, handle: Id, g: Generation)
    ensures Alias(s, handle, g).objects == s.objects
  {
    if handle in s.cancelled {
      assert Alias(s, handle, g).objects == Link(s, handle, g).objects;
    }
  }

  lemma PublishedTask(s: State, handle: Id, control: Id, mutation: Option<Generation>, id: Id, k: Task)
    requires TaskOk(s, id, k)
    ensures handle !in s.objects ==>
      TaskOk(s.(streams := s.streams + {handle},
                objects := s.objects[handle := Stream(mutation, control, mutation.Some?, false, 0, -1, false)]), id, k)
  {
  }

  lemma RespondTask(s: State, control: Id, mutation: Option<Generation>, tries: seq<Option<Id>>, id: Id, k: Task)
    requires TaskOk(s, id, k) && Separate(s) && !s.disposed
    requires mutation.Some? ==> !(Holds(k) && k.generation == mutation.value)
    ensures TaskOk(Respond(s, control, mutation, tries), id, k)
  {
    HandleTask(s, tries, id, k);
    HandleOutcomes(s, tries);
    var (t, h) := UniqueHandle(s, tries);
    if h.Some? {
      FreshHandle(s, h.value);
      assert h.value != id;
      hide TaskOk, OpenStream, UniqueHandle, Separate;
      OpenStreamTask(t, h.value, control, mutation, id, k);
    } else {
      hide TaskOk, Release, UniqueHandle, Separate;
      ReleaseTask(t, mutation, id, k);
    }
  }

  lemma HandleOutcomes(s: State, tries: seq<Option<Id>>)
    ensures var (t, h) := UniqueHandle(s, tries); HandleOutcome(s, t, h)
  {
    PickHandleOutcome(s, tries, 0);
  }

  lemma UnpendTask(s: State, control: Id, id: Id, k: Task)
    requires TaskOk(s, id, k) && control != id
    ensures TaskOk(s.(pending := s.pending - {control}), id, k)
  {
  }

  lemma UnpendSeparate(s: State, control: Id)
    requires Separate(s)
    ensures Separate(s.(pending := s.pending - {control}))
  {
  }

  lemma FinishStreamTask(s: State, control: Id, connectionId: Id, mutation: Option<Generation>, ok: bool,
                         tries: seq<Option<Id>>, id: Id, k: Task)
    requires TaskOk(s, id, k) && Separate(s) && (s.disposed ==> s.connection.None?) && control != id
    requires mutation.Some? ==> !(Holds(k) && k.generation == mutation.value)
    ensures TaskOk(FinishStream(s, control, connectionId, mutation, ok, tries), id, k)
  {
    var t := s.(pending := s.pending - {control});
    UnpendTask(s, control, id, k);
    UnpendSeparate(s, control);
    hide TaskOk, Respond, Release, Separate;
    ReleaseTask(t, mutation, id, k);
    if s.Bound(connectionId) {
      RespondTask(t, control, mutation, tries, id, k);
    }
  }

  lemma GrantTask(s: State, g: Generation, tries: seq<Option<Id>>, clock: bool, id: Id, k: Task)
    requires TaskOk(s, id, k) && Separate(s) && !s.disposed && !(Holds(k) && k.generation == g)
    ensures TaskOk(Grant(s, g, tries, clock), id, k)
  {
    HandleTask(s, tries, id, k);
    HandleOutcomes(s, tries);
    var (t, h) := UniqueHandle(s, tries);
    if h.Some? {
      assert h.value != id;
      AliasTask(t, h.value, g, id, k);
      GrantedTask(Alias(t, h.value, g), h.value, g, id, k);
      hide TaskOk, UniqueHandle, Separate, Alias, FinishMutation;
      FinishTask(Alias(t, h.value, g), g, id, k);
    } else {
      hide TaskOk, UniqueHandle, Separate, FinishMutation;
      FinishTask(t, g, id, k);
    }
  }

  lemma GrantedTask(s: State, a: Id, g: Generation, id: Id, k: Task)
    requires TaskOk(s, id, k)
    ensures TaskOk(s.(authorizations := s.authorizations[a := g]), id, k)
  {
  }

  lemma FinishAuthorizeTask(s: State, control: Id, connectionId: Id, g: Generation, ok: bool,
                            tries: seq<Option<Id>>, clock: bool, id: Id, k: Task)
    requires TaskOk(s, id, k) && Separate(s) && (s.disposed ==> s.connection.None?) && control != id
    requires !(Holds(k) && k.generation == g)
    ensures TaskOk(FinishAuthorize(s, control, connectionId, g, ok, tries, clock), id, k)
  {
    var t := s.(pending := s.pending - {control});
    UnpendTask(s, control, id, k);
    UnpendSeparate(s, control);
    hide TaskOk, Grant, FinishMutation, Separate;
    FinishTask(t, g, id, k);
    if s.Bound(connectionId) {
      GrantTask(t, g, tries, clock, id, k);
    }
  }

  lemma MarkTask(s: State, target: Id, id: Id, k: Task)
    requires TaskOk(s, id, k)
    ensures TaskOk(Mark(s, target), id, k)
  {
  }

  lemma CancelPlainTask(s: State, target: Id, id: Id, k: Task)
    requires TaskOk(s, id, k)
    ensures TaskOk(CancelPlain(s, target), id, k)
  {
    hide TaskOk, DropStream;
    var t := if target in s.pending then CancelAll(s, {HandleOf(s.pending[target], target)}) else s;
    if target in s.pending {
      CancelTask(s, {HandleOf(s.pending[target], target)}, id, k);
    }
    if target in t.streams && target in t.objects {
      DropStreamTask(t, target, id, k);
    }
  }

  lemma CancelTargetTask(s: State, target: Id, id: Id, k: Task)
    requires TaskOk(s, id, k)
    ensures TaskOk(CancelTarget(s, target).0, id, k)
  {
    ClearTask(s, id, k);
    hide TaskOk, Clear, FinishMutation, Mark, CancelPlain;
    if target in s.aliases {
      FinishTask(s, s.aliases[target], id, k);
      MarkTask(FinishMutation(s, s.aliases[target]).0, target, id, k);
    } else {
      MarkTask(s, target, id, k);
      CancelPlainTask(Mark(s, target), target, id, k);
    }
  }
}
