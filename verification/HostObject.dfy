/**
 The host's `State` as the mutable object behind the lock: methods that update it in place,
 each proved to take it where the specification in `HostState` says.
 */
module HostObject {
  import opened Basics
  import opened HostState

  lemma CancelTwice(cells: map<Handle, Cell>, hs: set<Handle>, more: set<Handle>)
    ensures CancelCells(CancelCells(cells, hs), more) == CancelCells(cells, hs + more)
  {
  }

  lemma CancelNone(cells: map<Handle, Cell>)
    ensures CancelCells(cells, {}) == cells
  {
  }

  lemma CancelOne(cells: map<Handle, Cell>, h: Handle)
    ensures CancelCells(cells, {h}) == cells[h := (if h in cells then cells[h] else Idle).Cancel()]
  {
  }

  lemma PendingStep(pending: map<Id, Option<Generation>>, rest: set<Id>, id: Id)
    requires id in rest && rest <= pending.Keys
    ensures PendingHandles(pending - (rest - {id})) == PendingHandles(pending - rest) + {HandleOf(pending[id], id)}
  {
    var more := pending - (rest - {id});
    assert forall i | i in more :: i == id || (i in pending - rest && (pending - rest)[i] == more[i]);
    assert more[id] == pending[id];
  }

  lemma NonePending(pending: map<Id, Option<Generation>>)
    ensures PendingHandles(pending - pending.Keys) == {}
  {
  }

  lemma StreamStep(streams: set<Id>, objects: map<Id, Stream>, rest: set<Id>, id: Id)
    requires id in rest && rest <= streams
    ensures StreamTokens(streams - (rest - {id}), objects)
         == StreamTokens(streams - rest, objects) + if id in objects then {objects[id].Token()} else {}
  {
    assert streams - (rest - {id}) == (streams - rest) + {id};
  }

  lemma NoStreams(objects: map<Id, Stream>)
    ensures StreamTokens({}, objects) == {}
  {
  }

  /** The aliases that are left when all but `rest` have been looked at. */
  function Kept(aliases: map<Id, Generation>, g: Generation, rest: set<Id>): map<Id, Generation> {
    map id | id in aliases && (id in rest || aliases[id] != g) :: aliases[id]
  }

  lemma KeptEnds(aliases: map<Id, Generation>, g: Generation, d: bool)
    ensures Kept(aliases, g, aliases.Keys) == aliases && Kept(aliases, g, {}) == Without(aliases, g)
    ensures Retired(aliases - aliases.Keys, g, d) == map[] && aliases - {} == aliases
  {
  }

  lemma KeptStep(aliases: map<Id, Generation>, g: Generation, rest: set<Id>, id: Id)
    requires id in rest && rest <= aliases.Keys
    ensures Kept(aliases, g, rest - {id})
         == if aliases[id] == g then Kept(aliases, g, rest) - {id} else Kept(aliases, g, rest)
  {
  }

  lemma RetiredStep(aliases: map<Id, Generation>, g: Generation, rest: set<Id>, id: Id, d: bool, history: map<Id, bool>)
    requires id in rest && rest <= aliases.Keys
    ensures history + Retired(aliases - (rest - {id}), g, d)
         == if aliases[id] == g then (history + Retired(aliases - rest, g, d))[id := d]
            else history + Retired(aliases - rest, g, d)
  {
  }

  lemma MarkCommutes(s: State, target: Id, g: Generation)
    ensures HostState.FinishMutation(Mark(s, target), g).0 == Mark(HostState.FinishMutation(s, g).0, target)
    ensures HostState.FinishMutation(Mark(s, target), g).1 == HostState.FinishMutation(s, g).1
  {
    hide CancelCells, PendingWithout, StreamsWithout, Retired, Without;
  }

  class Shared {
    var s: State

    constructor ()
      ensures s == INITIAL
    {
      s := INITIAL;
    }

    /** `DispatchState::cancel` and the token's `cancel`; answers whether the cell was dispatched. */
    method Cancel(h: Handle) returns (dispatched: bool)
      modifies this
      ensures s == CancelAll(old(s), {h}) && dispatched == old(s).CellOf(h).Dispatched?
    {
      CancelOne(s.cells, h);
      dispatched := s.CellOf(h).Dispatched?;
      s := s.(cells := s.cells[h := s.CellOf(h).Cancel()]);
      s := s.(tokens := s.tokens + {h});
    }

    method CancelPending()
      modifies this
      ensures s == CancelAll(old(s), PendingHandles(old(s).pending))
    {
      hide CancelCells, PendingHandles;
      var pending := s.pending;
      var rest := pending.Keys;
      CancelNone(s.cells);
      NonePending(pending);
      while rest != {}
        invariant rest <= pending.Keys && s == CancelAll(old(s), PendingHandles(pending - rest))
        decreases |rest|
      {
        var id :| id in rest;
        CancelTwice(old(s).cells, PendingHandles(pending - rest), {HandleOf(pending[id], id)});
        PendingStep(pending, rest, id);
        var _ := Cancel(HandleOf(pending[id], id));
        rest := rest - {id};
      }
      assert pending - {} == pending;
    }

    method CancelStreams()
      modifies this
      ensures s == old(s).(tokens := old(s).tokens + StreamTokens(old(s).streams, old(s).objects))
    {
      hide StreamTokens;
      NoStreams(s.objects);
      var tokens, rest := s.tokens, s.streams;
      assert s.streams - rest == {};
      while rest != {}
        invariant s == old(s) && rest <= s.streams && tokens == s.tokens + StreamTokens(s.streams - rest, s.objects)
        decreases |rest|
      {
        var id :| id in rest;
        StreamStep(s.streams, s.objects, rest, id);
        if id in s.objects { tokens := tokens + {s.objects[id].Token()}; }
        rest := rest - {id};
      }
      assert s.streams - {} == s.streams;
      s := s.(tokens := tokens);
    }

    method CancelLive()
      modifies this
      ensures s == CancelAll(old(s), LiveHandles(old(s)))
    {
      hide CancelCells, PendingHandles;
      CancelNone(s.cells);
      CancelTwice(s.cells, if s.work.Some? then {OfMutation(s.work.value)} else {}, PendingHandles(s.pending));
      if s.work.Some? { var _ := Cancel(OfMutation(s.work.value)); }
      CancelPending();
    }

    method Clear()
      modifies this
      ensures s == HostState.Clear(old(s))
    {
      hide CancelCells, LiveHandles, StreamTokens;
      CancelLive();
      CancelStreams();
      s := s.(connection := None, disposed := true, authorizations := map[], streams := {}, pending := map[]);
      s := s.(aliases := map[], history := map[], reserved := multiset{}, seen := {}, generated := {});
      s := s.(cancelled := {}, readSlots := 0, work := None);
    }

    method Reserve(g: Generation, count: nat) returns (ok: bool)
      modifies this
      ensures (s, ok) == HostState.Reserve(old(s), g, count)
    {
      var used := |s.aliases| + |s.history| + |s.reserved|;
      if count > (if used > MAX_ALIASES then 0 else MAX_ALIASES - used) {
        Clear();
        return false;
      }
      s := s.(reserved := s.reserved[g := s.reserved[g] + count]);
      return true;
    }

    method Alias(id: Id, g: Generation)
      modifies this
      ensures s == HostState.Alias(old(s), id, g)
    {
      s := s.(panicked := s.panicked || s.reserved[g] == 0 || id in s.aliases, owner := s.owner[id := g]);
      s := s.(reserved := s.reserved[g := LessOne(s.reserved[g])]);
      s := s.(aliases := s.aliases[id := g]);
      if id in s.cancelled { var _ := Cancel(OfMutation(g)); }
    }

    /** `tries` is what the calls of `opaque_id` yield. */
    method UniqueHandle(tries: seq<Option<Id>>) returns (r: Option<Id>)
      modifies this
      ensures (s, r) == HostState.UniqueHandle(old(s), tries)
    {
      if |s.generated| >= MAX_CONTROLS {
        Clear();
        return None;
      }
      var i := 0;
      while i < 16
        invariant i <= 16 && s == old(s) && PickHandle(s, tries, i) == PickHandle(s, tries, 0)
      {
        if i >= |tries| || tries[i].None? { return None; }
        if HandleAvailable(s, tries[i].value) {
          s := s.(generated := s.generated + {tries[i].value});
          return tries[i];
        }
        i := i + 1;
      }
      Clear();
      return None;
    }

    method InsertPending(id: Id, mutation: Option<Generation>)
      modifies this
      ensures s == HostState.InsertPending(old(s), id, mutation)
    {
      if id in s.cancelled { var _ := Cancel(HandleOf(mutation, id)); }
      s := s.(pending := s.pending[id := mutation]);
    }

    method StartMutation(id: Id) returns (ok: bool)
      modifies this
      ensures (s, ok) == HostState.StartMutation(old(s), id)
    {
      hide HostState.Reserve, HostState.Alias, HostState.InsertPending;
      if s.work.Some? { return false; }
      s := s.(nextGeneration := s.nextGeneration + 1);
      var g := s.nextGeneration;
      ok := Reserve(g, 2);
      if !ok { return; }
      s := s.(work := Some(g));
      Alias(id, g);
      InsertPending(id, Some(g));
    }

    /** `retain` over the aliases: those of `g` go to the history. */
    method RetireAliases(g: Generation, dispatched: bool)
      modifies this
      ensures s == old(s).(aliases := Without(old(s).aliases, g),
                           history := old(s).history + Retired(old(s).aliases, g, dispatched))
    {
      hide Without, Kept, Retired;
      var aliases, kept, history := s.aliases, s.aliases, s.history;
      var rest := aliases.Keys;
      KeptEnds(aliases, g, dispatched);
      while rest != {}
        invariant s == old(s) && rest <= aliases.Keys && kept == Kept(aliases, g, rest)
        invariant history == s.history + Retired(aliases - rest, g, dispatched)
        decreases |rest|
      {
        var id :| id in rest;
        KeptStep(aliases, g, rest, id);
        RetiredStep(aliases, g, rest, id, dispatched, s.history);
        rest := rest - {id};
        if aliases[id] == g {
          history, kept := history[id := dispatched], kept - {id};
        }
      }
      s := s.(aliases := kept, history := history);
    }

    method FinishMutation(g: Generation) returns (dispatched: bool)
      modifies this
      ensures (s, dispatched) == HostState.FinishMutation(old(s), g)
    {
      hide CancelCells, PendingWithout, StreamsWithout, Retired, Without;
      dispatched := Cancel(OfMutation(g));
      if s.Owns(g) { s := s.(work := None); }
      s := s.(pending := PendingWithout(s.pending, g));
      s := s.(authorizations := Without(s.authorizations, g));
      s := s.(streams := StreamsWithout(s.streams, s.objects, g));
      RetireAliases(g, dispatched);
      s := s.(reserved := s.reserved[g := 0]);
    }

    /** The list is collected before the first mutation is finished. */
    method ExpireAuthorizations(expired: seq<Id>)
      modifies this
      ensures s == HostState.ExpireAuthorizations(old(s), expired)
    {
      var rest := ExpiredOwners(s, expired);
      while rest != []
        invariant FinishEach(s, rest) == HostState.ExpireAuthorizations(old(s), expired)
        decreases |rest|
      {
        var _ := FinishMutation(rest[0]);
        rest := rest[1..];
      }
    }

    /** The rest of a cancel command, for a target that is not an alias. */
    method CancelPlain(target: Id) returns (dispatched: bool)
      modifies this
      ensures s == HostState.CancelPlain(old(s), target)
      ensures dispatched == old(
        || (target in s.history && s.history[target])
        || (target in s.pending && s.CellOf(HandleOf(s.pending[target], target)).Dispatched?)
        || (target in s.streams && target in s.objects && s.objects[target].dispatched))
    {
      hide CancelCells, DropStream, HandleOf;
      dispatched := target in s.history && s.history[target];
      if target in s.pending {
        var b := Cancel(HandleOf(s.pending[target], target));
        dispatched := dispatched || b;
      }
      if target in s.streams && target in s.objects {
        dispatched := dispatched || s.objects[target].dispatched;
        s := DropStream(s, target);
      }
    }

    method CancelTarget(target: Id) returns (answer: Option<bool>)
      modifies this
      ensures (s, answer) == HostState.CancelTarget(old(s), target)
    {
      hide HostState.Clear, HostState.FinishMutation, HostState.CancelPlain, HandleOf;
      if |s.cancelled| >= MAX_CONTROLS && target !in s.cancelled {
        Clear();
        return None;
      }
      s := Mark(s, target);
      if target in s.aliases {
        MarkCommutes(old(s), target, s.aliases[target]);
        var b := FinishMutation(s.aliases[target]);
        return Some(b);
      }
      var b := CancelPlain(target);
      return Some(b);
    }
  }
}
