# Devgraph in Dafny

A model of the parts of Devgraph in which one mistake would be silent, and proofs of what those parts promise.
`dafny verify dfyconfig.toml` checks all of it.

- **Browser host** (`Host*.dfy`). Commands, network answers, expiries and disposal interleave over one locked state.
  `HostState` holds the operations as functions on a value, `HostObject` the same operations as methods that update it
  in place, `HostSteps` the concurrent system: every locked region is one step, and so are the lock-free `begin` of a
  dispatch and the reading of a chunk. The theorems are about every run of such steps from the start: what never happens
  (`HostTheorems`, `HostStreams`), what cancellation, expiry and disposal cut off (`HostSilence`), and exactly which
  steps bring each visible event about (`HostOutcomes`, `HostCommands`, `HostHoldings`).
- **Progress migration and workflows** (`Migration`, `Workflow*.dfy`). Two staged approval workflows with returns,
  blocks, voided reviews and reopening, over stored review records that a later change can make stale. `WorkflowGates`
  tells the gates by what each stage is for and proves the tables equivalent; every operation is then granted if and
  only if the gates say so. The migration classifies old records by a chaotic iteration.
- **Work graph** (`WorkGraph`, `Containment*.dfy`, `GraphStore`, `MembershipBatch`). Dependencies, blockers, parents and
  Arenas over one graph, what each change moves along, and the batched placement of many keys.
- **Resource paths** (`ResourcePaths`). Attenuation and intersection of path grants over all hierarchies.
- **Query compiler** (`Cypher*.dfy`) and **JSON reader** (`Json*.dfy`). Both accept exactly their
  grammar, from the characters on, and read back what is written; compilation keeps the meaning, and what is delivered
  of it is characterised.
- **Edge pager** and **token bucket** (`EdgePager`, `TokenBucket`).

Where a step depends on something outside (clock, randomness, network, the rest of the graph), it is a parameter of the
step and may take any value: an expiry can happen at any time, any request can fail, and the graph can change in any way
between two operations on an item. Digests are treated as injective, so a record holds what was digested; that a review
then counts exactly while nothing it was made on has changed is `WorkflowRecords.CountsExactly`. Stored edges form sets,
and a mutation of the graph is all or nothing.

Four promises turned out not to hold on all inputs. Each has a concrete input and the exact condition under which the
code does meet it:

- A migrated row that is complete by attestation (a base Todo or a rejected Proposal) is not held to its children:
  `Migration.AttestedKeepsOpenChild`, `Migration.ChildClauseExact`.
- A compiled `COUNT(*)` returns no row, and not a zero, when nothing matches, because the two constant flag columns are
  grouping keys: `CypherMeaning.EmptyCountLost`, `CypherMeaning.CountPreservedExactly`.
- An answer without a flag is not always the answer of the query: a value over the bound is blanked before it is ordered,
  so its row can drop out of the limit together with its flag: `CypherDelivery.LongValueLost`,
  `CypherDelivery.DeliveredExactly`.
- `membership` cannot answer for a base Todo, whose kind has no place in its result type:
  `Containment.TodoUnanswered`, `Containment.MembershipAnswers`.

## Model

| member | source | states |
|---|---|---|
| `HostTheorems.CancelTellsTheTruth` | crates/devgraph-browser-host/src/host.rs:697-730 | Cancelling any id of a mutation, at any time of any run, answers dispatched if and only if the mutation is dispatched in that run. |
| `HostTheorems.FalseExcludesDispatch` | crates/devgraph-client-native/src/http.rs:25-35 | After an answer of not dispatched, no continuation dispatches the mutation. |
| `HostTheorems.AllIdsAgree` | crates/devgraph-browser-host/src/host.rs:358-388 | All ids of one mutation, live or retired, give the same answer. |
| `HostTheorems.DispatchedOnce` | crates/devgraph-client-native/src/http.rs:19-24 | A mutation is dispatched at most once in a run. |
| `HostTheorems.SettledForever` | crates/devgraph-client-native/src/http.rs:14-37 | A dispatch cell that has left idle never changes again, whatever steps follow. |
| `HostTheorems.CancelledIdStopsItsMutation` | crates/devgraph-browser-host/src/host.rs:271-281 | An id cancelled before or after it joins a mutation stops it: what was not dispatched when both had happened never is. |
| `HostTheorems.EverythingBelongsToWork` | crates/devgraph-browser-host/src/host.rs:252-256 | In every reachable state all aliases, authorizations, mutation controls, mutation streams and reservations belong to the one current mutation, and there are none without it. |
| `HostTheorems.LateAuthorize` | crates/devgraph-browser-host/src/host.rs:624-667 | An authorize that completes after its mutation ended touches only its own control and its own cell. |
| `HostTheorems.LateExecute` | crates/devgraph-browser-host/src/host.rs:752-781 | The same for a late execute. |
| `HostTheorems.LatePull` | crates/devgraph-browser-host/src/host.rs:923-950 | A late pull of a finished mutation only unregisters itself and lets go of its reader. |
| `HostTheorems.AliasAccounting` | crates/devgraph-browser-host/src/host.rs:257-311 | Aliases, history and reservations stay within 131072 together, live and retired ids are disjoint, controls never equal generated handles, and the assertions of `alias` never fail. |
| `HostRuns.Reachable` | crates/devgraph-browser-host/src/host.rs:473-950 | Every run of steps keeps the whole invariant of state and commands in flight; the exact theorems below hold wherever it does. |
| `HostEffects.NextFace` | crates/devgraph-browser-host/src/host.rs:473-950 | After every step, whether the host is disposed of, its connection, the mutation in work, the streams with their readers, the authorizations, the read slots and the reservations are what `Changes` says, told without the operations on the state. |
| `HostFaces.UniqueExact` | crates/devgraph-browser-host/src/host.rs:282-311 | A handle is drawn if and only if the tries yield an unused one, the first that they yield; the host is cleared exactly when there are too many handles or sixteen tries in a row are taken. |
| `HostOutcomes.StreamsExactly` | crates/devgraph-browser-host/src/host.rs:752-838 | A stream appears in a step if and only if the step ends a read, or an execute that was dispatched, with an answer that nobody cancelled, on its connection, for the mutation in work, and a handle is drawn. It closes exactly when the host is cleared, its mutation ends, or, for a read stream, when it is cancelled, expires or a pull ends it. |
| `HostOutcomes.OpenedStream` | crates/devgraph-browser-host/src/host.rs:803-827 | The stream that appears is open under the handle drawn, of the mutation and control of its request, at sequence 0 and acknowledgement -1, not done; its mutation owns the handle, and nothing else changes. |
| `HostOutcomes.ReleasedExactly` | crates/devgraph-browser-host/src/host.rs:764-838 | An answer that opens no stream adds none, and ends its mutation or gives one read slot back. |
| `HostOutcomes.WorkExactly` | crates/devgraph-browser-host/src/host.rs:344-388 | The mutation in work after any step: a new one is begun by exactly the authorizes that find none, or an expired one, and room; it ends by exactly the listed steps. |
| `HostOutcomes.AuthorizationsExactly` | crates/devgraph-browser-host/src/host.rs:600-690 | An authorization is published by exactly the wanted answers of an authorize, under the handle drawn and for its mutation; it goes when an execute takes it, its mutation ends or the host is cleared, and at no other time. |
| `HostOutcomes.ConnectionExactly` | crates/devgraph-browser-host/src/host.rs:519-571 | The connection is made, and given read access, by exactly the commands that draw a handle for it; only a clear takes it away. |
| `HostOutcomes.DisposedExactly` | crates/devgraph-browser-host/src/host.rs:225-251 | The host is disposed of by exactly the commands that ask for it and the steps that run out of ids, handles or aliases, and then nothing is left. |
| `HostCommands.TasksExactly` | crates/devgraph-browser-host/src/host.rs:517-950 | Where every command stands after a step: only the one that the step is about moves, on exactly the conditions told. |
| `HostCommands.SentExactly` | crates/devgraph-client-native/src/http.rs:19-24 | A dispatch is sent by exactly the first `begin` of an execute whose mutation is idle. |
| `HostCommands.ReaderExactly` | crates/devgraph-browser-host/src/host.rs:903-921 | A reader moves past a chunk exactly when it has come, the pull acknowledges the one before, and nobody cancelled. |
| `HostCommands.ChunkExactly` | crates/devgraph-browser-host/src/host.rs:923-940 | A pull answers a chunk exactly when it has read one, its connection is there, and neither it nor its stream was cancelled meanwhile. |
| `HostHoldings.ReservationsExactly` | crates/devgraph-browser-host/src/host.rs:257-281 | In every run one alias is reserved while a command waits for an answer for the mutation in work, and none otherwise: no reservation leaks. |
| `HostHoldings.ClaimsExactly` | crates/devgraph-browser-host/src/host.rs:886-941 | In every run, until disposal, a reader is claimed if and only if a pull of its stream is in flight. |
| `HostStreams.ChunksInOrder` | crates/devgraph-browser-host/src/host.rs:882-951 | In every interleaving a stream delivers chunks 0, 1, 2, ... without gap or repeat, each to a pull that acknowledged the one before, and nothing after the final one. |
| `HostSilence.CancelledDeliversNothing` | crates/devgraph-browser-host/src/host.rs:697-730 | In every run, once the cancel of a stream, or of any id of its mutation, is answered, no continuation delivers a chunk of it. |
| `HostSilence.CancelledPullAnswersNothing` | crates/devgraph-browser-host/src/host.rs:923-940 | Once the cancel of a control is answered, no pull under that control answers a chunk at any later time. |
| `HostSilence.ExpiredDeliversNothing` | crates/devgraph-browser-host/src/host.rs:865-880 | At any time of any run, a stream that expires delivers nothing in any continuation. |
| `HostSilence.DisposedDeliversNothing` | crates/devgraph-browser-host/src/host.rs:731-736 | After disposal no stream delivers anything. |
| `HostSilence.ClosedDeliversNothing` | crates/devgraph-browser-host/src/host.rs:865-880 | A stream that is no longer listed as open delivers nothing in any continuation. |
| `HostSilence.DisposalCloses` | crates/devgraph-browser-host/src/host.rs:731-736 | Disposal closes every stream. |
| `HostStreams.OnePullAtATime` | crates/devgraph-browser-host/src/host.rs:886-893 | At most one pull is active on a stream. |
| `HostStreams.ReadSlotAccounting` | crates/devgraph-browser-host/src/host.rs:589-598 | Until disposal the read slots are the reads in flight and the open read streams, and never more than four. |
| `HostObject.Shared.Clear` | crates/devgraph-browser-host/src/host.rs:225-251 | Cancels the current mutation, every pending control and every stream token in loops, and leaves the cleared state. |
| `HostObject.Shared.Reserve` | crates/devgraph-browser-host/src/host.rs:257-270 | Reserves aliases or, out of budget, clears; against the specification. |
| `HostObject.Shared.Alias` | crates/devgraph-browser-host/src/host.rs:271-281 | Moves one reservation to an alias and cancels the mutation of an id cancelled before. |
| `HostObject.Shared.UniqueHandle` | crates/devgraph-browser-host/src/host.rs:282-311 | Sixteen tries for an unused handle, else the state is cleared. |
| `HostObject.Shared.StartMutation` | crates/devgraph-browser-host/src/host.rs:344-357 | One mutation at a time, with its reservation, alias and pending control. |
| `HostObject.Shared.FinishMutation` | crates/devgraph-browser-host/src/host.rs:358-388 | Cancels first, then removes all that belongs to the mutation and records the answer for each of its ids. |
| `HostObject.Shared.ExpireAuthorizations` | crates/devgraph-browser-host/src/host.rs:739-751 | Finishes the mutations collected before the first of them is finished. |
| `HostObject.Shared.CancelTarget` | crates/devgraph-browser-host/src/host.rs:701-730 | The locked region of a cancel and its answer, against the specification that the theorems are about. |
| `Migration.Mapped` | src/devgraph/progress_migration.py:38-56 | A first classification is missing exactly when there is a reason, and otherwise agrees with both the recorded progress and the stage. |
| `Migration.MappedExact` | src/devgraph/progress_migration.py:38-56 | A row is first mapped to a progress if and only if record and stage agree on it, one of them says so, and a backlog holds no reviews. |
| `Migration.RowGapsExact` | src/devgraph/progress_migration.py:64-78 | A row has no gap if and only if its classification is justified: by an attestation with its evidence or ledger, or by all that standing at its stage takes; a blocked row needs nothing, and completion needs one of the two. |
| `Migration.GapsMonotone` | src/devgraph/workflows.py:162-220 | More completed items never create a gap. |
| `Migration.Load` | src/devgraph/progress_migration.py:29-37 | The dictionary of records: the last record of each key. |
| `Migration.Sweep` | src/devgraph/progress_migration.py:61-85 | One pass that removes as it goes keeps every classification that justifies itself, and changes nothing only when the rest does. |
| `Migration.Resolve` | src/devgraph/progress_migration.py:58-85 | The loop ends with the greatest classification that the rows claim and that justifies itself, and every refused row has a reason. |
| `Migration.Plan` | src/devgraph/progress_migration.py:13-85 | The whole plan, or the budget error exactly above 10000 records. |
| `Migration.ClassifiedExactly` | src/devgraph/progress_migration.py:58-85 | A row is in the plan with a progress if and only if it claims it and is justified when exactly what the plan completes, and what is stored as complete elsewhere, counts as done. |
| `Migration.GreatestUnique` | src/devgraph/progress_migration.py:58-85 | There is one such greatest classification. |
| `Migration.OrderIndependent` | src/devgraph/progress_migration.py:58-60 | Records in any order get the same progress. |
| `Migration.KeepsTheRecord` | src/devgraph/progress_migration.py:39-48 | A classification is never invented or overwritten. |
| `Migration.BlockersDone` | src/devgraph/workflows.py:186-190 | Every blocker of a row left done is left done by the plan or, outside it, stored as done. |
| `Migration.ChildrenDone` | src/devgraph/workflows.py:182-185 | Every child of a row left done by its workflow is done in that sense or excluded. |
| `Migration.ChildClauseExact` | src/devgraph/progress_migration.py:67-73 | For a row left done, with a workflow or without, the child clause holds for all children if and only if the row is judged by its workflow and not by an attestation. |
| `Migration.AttestedKeepsOpenChild` | src/devgraph/progress_mutations.py:138-177 | A rejected Proposal and a base Todo, each left done beside an open child by the greatest classification. |
| `WorkflowContract.PositionExact` | src/devgraph/workflow_contract.py:49-80 | The position of a stage is its index in the table of its workflow. |
| `WorkflowContract.ApprovalGaps` | src/devgraph/workflows.py:213-215 | No approval gap if and only if every phase is approved with evidence, and only asked phases are named. |
| `WorkflowGates.GapsExact` | src/devgraph/workflows.py:193-220 | No gap stands in the way of a stage if and only if nothing is asked (a block, going back), a resolution is endorsed (leaving a block), or all that the stage takes is there: the gate before it passed, an endorsed ledger after planning, a complete delivery where it is judged, every gate at done. |
| `WorkflowGates.EntryExact` | src/devgraph/workflow_contract.py:98-109 | The reviews asked on the way into a stage are exactly those whose gate is the stage before it, and the ledger after planning. |
| `WorkflowGates.ReturnExact` | src/devgraph/workflow_contract.py:81-97 | The way back leads from the later stages to the making, and from the making or a plan approval to the outset, and nowhere else. |
| `WorkflowExact.AssignExactly` | src/devgraph/workflows.py:279-295 | Assignment is granted exactly to open, unclassified work at the start of a workflow, started work not in the backlog, and what it leaves. |
| `WorkflowExact.RecordExactly` | src/devgraph/workflows.py:327-343 | A review is recorded exactly at the gate of its phase, a resolution in a block and a ledger anywhere, and what it leaves. |
| `WorkflowExact.RecordKindExact` | src/devgraph/workflow_contract.py:127-137 | What is decided at an approval or in a block is a Decision, a handoff is a Handoff, the rest are packets. |
| `WorkflowExact.TransitionExactly` | src/devgraph/workflows.py:301-325 | A transition is granted exactly as the gates say, and lands at the stage asked for with the reviews that survive the move. |
| `WorkflowExact.SetProgressExactly` | src/devgraph/progress_mutations.py:16-69 | A change of progress is granted if and only if: blockers are done, and a Todo has its ledger, a rejected Proposal its evidence and other work stands at done with all that this takes; reopened work starts over at the outset without reviews. |
| `Workflows.MovedValid` | src/devgraph/workflow_contract.py:151-167 | A legal move of a valid state gives a valid state, although nothing validates it again. |
| `Workflows.TransitionWrites` | src/devgraph/workflows.py:301-325 | A transition writes a valid state whose progress is that of its stage. |
| `Workflows.AssignWrites` | src/devgraph/workflows.py:275-293 | So does the assignment of a workflow. |
| `Workflows.SetProgressWrites` | src/devgraph/progress_mutations.py:20-56 | So does a change of progress, rejected and reopened work included. |
| `Workflows.WorkItem.Move` | src/devgraph/workflows.py:301-325 | The transition as it edits the state, review by review, against its specification. |
| `Workflows.WorkItem.Invalidate` | src/devgraph/workflows.py:317-323 | Dropping the voided reviews one by one leaves exactly the others. |
| `Workflows.WorkItem.Review` | src/devgraph/workflows.py:327-385 | A review is recorded only at its own gate. |
| `Workflows.WorkItem.Progress` | src/devgraph/progress_mutations.py:16-121 | The checks of `set_progress` in order, against its specification. |
| `Workflows.WorkItem.Classify` | src/devgraph/workflows.py:275-293 | Assignment of a workflow, which never takes started work back to the backlog. |
| `WorkflowRecords.CountsExactly` | src/devgraph/workflows.py:107-150 | A review recorded in one world counts in another if and only if its record is not archived, the content, requirements and, except for plans, the children are the same, and its evidence is still there unaltered. |
| `WorkflowRuns.RunTold` | src/devgraph/workflows.py:263-341 | In every life of an item the state holds exactly the reviews that the history says are live, each recorded at its own gate and stored as it was made. |
| `WorkflowRuns.MovesExactly` | src/devgraph/workflows.py:239-325 | In every life a move is granted if and only if the work is open and its history earns it: each gate at the stage left was passed by an approval with evidence that still stands, the ledger stands endorsed after planning and complete where the delivery is judged, a block is left to where it began on a standing resolution; and where the work then stands. |
| `WorkflowRuns.RecordsExactly` | src/devgraph/workflows.py:327-385 | A review is stored if and only if the work is open and at the gate of the phase, the id is unused, and each piece of evidence is active or created with it. |
| `WorkflowRuns.ProgressExactly` | src/devgraph/progress_mutations.py:16-121 | The same exactness for a change of progress in its surroundings, under an unused record id. |
| `WorkflowRuns.CompletedByAttestation` | src/devgraph/progress_mutations.py:56-69 | In every life only a base Todo whose ledger settles every requirement, or a rejected Proposal with evidence, is completed without a transition, and only with all blockers done. |
| `WorkflowRuns.DonePassedEveryGate` | src/devgraph/workflows.py:193-220 | A transition to done comes from the last gate; each demanded phase was recorded at its own gate as an approval with evidence, and nothing it was made on has changed since; the ledger stands too, leaves nothing unmet and excludes every open child. |
| `WorkflowRuns.ChildrenAsReviewed` | src/devgraph/workflows.py:107-123 | At done the children are, at their versions, those that every delivery review was made on. |
| `WorkflowRuns.GatesInOrder` | src/devgraph/workflow_contract.py:77-115 | Those records were made in the order of the gates. |
| `WorkflowRuns.ResumesWhereItLeft` | src/devgraph/workflows.py:199-202 | Work leaves a block by a transition only to the stage it left, on a resolution recorded in that very block as an approval with evidence, which still stands. |
| `WorkflowRuns.BackToNotStarted` | src/devgraph/workflows.py:307-314 | Started work returns to not started if and only if it resumes from a block that began in the backlog. |
| `WorkflowRuns.AlwaysConsistent` | src/devgraph/progress.py:17-39 | At any time the state is valid and the progress is that of its stage. |
| `ResourcePaths.SubsetExact` | src/devgraph/resource_paths.py:44-61 | `paths_subset` holds if and only if every well-formed ancestry admitted by the child is admitted by the parent. |
| `ResourcePaths.AttenuationExact` | src/devgraph/resource_paths.py:50-61 | The same over stores: in every hierarchy, whatever the child allows the parent allows. |
| `ResourcePaths.Realizable` | src/devgraph/resource_paths.py:97-148 | Every well-formed ancestry is the one that some store shows. |
| `ResourcePaths.OnePerKind` | src/devgraph/resource_paths.py:128-131 | An ancestry has one node of a kind at most. |
| `ResourcePaths.Merge` | src/devgraph/resource_paths.py:76-83 | Two paths merge to exactly their anchors, unless two anchors of a kind differ. |
| `ResourcePaths.IntersectPaths` | src/devgraph/resource_paths.py:64-94 | For two restricting lists, an ancestry satisfies the result if and only if it satisfies both; an empty list does not restrict. |
| `ResourcePaths.AtMostFour` | src/devgraph/resource_paths.py:97-104 | An ancestry has one to four work nodes, so the walk never runs out. |
| `ResourcePaths.CurrentResourcePath` | src/devgraph/resource_paths.py:97-148 | The walk returns the one proper ancestry that the store shows, and None exactly when there is none. |
| `ResourcePaths.AncestryUnique` | src/devgraph/resource_paths.py:97-104 | A store shows one ancestry at most. |
| `ResourcePaths.WithinPaths` | src/devgraph/resource_paths.py:151-159 | The cached test allows exactly what the paths admit, and keeps the cache true. |
| `WorkGraph.Search` | src/devgraph/named_work.py:242-250 | The depth-first loop ends on any graph and finds the source if and only if it is reachable from the target. |
| `WorkGraph.AcyclicExact` | src/devgraph/named_work.py:235-251 | Over acyclic links, a new link keeps them acyclic if and only if its source is not reachable from its target. |
| `WorkGraph.Adjacency` | src/devgraph/named_work.py:237-241 | The index lists exactly the successors of every node. |
| `Containment.MembershipAnswers` | src/devgraph/arenas.py:100-124 | From a well-formed graph membership is answered exactly for work that is not a base Todo, and never with a conflict or a missing object. |
| `Containment.TodoUnanswered` | src/devgraph/arenas.py:114-119 | A base Todo whose membership cannot be answered. |
| `Containment.SetParentKeeps` | src/devgraph/named_work.py:184-225 | A change of parent keeps one parent of an allowed kind, and one Arena at most, on parentless work. |
| `Containment.SetMemberKeeps` | src/devgraph/arenas.py:260-292 | A change of Arena keeps one Arena at most, on parentless Initiatives and Tasks. |
| `Containment.SetLinkKeeps` | src/devgraph/named_work.py:227-254 | A change of dependency or blocker keeps both relations acyclic. |
| `Containment.AlwaysSound` | src/devgraph/work_requests.py:231-254 | Every run of requests from the empty graph keeps containment well formed and links acyclic, and membership then never conflicts. |
| `ContainmentMoves.SetParentDoes` | src/devgraph/named_work.py:184-225 | After an accepted change the child has exactly the parent asked for and no Arena of its own; parents and Arenas of everything else are as before; versions grow by one on the child, both parents and the named Arena, and nowhere else. |
| `ContainmentMoves.SetParentMoves` | src/devgraph/arenas.py:100-124 | The child and all that lies below it get the Arena and root of the new parent, or become their own root; the membership of everything else stays. |
| `ContainmentMoves.SetParentExactly` | src/devgraph/named_work.py:184-205 | From a well-formed graph a change is accepted if and only if all that it names is so, at the version seen and open, and the new parent may contain the child; no other check refuses anything. |
| `ContainmentMoves.SetMemberDoes` | src/devgraph/arenas.py:260-292 | After an accepted change the member has exactly the Arena asked for, and nothing else is moved; versions grow on the member and the named Arenas only. |
| `ContainmentMoves.SetMemberMoves` | src/devgraph/arenas.py:100-124 | The member and all that lies below it are in the new Arena; the membership of everything else stays. |
| `ContainmentMoves.SetMemberExactly` | src/devgraph/arenas.py:260-283 | From a well-formed graph: exactly for parentless work whose Arena is the one named, with an Arena that is not archived. |
| `ContainmentMoves.SetLinkDoes` | src/devgraph/named_work.py:227-254 | An add puts exactly the one link in and a removal takes exactly it out; versions grow on its two ends. |
| `ContainmentMoves.SetLinkExactly` | src/devgraph/named_work.py:227-254 | Accepted if and only if both ends are open at the versions seen and, for an add, the links with the new one have no cycle. |
| `ContainmentMoves.MembershipExact` | src/devgraph/arenas.py:100-124 | Work is placed at the parentless work that it descends from, and in the Arena of that work. |
| `GraphStore.MembershipOf` | src/devgraph/arenas.py:100-124 | The ancestor walk with its visited set, against the specification, on any graph. |
| `GraphStore.Store.ParentSet` | src/devgraph/named_work.py:184-225 | The change of parent as it edits edges and versions, or nothing at all. |
| `GraphStore.Store.MemberSet` | src/devgraph/arenas.py:260-292 | The change of Arena as it edits edges and versions, or nothing at all. |
| `GraphStore.Store.LinkSet` | src/devgraph/named_work.py:227-260 | An add is refused for a cycle if and only if the source is reachable from the target. |
| `MembershipBatch.CaptureAll` | src/devgraph/arenas.py:133-158 | At most four frontiers; the capacity error cannot be raised with 10000 keys; a failure means that some key cannot be traced. |
| `MembershipBatch.ResolveOne` | src/devgraph/arenas.py:160-172 | The walk that stops at anything known gives the inherited Arena to its whole trail. |
| `MembershipBatch.MembershipIds` | src/devgraph/arenas.py:126-173 | Answers exactly for at most 10000 distinct keys that can all be traced, each with the Arena at its root. |
| `MembershipBatch.BatchAgrees` | src/devgraph/arenas.py:100-124 | Wherever `membership` answers, the batch gives the same Arena. |
| `CypherMeaning.FoundStrict` | src/devgraph/cypher_read.py:236-239 | On any graph the compiled statement finds exactly the matches whose nodes have one label and say it as their kind. |
| `CypherMeaning.MeaningPreserved` | src/devgraph/cypher_read.py:209-325 | On canonical nodes whose returned values are missing, or typed and within the bound, the compiled rows without flags are the rows of the query, ordered and cut alike. |
| `CypherMeaning.StrictMeaning` | src/devgraph/cypher_read.py:209-325 | On any graph the same holds over the strict matches. |
| `CypherMeaning.FlagsTellTheTruth` | src/devgraph/cypher_read.py:263-285 | On any graph a returned row has a blank cell if and only if its invalid or its large flag is raised. |
| `CypherMeaning.CountPreservedExactly` | src/devgraph/cypher_read.py:245-256 | A count is preserved if and only if something matches. |
| `CypherMeaning.EmptyCountLost` | src/devgraph/cypher_read.py:313-316 | A query and a graph for which the zero is lost. |
| `CypherMeaning.Deliver` | src/devgraph/storage/cypher_read.py:77-86 | Rows are passed on without their flags if and only if no flag is raised. |
| `CypherDelivery.DeliveredExactly` | src/devgraph/cypher_read.py:262-312 | On canonical nodes, an answer that raises no flag is the answer of the query if and only if every row that the query asks for has all its values, typed and within the bound. |
| `CypherDelivery.Answer` | src/devgraph/storage/cypher_read.py:77-86 | From a query to what is handed out: delivered exactly when no flag is raised, and then under that same condition the answer. |
| `CypherDelivery.LongerLost` | src/devgraph/cypher_read.py:262-312 | Of any two descriptions, one over the bound and a later one within it, the later one is delivered, without a flag, as the first. |
| `CypherDelivery.LongValueLost` | src/devgraph/cypher_read.py:262-312 | Such an input: a description of 16385 characters, and "b". |
| `CypherOrder.SortFiltered` | src/devgraph/cypher_read.py:286-312 | Ordering rows and leaving some of them out commute, whatever the keys. |
| `CypherTokens.TokensExact` | src/devgraph/cypher_read.py:117-134 | A text has tokens if and only if it is plain, within the size, and splits by longest match into blanks and at most 512 tokens, which are then those. |
| `CypherTokens.Tokenise` | src/devgraph/cypher_read.py:117-134 | The loop over the text, against that specification. |
| `CypherSyntaxExact.SurfaceExact` | src/devgraph/cypher_read.py:209-312 | Tokens are read as a query if and only if they are a spelling of it in the grammar, keywords in any case. |
| `CypherSyntaxExact.ListExact` | src/devgraph/cypher_read.py:226-235 | A list is read exactly up to where no separator follows, within its bound. |
| `CypherFront.AcceptedExactly` | src/devgraph/cypher_read.py:163-207 | Tokens and parameters are accepted if and only if they spell a query whose kinds, relations, names, types, parameters and columns are all known and used; what is accepted is a valid query of the closed language. |
| `CypherFront.TextAcceptedExactly` | src/devgraph/cypher_read.py:117-207 | A text is accepted if and only if it splits into tokens that spell a query of known names with used parameters. |
| `CypherFront.AcceptedMeaning` | src/devgraph/cypher_read.py:209-325 | From text to rows: an accepted query returns its own rows from canonical nodes with tame values. |
| `CypherWrite.WrittenReads` | src/devgraph/cypher_read.py:117-325 | The text of a query, with its values as parameters, is read back as that very query: kinds, direction, predicates, columns, order and limit. |
| `CypherWrite.ReadableExactly` | src/devgraph/cypher_read.py:117-325 | The queries that some text is read as are exactly the valid ones whose operators suit their properties. |
| `CypherWrite.NothingUnused` | src/devgraph/cypher_read.py:240-241 | Each parameter that is passed occurs in a predicate. |
| `CypherFront.ReadEach` | src/devgraph/cypher_read.py:226-235 | The loops over terms, columns and orderings, against their specification. |
| `CypherCompiler.Compiler.CompileQuery` | src/devgraph/cypher_read.py:209-325 | The pass that binds parameters and grows the lists builds exactly the specified statement. |
| `JsonExact.ParseExact` | crates/devgraph-client-core/src/json.rs:6-21 | Within the size limit the reader answers a value if and only if the whole input is the text of a well-formed document that means it and is nested no deeper than allowed. |
| `JsonExact.OneMeaning` | crates/devgraph-client-core/src/json.rs:6-21 | A text has one meaning at most. |
| `JsonRender.RenderReads` | crates/devgraph-work-protocol/src/lib.rs:436-475 | The canonical text of a value, its members in the order of their keys, is read back as that value by the strict reader, within its limits. |
| `JsonRender.SortedAscends` | crates/devgraph-work-protocol/src/lib.rs:447-448 | Members are written in ascending order of their keys. |
| `JsonRender.CanonicalDistinct` | crates/devgraph-work-protocol/src/lib.rs:436-475 | Distinct values have distinct canonical texts. |
| `JsonRender.HasTextExactly` | crates/devgraph-client-core/src/json.rs:47-158 | A value has a text if and only if its integers are in the range of i64 or u64 and it nests within the limit. |
| `JsonExact.TreeComplete` | crates/devgraph-client-core/src/json.rs:47-102 | Every well-formed text is read to its value and to its end, whatever follows. |
| `JsonExact.ValueSound` | crates/devgraph-client-core/src/json.rs:47-102 | Whatever is read is the text of a well-formed tree with that value and within the depth. |
| `JsonExact.ScanComplete` | crates/devgraph-client-core/src/json.rs:110-135 | The scanner finds the closing quote of every string body. |
| `JsonExact.NumberComplete` | crates/devgraph-client-core/src/json.rs:136-158 | Integers without leading zeros in the range of i64 or u64 are read whole. |
| `JsonReader.Parser.Value` | crates/devgraph-client-core/src/json.rs:47-102 | The recursive descent with its cursor, against the specification. |
| `JsonReader.ParseDocument` | crates/devgraph-client-core/src/json.rs:6-21 | The reader as a whole: exactly the documents of the grammar. |
| `EdgePager.ReadEdges` | scripts/kanban_live_preview.py:123-165 | Every edge once and in order, or the budget error exactly above 10000; the no-progress error cannot be raised. |
| `EdgePager.PagesSplit` | scripts/kanban_live_preview.py:143-152 | The two filters split what is left into the rest of the last source and the later sources. |
| `TokenBucket.WindowBound` | src/devgraph/public_read_runtime.py:322-331 | For every configuration and in every window of every run, at most the burst and the refill of the window are admitted. |
| `TokenBucket.BoundaryBound` | src/devgraph/owner_https_runtime.py:20-25 | The same from the opening of a boundary on, whatever its burst, refill and concurrency. |
| `TokenBucket.AdmitsExactly` | src/devgraph/public_read_runtime.py:322-331 | A new request is admitted if and only if a slot is free and every window that ends with it has room for one more: nothing is refused that the bound allows. |
| `TokenBucket.RunSound` | src/devgraph/public_read_runtime.py:322-363 | For every configuration, tokens stay between 0 and the burst, and `active` is the number of requests in flight and at most the concurrency limit. |
| `TokenBucket.Boundary.Arrive` | src/devgraph/public_read_runtime.py:322-331 | The admission as it updates its fields under its own limits, against its specification. |

## Left out

- Error codes and messages: a refused request is modelled as refused, without its code.
- `dispatch`, `finish_stream` and `pull` of the host are steps on values; only the operations of its state are methods.
- The host's read command can fail in `canonical_json` after taking its slot; a value that the strict reader accepted cannot make it fail, so this path has no step.
- Timers, leases and clocks of the host are steps that may happen at any time.
- The cursor over the tokens of a query: a reader takes a list of tokens and returns the rest of it.
- The text of the compiled statement, byte limits on results and the database's own planning are not modelled; ORDER BY is a stable sort with null last.
- CypherMeaning.EmptyCountLost: rests on the database taking the constant flag columns beside a count as grouping keys, as its query language says of every returned expression that is not an aggregate.
- ResourcePaths.IntersectPaths: the order of the result is not modelled, because it is sorted for display only.
- MembershipBatch.CaptureAll: reads in batches of one hundred are modelled one by one.
- The migration aborts on a child or blocker that does not exist; here every reference resolves.
- Historical JSON, reports and the write-back of the migration.
- The stored text of a review record: a record is kept as the value that it was made from, and its key is not written again. Attestations of progress are stored or not as a parameter says.
- Review contents beyond verdict, evidence, requirements and layers; white space in a reason is the six ASCII characters.
- The lifecycle of Work status, sessions, attestations of actors and proposal acceptance.
- EdgePager.ReadEdges: identifiers are ranks in their order, because only comparisons matter.
- TokenBucket.WindowBound: arithmetic is exact, so floating-point rounding of tokens is not modelled.
- JsonReader.ParseDocument: decoding of string escapes is a parameter, since the source delegates it.
- JsonRender.RenderReads: encoding of strings is a parameter too, any that the decoding undoes; numbers are integers, and the writer's own depth limit is that of the reader.
- HTTP, process management, cryptography, file checks, board and monitor projections.
