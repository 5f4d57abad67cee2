# Plan queue and worker bookkeeping of bluesky-queueserver

This project models two parts of the queue server of the Bluesky experiment
orchestration system, and proves properties of them.

**The plan queue engine, `PlanQueueOperations`.** It has four pieces of state:
- a queue of plans, a list in the key-value store;
- a single "running plan" slot, a scalar in which `{}` means that no plan is running;
- an append-only plan history list;
- an in-memory UID index. The index maps the UID of every queued plan and of the running plan to the exact record that is stored.

The model is the class `PlanQueueOps.PlanQueueOperations`. It has one method per
locked public operation, and its invariant `Valid()` is `UidIndex.Consistent`:
- every queued plan and the running plan carries a UID;
- the UIDs are distinct across the queue and the slot;
- the keys of the index are exactly those UIDs;
- every index entry equals the stored record. LREM and LINSERT match records by
  value, so the index entry must be that very record.

Every method that changes the queue keeps this invariant, with records treated as
values (see "## Left out" on shared dicts). Every method is proved
against a pure definition:
- `Locate` says which queue index a `pos`/`uid` argument designates;
- `AddIndex` says where an added plan lands;
- `ResolveMove` and `MovedQueue` say what a move does;
- `WithUid` and `DistinctUids` say what start-up reconciliation keeps and accepts.

The store commands are modelled with the store's semantics in `RedisList`:
- `LREM 0` removes every equal element and returns the count;
- `LINSERT` inserts next to the first equal element;
- `LINDEX` reads negative indices from the back and returns nil out of range.

**The worker bookkeeping, `RunEngineWorker`.** This is the class
`Worker.RunEngineWorker`. It keeps:
- the environment state;
- the running plan record and its completed flag;
- the foreground task UID;
- the background task counter;
- the one-shot plan report;
- the completed-task list;
- the execution queue handed to the main thread;
- the exit events.

Each command handler is a method with its accept/reject rules. The plan outcome is
the pure `PlanOutcome`, which agrees with the `_plan_exit_status_expected` table.
These are inputs of the methods:
- the Run Engine state, the IPython kernel state and the exit event;
- whether preparing or running a plan raised;
- whether a task succeeded;
- whether a thread started.

Some members are plain definitions with no contract of their own. Lemmas and
callers' contracts carry their meaning:
- `RedisList.LIndex`: `PlanQueueOps.LIndexIsNormalIndex`;
- `PlanQueueOps.StoreIndex`: `PlanQueueOps.StoreIndexDesignates`;
- `PlanQueueOps.SlotOf` and `PlanQueueOps.SlotRecord`: `PlanQueueOps.SlotRoundTrip`;
- `QueuePositions.DestRefUid`, `QueuePositions.MoveArgsRejected` and `QueuePositions.MoveDestination`: the contract of `ResolveMove`;
- `QueuePositions.DestBefore`: `MoveLandsAtDestination` and `FrontToBackRoundTrip`;
- `QueuePositions.SourceIndexAsWritten` and `QueuePositions.DestBeforeAsWritten`: `ResolveMoveAgreesAsWritten`, `TieBreakAgreesOnNonNegative` and `MoveFromNegativeIndexAsWritten`;
- `PlanQueueOperations.PlanHistorySize`, the history length (plan_queue_ops.py:764-768): the guard of `ClearPlanHistory`'s loop;
- `RunEngineWorker.HasRunningPlanInfo`, the truthiness of the plan record (worker.py:901): the contract of `RunPlan`.

Plans are `map<string, string>`. The UID is under `"plan_uid"` and the exit status
under `"exit_status"`. Equality of serialised records is value equality of maps.

## Where the code and its comments disagree

The model follows the code in each case below.
- plan_queue_ops.py:856 says the UID stays in the index on completion, but :861 removes it. The docstring at :869-871 agrees with the code.
- plan_queue_ops.py:891 says the UID is removed on stop, but :897 updates it. The docstring at :906-907 agrees with the code.
- The docstrings at plan_queue_ops.py:395 and :590-591 describe precedence between `pos` and `uid`, and between `before_uid` and `after_uid`. The code raises ValueError when both are given (:353-354, :514-520).
- The docstring at plan_queue_ops.py:593-594 says `after_uid` inserts "before". The code inserts after (:545-547).
- The add docstring describes the range `-qsize<pos<0` as "counting from the back". The code inserts before the plan that `pos` designates (:553-558). `AddIndex` follows the code.
- A move "after" the running plan's UID is refused with IndexError: `_get_plan(uid=…)` refuses the running plan (:359-361, :651-652). It does not insert at the queue front, as `_add_plan_to_queue` does for `after_uid`.
- `_move_plan` picks its reference UID by truthiness (`before_uid if before_uid else after_uid`, :649). A `before_uid` of `""` therefore falls through to `after_uid`. `QueuePositions.DestRefUid` keeps this.

## Model

| member | source | states |
|---|---|---|
| Plans.WithExitStatus | bluesky_queueserver/manager/plan_queue_ops.py:858-859 | the record gains `exit_status` with the given value and keeps its UID and every other field |
| Plans.SetNewPlanUid | bluesky_queueserver/manager/plan_queue_ops.py:145-161 | the plan gets the given UID, whether or not it had one, and keeps every other field |
| RedisList.LRem | bluesky_queueserver/manager/plan_queue_ops.py:434 | LREM 0 returns how many elements equal the value, drops all of them and keeps the rest |
| RedisList.LRemIsRemoveAll | bluesky_queueserver/manager/plan_queue_ops.py:434 | LREM of a value keeps the other elements in their order (it equals `RemoveAll` of that value) |
| RedisList.RemoveAllTwice | bluesky_queueserver/manager/plan_queue_ops.py:93-94 | removing one value set after another removes their union, which is what the LREM loop of `_queue_clean` relies on |
| RedisList.LRemSingle | bluesky_queueserver/manager/plan_queue_ops.py:434-438 | when the record occurs exactly once, LREM cuts out that one position and counts 1, so `_remove_plan` does not raise |
| RedisList.LRemAbsent | bluesky_queueserver/manager/plan_queue_ops.py:434 | LREM of an absent record changes nothing and counts 0 |
| RedisList.LInsert | bluesky_queueserver/manager/plan_queue_ops.py:546-548 | LINSERT succeeds exactly when the pivot is present, and then grows the list by one and holds the new value |
| RedisList.LInsertAtFirst | bluesky_queueserver/manager/plan_queue_ops.py:546-548 | LINSERT puts the value immediately before or after the first occurrence of the pivot and leaves the rest in place |
| RedisList.RemoveNothing | bluesky_queueserver/manager/plan_queue_ops.py:89-94 | removing an empty set of records leaves the list unchanged (the loop of `_queue_clean` starts from there) |
| UidIndex.IndexOfUid | bluesky_queueserver/manager/plan_queue_ops.py:183-187 | the first position whose plan carries the UID: that plan has it and no earlier plan does |
| UidIndex.WithUid | bluesky_queueserver/manager/plan_queue_ops.py:85-91 | keeps exactly the records that carry a UID, so every kept record has one |
| UidIndex.RemoveAllWithoutUid | bluesky_queueserver/manager/plan_queue_ops.py:89-94 | removing every record without a UID by value leaves exactly the records with a UID, in their order |
| UidIndex.DistinctSnoc | bluesky_queueserver/manager/plan_queue_ops.py:241-243 | appending a plan keeps UIDs distinct exactly when its UID is not already present, which is when `_uid_dict_add` does not raise |
| UidIndex.IndexedQueuedPlan | bluesky_queueserver/manager/plan_queue_ops.py:356-361 | under the invariant, an indexed UID that is not the running plan's is a queued UID, and its index entry is that queued record |
| UidIndex.ConsistentInsert | bluesky_queueserver/manager/plan_queue_ops.py:540-565 | inserting a plan with a fresh UID anywhere in the queue and indexing it keeps the invariant |
| UidIndex.ConsistentRemove | bluesky_queueserver/manager/plan_queue_ops.py:455-476 | removing a queued plan and its index entry keeps the invariant |
| UidIndex.ConsistentStartNext | bluesky_queueserver/manager/plan_queue_ops.py:825-829 | moving the queue front into the free slot keeps the invariant with the index unchanged |
| UidIndex.ConsistentComplete | bluesky_queueserver/manager/plan_queue_ops.py:857-862 | clearing the slot and dropping its UID from the index keeps the invariant |
| UidIndex.ConsistentStop | bluesky_queueserver/manager/plan_queue_ops.py:892-898 | pushing the stamped running plan to the queue front and replacing its index entry keeps the invariant |
| QueuePositions.InsertAt | bluesky_queueserver/manager/plan_queue_ops.py:542-558 | an insertion grows the queue by one and puts the plan at the given index |
| QueuePositions.InsertAtMultiset | bluesky_queueserver/manager/plan_queue_ops.py:542-558 | an insertion adds exactly the inserted plan and keeps every other record |
| QueuePositions.RemoveAt | bluesky_queueserver/manager/plan_queue_ops.py:455-470 | a pop shrinks the queue by one |
| QueuePositions.RemoveAtMultiset | bluesky_queueserver/manager/plan_queue_ops.py:455-470 | a pop drops exactly the popped record and keeps every other one |
| QueuePositions.NormalIndex | bluesky_queueserver/manager/plan_queue_ops.py:370-378 | an integer position is in range exactly when it is in [-n, n-1], and a negative one counts from the back |
| QueuePositions.Locate | bluesky_queueserver/manager/plan_queue_ops.py:349-382 | ValueError for both selectors; a UID is found only among queued plans (IndexError otherwise); the default position is the back; front/back need a non-empty queue; an integer is in range exactly when it is in [-n, n-1] and then designates index i, or n+i when negative; a failed position lookup is IndexError; any other position gives the caller's error |
| QueuePositions.AddIndex | bluesky_queueserver/manager/plan_queue_ops.py:514-564 | ValueError for ambiguous selectors and for an unrecognised position; back (the default) and integers at or past the end append; front, 0 and integers at or below -n prepend; 0 <= i <= n lands at i; -n < i < 0 lands at n+i, before the plan that i designates; `before_uid` succeeds exactly for a queued UID that is not the running plan's and lands at its first index; `after_uid` succeeds exactly for a queued UID or the running plan's, landing just after it or at the front; every failed reference is IndexError |
| QueuePositions.MoveTarget | bluesky_queueserver/manager/plan_queue_ops.py:682-689 | the landing index of the moved plan never lies past the larger of the source and destination |
| QueuePositions.MovedQueue | bluesky_queueserver/manager/plan_queue_ops.py:682-692 | a move (pop, then add next to the destination) keeps the length of the queue |
| QueuePositions.MovePermutes | bluesky_queueserver/manager/plan_queue_ops.py:682-692 | a move is a permutation of the queue: the same plans, as many times each |
| QueuePositions.ResolveMove | bluesky_queueserver/manager/plan_queue_ops.py:615-679 | ValueError exactly for the five missing or ambiguous selector checks; past them it succeeds exactly when both the source and the destination lookups succeed, and fails with IndexError otherwise; the source carries `uid` or is the index `pos` designates (0 for front, n-1 for back); the destination carries `before_uid` (before) or `after_uid` (after), is index 0 and before for "front", n-1 and after for "back", and an integer destination designates its index and is ordered by the corrected tie-break |
| QueuePositions.ResolveMoveAgreesAsWritten | bluesky_queueserver/manager/plan_queue_ops.py:658-671 | whenever `pos_dest` is a non-negative integer and `pos` is not a negative one, the side ResolveMove picks is the code's `src_index > pos_dest`, so the two differ only on negative integers |
| QueuePositions.DestinationAfterRemoval | bluesky_queueserver/manager/plan_queue_ops.py:684-688 | once the source is popped, the destination UID is found one place earlier when it lay behind the source |
| QueuePositions.AddNextToQueued | bluesky_queueserver/manager/plan_queue_ops.py:543-548 | adding next to a queued plan's UID lands at its index, or at the index after it |
| QueuePositions.MoveAdjacent | bluesky_queueserver/manager/plan_queue_ops.py:684-688 | after a move the source plan sits right before (or right after) the destination plan |
| QueuePositions.MoveKeepsOthersInOrder | bluesky_queueserver/manager/plan_queue_ops.py:684-688 | apart from the moved plan, the queue keeps its order |
| QueuePositions.MoveLandsAtDestination | bluesky_queueserver/manager/plan_queue_ops.py:664-671 | with the corrected tie-break, a move to an integer destination puts the plan exactly at that index |
| QueuePositions.FrontToBackRoundTrip | bluesky_queueserver/manager/plan_queue_ops.py:664-671 | moving the front plan to "back" and then the back plan to "front" restores the queue |
| QueuePositions.AddThenPopRestores | bluesky_queueserver/manager/plan_queue_ops.py:549-564 | a plan added by position is found at its landing index, and popping that index restores the queue |
| QueuePositions.AddBackPopBack | bluesky_queueserver/manager/plan_queue_ops.py:448-461 | with default positions, add appends and pop takes that same plan back off |
| QueuePositions.TieBreakAgreesOnNonNegative | bluesky_queueserver/manager/plan_queue_ops.py:658-671 | the tie-break as written and the corrected one agree when both indices are given non-negative |
| QueuePositions.MoveFromNegativeIndexAsWritten | bluesky_queueserver/manager/plan_queue_ops.py:658-671 | in [A, B, C], `pos=-1, pos_dest=0` as written yields [A, C, B] (C misses index 0), while the corrected tie-break yields [C, A, B] |
| PlanQueueOps.PlansWithoutUid | bluesky_queueserver/manager/plan_queue_ops.py:85-91 | the scan collects exactly the records that fail the UID check |
| PlanQueueOps.SlotRoundTrip | bluesky_queueserver/manager/plan_queue_ops.py:270-275 | reading the running slot (`{}` as no plan) and handing it out again gives back the stored record, and a slot without `{}` survives the opposite round trip |
| PlanQueueOps.LIndexIsNormalIndex | bluesky_queueserver/manager/plan_queue_ops.py:376-378 | LINDEX returns a plan exactly for the integers that designate a queue index (i, or n+i when negative), and returns the plan at that index |
| PlanQueueOps.StoreIndexDesignates | bluesky_queueserver/manager/plan_queue_ops.py:368-378 | reading "front", "back" or an integer through LINDEX finds a plan exactly when `Locate` succeeds, and that same plan |
| PlanQueueOps.PlanQueueOperations.constructor | bluesky_queueserver/manager/plan_queue_ops.py:57-66 | the store contents as found, an empty index, not started |
| PlanQueueOps.PlanQueueOperations.Start | bluesky_queueserver/manager/plan_queue_ops.py:68-77 | runs once: cleans the store, then builds the index; it succeeds exactly when the kept UIDs are distinct, and then the invariant holds |
| PlanQueueOps.PlanQueueOperations.QueueClean | bluesky_queueserver/manager/plan_queue_ops.py:79-100 | the queue keeps exactly its records with a UID, in order, and a running record without a UID is cleared |
| PlanQueueOps.PlanQueueOperations.RemovePlans | bluesky_queueserver/manager/plan_queue_ops.py:93-94 | the LREM loop removes every record equal to one of the listed ones |
| PlanQueueOps.PlanQueueOperations.UidDictInitialize | bluesky_queueserver/manager/plan_queue_ops.py:235-250 | indexes the queue front to back, then the running plan; passes exactly when the UIDs are distinct (and then the invariant holds); a failure is RuntimeError with only known UIDs indexed |
| PlanQueueOps.PlanQueueOperations.UidDictAdd | bluesky_queueserver/manager/plan_queue_ops.py:203-210 | adds exactly when the UID is absent; RuntimeError otherwise, with the index unchanged |
| PlanQueueOps.PlanQueueOperations.UidDictRemove | bluesky_queueserver/manager/plan_queue_ops.py:212-218 | removes exactly when the UID is present; RuntimeError otherwise, with the index unchanged |
| PlanQueueOps.PlanQueueOperations.UidDictUpdate | bluesky_queueserver/manager/plan_queue_ops.py:220-227 | replaces the entry exactly when the UID is present; RuntimeError otherwise, with the index unchanged |
| PlanQueueOps.PlanQueueOperations.VerifyPlan | bluesky_queueserver/manager/plan_queue_ops.py:126-137 | ValueError without a UID, RuntimeError for an indexed UID; under the invariant it passes exactly when the UID is neither queued nor running |
| PlanQueueOps.PlanQueueOperations.DeletePoolEntries | bluesky_queueserver/manager/plan_queue_ops.py:102-109 | queue, slot, history and index are all emptied, which satisfies the invariant |
| PlanQueueOps.PlanQueueOperations.RemovePlan | bluesky_queueserver/manager/plan_queue_ops.py:412-438 | all equal records go; with `single`, RuntimeError unless exactly one was there |
| PlanQueueOps.PlanQueueOperations.GetIndexByUid | bluesky_queueserver/manager/plan_queue_ops.py:163-187 | the first index holding the UID, or IndexError when no queued plan has it |
| PlanQueueOps.PlanQueueOperations.GetPlan | bluesky_queueserver/manager/plan_queue_ops.py:349-382 | succeeds exactly when `Locate` (with TypeError for a bad position) does, and returns that queued record; the running plan's UID is refused |
| PlanQueueOps.PlanQueueOperations.PopPlanFromQueue | bluesky_queueserver/manager/plan_queue_ops.py:440-480 | succeeds exactly when `Locate` (with ValueError for a bad position) does; removes exactly that plan, drops its UID from the index, returns it with the new size, keeps the invariant, and changes nothing on error |
| PlanQueueOps.PlanQueueOperations.RemoveQueuedRecord | bluesky_queueserver/manager/plan_queue_ops.py:456-471 | `_remove_plan` of a record stored once, at k, removes exactly position k and nothing else changes |
| PlanQueueOps.PlanQueueOperations.DropFromIndex | bluesky_queueserver/manager/plan_queue_ops.py:475-476 | after the record at k has left the store, dropping its UID restores the invariant and removes exactly that index entry |
| PlanQueueOps.PlanQueueOperations.AddPlanToQueue | bluesky_queueserver/manager/plan_queue_ops.py:510-566 | ValueError for ambiguous selectors, then the UID check, then the plan is placed at `AddIndex` and indexed; returns the plan and the new size, keeps the invariant, and changes nothing on error |
| PlanQueueOps.PlanQueueOperations.PlaceRelative | bluesky_queueserver/manager/plan_queue_ops.py:531-548 | the UID branch places the plan where `AddIndex` says, or fails with its error and leaves the queue unchanged |
| PlanQueueOps.PlanQueueOperations.PlaceAtPosition | bluesky_queueserver/manager/plan_queue_ops.py:549-564 | the position branch places the plan where `AddIndex` says, or fails with its error and leaves the queue unchanged |
| PlanQueueOps.PlanQueueOperations.InsertNextTo | bluesky_queueserver/manager/plan_queue_ops.py:546-548 | LINSERT next to the record stored once at j puts the new plan at j (before) or j+1 (after), and nothing else changes |
| PlanQueueOps.PlanQueueOperations.EnterIndex | bluesky_queueserver/manager/plan_queue_ops.py:565 | after a fresh-UID plan was inserted at k, adding it to the index restores the invariant and adds exactly that entry |
| PlanQueueOps.PlanQueueOperations.MovePlan | bluesky_queueserver/manager/plan_queue_ops.py:611-692 | succeeds exactly when `ResolveMove` does, and then the queue is `MovedQueue` (unchanged when source and destination coincide), the moved plan and the size are returned, and the index is unchanged; on error the queue is unchanged; the tie-break is the corrected one (see Findings) |
| PlanQueueOps.PlanQueueOperations.FindDestination | bluesky_queueserver/manager/plan_queue_ops.py:644-679 | finds the destination plan and the before/after flag exactly as `ResolveMove` does, with the corrected tie-break, or IndexError |
| PlanQueueOps.PlanQueueOperations.Relocate | bluesky_queueserver/manager/plan_queue_ops.py:684-688 | pop by UID, then add before/after the destination UID, yields `MovedQueue` with the index as before |
| PlanQueueOps.PlanQueueOperations.PopQueued | bluesky_queueserver/manager/plan_queue_ops.py:685 | popping the queued plan at s by its UID removes exactly position s and its index entry and keeps the invariant |
| PlanQueueOps.PlanQueueOperations.AddBeside | bluesky_queueserver/manager/plan_queue_ops.py:686-688 | adding a fresh-UID plan before or after a queued UID inserts it at that UID's index (or the next one), indexes it, keeps the invariant and returns the plan with the new size |
| PlanQueueOps.PlanQueueOperations.IsPlanRunning | bluesky_queueserver/manager/plan_queue_ops.py:252-256 | true exactly when the slot holds a non-empty record |
| PlanQueueOps.PlanQueueOperations.RunningPlanInfo | bluesky_queueserver/manager/plan_queue_ops.py:270-275 | `{}` exactly when no plan is running, otherwise the running record, whose UID is indexed |
| PlanQueueOps.PlanQueueOperations.AddPlanToHistory | bluesky_queueserver/manager/plan_queue_ops.py:746-762 | appends the plan and returns the new history size |
| PlanQueueOps.PlanQueueOperations.ClearPlanHistory | bluesky_queueserver/manager/plan_queue_ops.py:803-808 | pops from the back until the history is empty; nothing else changes |
| PlanQueueOps.PlanQueueOperations.ClearPlanQueue | bluesky_queueserver/manager/plan_queue_ops.py:728-733 | the queue ends empty, the slot and history are untouched, and only the running plan's UID stays indexed |
| PlanQueueOps.PlanQueueOperations.SetNextPlanAsRunning | bluesky_queueserver/manager/plan_queue_ops.py:821-835 | with a free slot and a non-empty queue, the front plan becomes the running plan and keeps its index entry; otherwise `{}` is returned and nothing changes |
| PlanQueueOps.PlanQueueOperations.SetProcessedPlanAsCompleted | bluesky_queueserver/manager/plan_queue_ops.py:852-865 | the running plan, stamped with the exit status, leaves the slot and the index and is appended to history; with no running plan, `{}` and nothing changes |
| PlanQueueOps.PlanQueueOperations.SetProcessedPlanAsStopped | bluesky_queueserver/manager/plan_queue_ops.py:887-901 | the stamped running plan goes to the queue front, replaces its index entry and is appended to history; with no running plan, `{}` and nothing changes |
| Worker.PlanExitStatusExpected | bluesky_queueserver/manager/worker.py:72-78 | new and resume map to "completed" and no other option does; there is no entry for a task |
| Worker.ExitStatusDistinguishesOptions | bluesky_queueserver/manager/worker.py:72-78 | two plan options share an expected status only if they are equal or are new and resume |
| Worker.ContinueOption | bluesky_queueserver/manager/worker.py:485-501 | exactly resume, abort, stop and halt name a continue option, which is never new or task |
| Worker.NormalizeUpdateOption | bluesky_queueserver/manager/worker.py:160-168 | the kept setting is one of the three known options: a known value unchanged, an unknown value "NEVER" |
| Worker.PlanOutcome | bluesky_queueserver/manager/worker.py:205-289 | a normal exit reports success with the state from the expected-status table and sets the completed flag; an exception with the Run Engine paused reports "paused" with success and leaves the flag; any other exception reports "failed", without success, and sets the flag |
| Worker.OutcomeSuccessIff | bluesky_queueserver/manager/worker.py:247-284 | a report is successful exactly when the plan exited normally or was paused, and its state is one of the six plan states |
| Worker.RunEngineWorker.constructor | bluesky_queueserver/manager/worker.py:129-168 | a closed environment with nothing running, a zero task counter, no report, and the update option normalised |
| Worker.RunEngineWorker.StartNewPlan | bluesky_queueserver/manager/worker.py:453-475 | RejectedError exactly when not idle, with nothing changed; otherwise records the plan, clears the completed flag and sets executing-plan, and queues one new-plan entry exactly when the record has a name |
| Worker.RunEngineWorker.ContinuePlan | bluesky_queueserver/manager/worker.py:477-501 | an unsupported option raises first, then a non-idle state is rejected; otherwise sets executing-plan and queues the continue entry |
| Worker.RunEngineWorker.StartTask | bluesky_queueserver/manager/worker.py:503-606 | rejected exactly outside idle/executing-plan/executing-task, or outside idle for a foreground task, with nothing changed; a background task increments the counter; a foreground task sets executing-task and its UID; thread tasks are "error" exactly when the thread fails to start; main-thread tasks are queued and accepted |
| Worker.RunEngineWorker.CompleteTask | bluesky_queueserver/manager/worker.py:432-449 | a foreground task returns the state to idle and clears the task UID; a background task decrements the counter, floored at 0; exactly one result is appended |
| Worker.RunEngineWorker.ExecutePlan | bluesky_queueserver/manager/worker.py:205-289 | always ends idle with a new report; the report and completed flag follow `PlanOutcome`; nothing else changes |
| Worker.RunEngineWorker.ExecuteNext | bluesky_queueserver/manager/worker.py:1061-1079 | one main-loop pass: nothing changes once the exit event is set or the queue is empty; otherwise the front entry is taken; a plan ends idle with the report and completed flag of `PlanOutcome`; a foreground task returns to idle with no task UID and a background task decrements the counter, floored at 0, each appending its result; nothing else changes |
| Worker.RunEngineWorker.RequestPlanReport | bluesky_queueserver/manager/worker.py:784-795 | returns the report and leaves none; nothing else changes |
| Worker.RunEngineWorker.RequestTaskResults | bluesky_queueserver/manager/worker.py:807-814 | returns the completed-task results and leaves the list empty; nothing else changes |
| Worker.RunEngineWorker.RunPlan | bluesky_queueserver/manager/worker.py:890-934 | rejects on the first failing check, in order: the execution queue is not empty, the Run Engine is running, or a plan record or completed flag is left over, changing nothing; otherwise `_start_new_plan` decides: acceptance leaves exactly one new-plan entry queued, and "error" (a record without a name) leaves the state executing-plan with the record saved and an empty execution queue |
| Worker.RunEngineWorker.PausePlan | bluesky_queueserver/manager/worker.py:936-966 | rejected exactly when the Run Engine is not running; then "error" exactly for an option other than deferred/immediate or when the pause request cannot be handed to the Run Engine's loop; otherwise accepted |
| Worker.RunEngineWorker.ContinuePlanCommand | bluesky_queueserver/manager/worker.py:968-990 | rejected when the Run Engine is not paused; otherwise "error" for an unsupported option, "rejected" when not idle, else accepted with the continue entry queued; nothing else changes |
| Worker.RunEngineWorker.ResetWorker | bluesky_queueserver/manager/worker.py:992-1008 | accepted exactly when the Run Engine is idle, and then clears the plan record, the completed flag and the report; nothing else changes |
| Worker.RunEngineWorker.CloseEnvironment | bluesky_queueserver/manager/worker.py:834-866 | rejected while the IPython kernel is busy, else while the Run Engine is running; otherwise sets the exit event (without IPython) or asks the kernel to quit (with IPython, where a failure is "error"), and marks the shutdown as requested; nothing else changes |
| Worker.RunEngineWorker.ConfirmExit | bluesky_queueserver/manager/worker.py:868-888 | accepted, and the exit confirmed, exactly when the exit event is set; nothing else changes |

## Left out

- The store connection and the pool (`start` opening the pool, plan_queue_ops.py:68-77) are not modelled. The store is in-memory sequences with the store's list semantics. `Start` keeps only the run-once guard, the cleaning and the index build.
- JSON encoding is not modelled byte for byte. Equality of serialised records is value equality of `map<string, string>`, and field values stand for their encoded text.
- The `asyncio.Lock` is not modelled. It only serialises whole public calls, so each public call is one atomic method, with no concurrency model.
- UUID generation (plan_queue_ops.py:139-143, worker.py:543) is not modelled. The fresh UID is a parameter of `AddPlanToQueue` and `StartTask`. `AddPlanToQueue` requires it to be unindexed when the plan has no UID, standing for the uniqueness of a UUID4.
- Plan records are values here. The code shares dicts by reference: `_uid_dict` holds the caller's own dict (plan_queue_ops.py:210, :227), and `_get_plan(uid=…)` and `_pop_plan_from_queue(uid=…)` hand that same object back (:362, :456). `set_new_plan_uuid` writes the fresh UID into the caller's plan (:160, called at :525) even when the add then fails. A caller that mutates such a dict desynchronises the index from the stored JSON: a later pop by that UID removes nothing and raises RuntimeError, and an add beside it inserts nothing (LINSERT returns -1) yet still indexes the plan (:565). The `Consistent` invariant is proved under value semantics only, and aliasing is not modelled.
- The type checks of `_verify_plan_type` are not modelled, because every plan here is a record.
- The plain readers `_get_plan_queue_size`, `_get_plan_queue` and `_get_plan_history` are not modelled separately: they are the fields `queue` and `history` and their lengths.
- `_add_plan_to_queue`'s RuntimeError for a falsy displaced plan (plan_queue_ops.py:561-562) is not modelled. Under the invariant every queued record carries a UID and is non-empty, so that branch cannot be reached.
- The `if plan` guards of `_pop_plan_from_queue` (plan_queue_ops.py:470, 475) are not modelled, for the same reason.
- Every other member of the worker (process, thread and IPython plumbing, script loading, function execution, the state report, the run list, the permission reload, startup and shutdown) is not modelled. This includes `_request_state_handler` and `_execute_in_main_thread`'s polling. `ExecuteNext` models one pass of that loop.
- In the worker, the Run Engine state, the IPython kernel state, plan preparation and execution, a task's target and its JSON check, thread start and whether a pause request reaches the Run Engine's loop are inputs, not models.
- Error messages, timestamps, tracebacks and the result payloads of reports and task results are not modelled. Reports keep success, plan state and Run Engine state; task results keep the UID and success.
- Worker.RunEngineWorker.Valid: states only that the background task counter is non-negative. The environment state and the execution queue are not tied together, because task-completion events from other threads may come at any time.
- QueuePositions.ResolveMove: uses the corrected tie-break (normalised indices) instead of `src_index > pos_dest` at plan_queue_ops.py:671, so for a negative integer `pos` or `pos_dest` the side it picks can differ from the code's (see Findings; `ResolveMoveAgreesAsWritten` proves that these are the only differing inputs).
- PlanQueueOps.PlanQueueOperations.FindDestination: compares normalised indices where plan_queue_ops.py:671 compares raw ones, for the same reason as `ResolveMove`.
- PlanQueueOps.PlanQueueOperations.MovePlan: follows `ResolveMove`, so for a negative integer `pos` or `pos_dest` the moved plan lands at the destination index. The code can leave it elsewhere, for example [B, A, C] instead of [B, C, A] for `uid=A, pos_dest=-1` on [A, B, C].
- Worker.RunEngineWorker.CloseEnvironment: the IPython path sets the exit event elsewhere (worker.py:855-857), which is not modelled.

## Findings

| source | as written | input that shows it | evidently intended | confidence | as-written member | corrected member |
|---|---|---|---|---|---|---|
| bluesky_queueserver/manager/plan_queue_ops.py:658-671 | the move tie-break compares the raw `pos` with the raw `pos_dest` (`src_index > pos_dest`), so a negative index is compared as if it were an index from the front | queue [A, B, C], `move_plan(pos=-1, pos_dest=0)`: -1 > 0 is false, so C is inserted after A, giving [A, C, B] | compare normalised indices: the source at 2 lies behind the destination at 0, so C is inserted before A, giving [C, A, B], with the moved plan at the destination index | not executed | QueuePositions.MoveFromNegativeIndexAsWritten | QueuePositions.MoveLandsAtDestination |
