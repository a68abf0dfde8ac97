# Block layer and crypto models

This project models parts of the block layer and of the crypto code of a Linux kernel tree in
Dafny and proves what their comments, BUG_ONs and documentation promise.

- **Ordered writes** (`Barrier*.dfy`). A barrier becomes drain, pre-flush, proxy and post-flush.
  The queue is a state machine whose steps are the sections under the queue lock: additions,
  scheduler dispatch, the head-of-queue loop, issue, completion, partial errors and requeueing.
  A history of generations lets the theorems speak of all requests queued before a barrier, which
  the one-bit colour of the code cannot. The class `RequestQueue` has the fields of the queue.
- **BFQ** (`Bfq*.dfy`). `BfqTree` is the search tree with cached minimum start times, through
  insertion, extraction and the turns of rebalancing; `BfqSched` is the engine over virtual time,
  weights and idle trees, `BfqRuns` what holds over its runs and `BfqTraces` runs that show what does
  not; `BfqEngine` joins tree and engine in a class; `BfqBudget` is the budget of a queue.
- **Request data** (`Bio*.dfy`, `Segment*.dfy`). Partial completion of a bio chain, and counting,
  merging and mapping of physical segments.
- **Schedulers and allocators** (`Deadline*.dfy`, `Vr*.dfy`, `Tag*.dfy`, `DispatchSort.dfy`, with
  `SortedTree.dfy` and `RbTree.dfy`). Two I/O schedulers, tagged queueing and the sorted dispatch list.
- **Crypto** (`Aes*.dfy`, `CryptoApi.dfy`). AES with its key schedule and equivalent inverse cipher,
  the big-endian counter and the request queue with a backlog.

Most parts come in two layers: transition functions on values, about which the theorems are, and a
class with the fields of the C structure whose methods are proved to compute those functions.
`hide` statements in proofs only keep definitions away from the solver where they are not needed.

## Where the code and its comments differ

The model follows the code.

- The walk for the next BFQ entity is described as returning the eligible entity that finishes first;
  it does so if it stops on an eligible node and, when finish times differ, only then (`BfqTree.FirstActive`). That is
  so exactly when the way to the leftmost eligible node makes no right turn below an eligible one
  (`BfqTree.WalkIsStraight`), and a run from the empty scheduler gives a tree where it does
  (`BfqTraces.WalkCanMissBest`).
- `bfq_forget_idle` speaks of increasing virtual time; it can take it back (`BfqTraces.VtimeGoesBack`), and
  `BfqRuns.VtimeFalls` says exactly when.
- `bfq.h` promises that weight and priority stay in step; a priority change is undone by the next update
  (`BfqSched.PriorityIsUndone`), and one made before the first activation leads to weight zero and a BUG_ON
  (`BfqTraces.EarlyPriorityChangeIsFatal`; the exact condition is in `BfqSched.UpdateGivesWeight` and
  `BfqSched.Next`).
- `last_idle` is the last idle entity exactly as long as no insertion ties with it (`BfqRuns.LastIdleIsLast`,
  `BfqTraces.LastIdleCanMiss`).
- `bfq_updated_next_req` says that a queue has budget for its first request if the request has grown; a back
  merge grows it without telling BFQ, and so can a merge of two requests (`BfqBudget.StepCovered`,
  `BfqBudget.GrowthOutrunsBudget`).
- `__bfq_dispatch_requests` makes sure that the next budget serves the request that did not fit; a smaller one
  that arrives in between resets it (`BfqBudget.RefusedIsServed`, `BfqBudget.RefusedCanWaitLonger`).
- The comment on budget feedback says that only an idle queue may lose budget; a lower device limit takes
  budget too (`BfqBudget.BusyBudgetShrinks`, `BfqBudget.BusyBudgetCanShrink`). The comment on expiry says that
  asynchronous queues are charged a full budget; the code does so only for slow and timed-out ones
  (`BfqBudget.BfqQueue.Expire`).
- `blk_update_request` is documented to return false when given all bytes of a request; an empty bio at the
  end of a longer chain is left behind (`BioChain.WholeCompletionFinishes`, `BioChain.EmptyBioIsLeftBehind`).
- The queue's own barrier request is not shortened by a partial completion, and then never finishes
  (`BioChain.CompletionKeepsSizes`, `BioChain.CutBarrierNeverFinishes`).

## Model

| member | source | states |
|---|---|---|
| `Barrier.CurSeqIsLowestClearBit` | common/block/blk-barrier.c:56-61 | The current phase, computed field by field, is the lowest clear bit of the flag word: that bit is clear and all below it are set. |
| `BarrierSafety.SequencesEndOnce` | common/block/blk-barrier.c:92-130 | For every ordering mode and every run: the already-set BUG_ON never fires, each phase is recorded once and before its barrier ends, and each barrier ends once, after all the phases its mode needs, with the first error reported on them (or -EOPNOTSUPP when there is no ordering). |
| `BarrierSafety.DrainOrdering` | common/block/blk-barrier.c:236-280 | For every run of a queue ordered by draining: a phase is handed to the driver only when every fs request queued before the barrier is over and the earlier phases are done, and no fs request is handed out before all barriers queued ahead of it have ended, although the colour has only one bit. |
| `BarrierSafety.DrainEnd` | common/block/blk-barrier.c:92-112 | For every such run a barrier ends only when everything queued before it is over. |
| `BarrierSafety.DrainNeverWarns` | common/block/blk-barrier.c:268-279 | In every such reachable state the WARN_ON about a request of an earlier phase is not met by the request at the head. |
| `BarrierSafety.GenerationsFollowRanks` | common/block/elevator.c:709-744 | In every reachable state, being queued before a barrier is the same as having a generation no higher than it. |
| `BarrierSteps.StepKeeps` | common/block/elevator.c:612-744 | Every step of the protocol, in every mode, keeps the invariant that ties lists, colours, flags and history together. |
| `BarrierSteps.RunKeeps` | common/block/blk-barrier.c:154-280 | The invariant holds after every run. |
| `BarrierDrain.StepKeepsDrain` | common/block/blk-barrier.c:154-280 | Every step of a draining queue keeps the ordering invariant: the head list is sorted by phase, generations are in order, and what is not over is still somewhere. |
| `BarrierDrain.RequeueIsSorted` | common/block/elevator.c:664-697 | The requeue scan stops where the request belongs: the list stays sorted by generation and phase. |
| `BarrierDrain.SameColourIsSameGeneration` | common/block/blk-barrier.c:63-90 | While a sequence runs, an fs request ahead of the first one that has to wait, and of the colour of the barrier, was queued before the barrier, although later barriers flip the colour back. |
| `BarrierDrain.DrainedIsQuiet` | common/block/elevator.c:837-867 | When completion finds the queue drained, no fs request queued before the barrier is left on the list or with the driver. |
| `BarrierQueue.RequestQueue.CompleteSeq` | common/block/blk-barrier.c:92-112 | The fields after recording a phase are those of the transition function. |
| `BarrierQueue.RequestQueue.StackPhases` | common/block/blk-barrier.c:185-221 | Stacking last phase first leaves the phases of the mode in front of the list in order, and notes exactly those the mode does without. |
| `BarrierQueue.RequestQueue.StartOrdered` | common/block/blk-barrier.c:154-234 | Starting a sequence takes the step DoBegin; a request handed back may be issued, and when none can be the list has become shorter. |
| `BarrierQueue.RequestQueue.DoOrdered` | common/block/blk-barrier.c:236-280 | One call takes at most one protocol step, hands out only a request that may pass, and withholds only one that may not. |
| `BarrierQueue.RequestQueue.DispatchSome` | common/block/elevator.c:570-582 | The I/O scheduler hands over any number of requests, to any places sorting can reach, as protocol steps; forced, it hands over all. |
| `BarrierQueue.RequestQueue.NextRequest` | common/block/blk.h:54-69 | Whatever number of requests each dispatch gives, the loop ends, takes only protocol steps, and returns a head request that may pass. |
| `BarrierQueue.RequestQueue.PeekRequest` | common/block/blk-core.c:1793-1874 | For all outcomes of preparing requests, good, deferred or condemned: peeking is a run of protocol steps that leaves the driver's list as it was; each condemned request is issued and completed with -EIO, and nothing else completes; a deferred one stays at the head, started, and its peek is the last step; the request returned is a started head that may pass. |
| `BarrierQueue.RequestQueue.Kill` | common/block/blk-core.c:1859-1867 | Killing a request is exactly two protocol steps, its issue and its completion with -EIO, after which the driver holds what it held before. |
| `BarrierQueue.RequestQueue.FetchRequest` | common/block/blk-core.c:1911-1950 | Fetching is a run of protocol steps ending in the issue of the request returned. |
| `BarrierQueue.RequestQueue.AddRequest` | common/block/elevator.c:709-744 | Adding an fs request, barrier or not, is a run of protocol steps ending in the addition. |
| `BarrierQueue.RequestQueue.Requeue` | common/block/elevator.c:553-568 | Requeueing puts the request before the first of its phase or a later one, with its flags reset. |
| `BarrierQueue.RequestQueue.ElvCompleted` | common/block/elevator.c:837-867 | The drain phase is recorded exactly when nothing is in flight and the head belongs to a later phase. |
| `BarrierQueue.RequestQueue.Complete` | common/block/blk-barrier.c:114-130 | Completing any request of the driver, phases included, is the transition function's step. |
| `BfqTree.FixIsExact` | common/block/bfq-sched.c:280-288 | Recomputing a tree bottom up gives every node the true minimum start time of its subtree. |
| `BfqTree.UpdateActiveTree` | common/block/bfq-sched.c:251-308 | If stale values lie only on the path from the node to the root or at siblings of it, the walk up gives the tree that recomputing every node gives. |
| `BfqTree.FindLeaf` | common/block/bfq-sched.c:217-239 | The descent ends at a leaf with all earlier finish times, ties included, to the left and later ones to the right. |
| `BfqTree.InsertionIsTidy` | common/block/bfq-sched.c:310-337 | Wherever the insertion turns the tree, singly or doubly, the node chosen to start from meets the condition of the walk. |
| `BfqTree.ActiveInsert` | common/block/bfq-sched.c:320-337 | After an insertion every cached minimum is exact and the entities are the old ones in order with the new one behind its equals. |
| `BfqTree.SettledKeeps` | common/block/bfq-sched.c:385-404 | After a removal and any turns of its rebalancing, the contents are unchanged and stale values lie only where the walk repairs them. |
| `BfqTree.ActiveExtract` | common/block/bfq-sched.c:385-425 | After an extraction every cached minimum is exact and exactly the one entity is gone. |
| `BfqTree.MinTellsEligible` | common/block/bfq-sched.c:811-821 | The cached minimum of an exact tree is at most the virtual time exactly when some entity in it is eligible. |
| `BfqTree.FirstActive` | common/block/bfq-sched.c:833-861 | From any exact, sorted tree whose minimum the virtual time has reached, the walk ends, meets no BUG_ON and returns an eligible entity; if it stops on an eligible node that one finishes first of all eligible ones, and if not, and finish times differ, the result is not the first. |
| `BfqTree.WalkIsStraight` | common/block/bfq-sched.c:823-861 | Read off the tree before the walk: the walk stops on an eligible node if and only if the way from the root to the leftmost eligible node never turns right below an eligible one; then the result finishes first of all eligible entities, and otherwise, when finish times differ, it does not. |
| `BfqTree.FirstEligibleExists` | common/block/bfq-sched.c:833-861 | Every exact tree whose minimum the virtual time has reached has such a leftmost eligible node, so the condition applies to every call. |
| `BfqTraces.WalkCanMissBest` | common/block/bfq-sched.c:823-861 | A run from the empty scheduler to four queues, and the red-black tree with exact minima that holds them, on which the walk passes over the eligible entity that finishes first. |
| `BfqTree.WrappedOrder` | common/block/bfq-sched.c:80-91 | The wrapping 64-bit comparison orders times as unbounded ones are ordered while they are less than 2^63 apart. |
| `BfqSched.UpdateGivesWeight` | common/block/bfq-sched.c:514-568 | An update gives a weight between 1 and 11000, which fits 16 bits, if and only if it is not the case that no weight was ever requested while one is in use; then the weight becomes zero. |
| `BfqSched.UpdateTakesPriority` | common/block/bfq-sched.c:514-568 | The priority taken on is the requested one if and only if the requested weight is the one in use or means the same priority. |
| `BfqSched.PriorityIsUndone` | common/block/bfq.h:128-133 | A priority change is reverted by the next update, because it leaves the requested weight behind. |
| `BfqSched.Next` | common/block/bfq-sched.c:626-747 | Every operation of the engine keeps the invariant, if and only if it is not an update of an entity that has a weight in use and none on record. |
| `BfqSched.EngineInvariant` | common/block/bfq-sched.c:459-475 | In every state that a run reaches before such a fatal update: no BUG_ON and no division by zero has happened; an entity on a service tree is in exactly one of the active tree, the idle tree and service, with weight between 1 and 11000; each weight sum is the sum over its class; and first_idle is the first idle entity. |
| `BfqSched.ActivateKeeps` | common/block/bfq-sched.c:626-673 | Activation, from any of the four places an entity can be, keeps the invariant if and only if its update is not fatal. |
| `BfqSched.DeactivateKeeps` | common/block/bfq-sched.c:713-747 | Deactivation keeps the invariant. |
| `BfqSched.UpdateVtimeKeeps` | common/block/bfq-sched.c:811-821 | After the virtual time is raised to the least start time some active entity is eligible, time has not gone back and active entities are untouched. |
| `BfqRuns.VtimeFalls` | common/block/bfq-sched.c:496-512 | For every state and every step: virtual time of a class falls below its value before the step if and only if the step ends in bfq_forget_idle for that class, no entity of it is active, and the cached last idle one finished before that value. |
| `BfqTraces.VtimeGoesBack` | common/block/bfq-sched.c:496-512 | A run from an empty scheduler after which the next service takes virtual time below what it was: two idle queues are passed at once and only one is forgotten while another is active. |
| `BfqSched.ActivationWeighs` | common/block/bfq-sched.c:626-673 | Activation of any entity gives it the weight of the update that is due, and the finish time that goes with it; the BUG_ON of bfq_calc_finish fires if and only if that weight is zero, which is if and only if the update is fatal. |
| `BfqTraces.EarlyPriorityChangeIsFatal` | common/block/bfq-sched.c:125-145 | For every pair of priorities and class, a run from an empty scheduler: a queue whose priority changes between creation and first activation has a weight first, and the update after takes it away and the BUG_ON fires. |
| `BfqRuns.LatePriorityChangesAreSafe` | common/block/bfq-sched.c:514-568 | No update is fatal in any run that changes no priority of an entity without a weight on record. |
| `BfqRuns.StepLast` | common/block/bfq-sched.c:432-448 | If last_idle is the last entity of every idle tree, it is so after a step if and only if the step does not insert an entity with the finish time of the last one. |
| `BfqRuns.LastIdleIsLast` | common/block/bfq-sched.c:185-207 | In every run, last_idle is the last entity of its idle tree throughout if and only if no insertion ties with the last one. |
| `BfqTraces.LastIdleCanMiss` | common/block/bfq-sched.c:432-448 | A run from an empty scheduler after which two queues are idle and last_idle is the first of them. |
| `BfqRuns.FinishTimes` | common/block/bfq.h:94-106 | In every reachable state the finish time of an active entity is its start time plus its budget over its weight. |
| `BfqEngine.RootIsLeast` | common/block/bfq-sched.c:811-821 | The minimum cached at the root is the least start time in the tree, and some entity has it. |
| `BfqEngine.Engine.ActiveInsert` | common/block/bfq-sched.c:320-337 | The trees hold exactly the active entities of their classes, with exact minima, after an insertion. |
| `BfqEngine.Engine.ActiveExtract` | common/block/bfq-sched.c:411-425 | The same after an extraction. |
| `BfqEngine.Engine.IdleInsert` | common/block/bfq-sched.c:432-448 | The idle list and its two caches change as the transition function says, and the active trees stay right. |
| `BfqEngine.Engine.IdleExtract` | common/block/bfq-sched.c:185-207 | The same for taking an entity off the idle list. |
| `BfqEngine.Engine.UpdateWeight` | common/block/bfq-sched.c:514-568 | Weight, priority, class and both weight sums change as the transition function says. |
| `BfqEngine.Engine.Activate` | common/block/bfq-sched.c:626-673 | Activation on real trees is the engine step DoActivate and keeps trees and entities in agreement. |
| `BfqEngine.Engine.Rebudget` | common/block/bfq-iosched.c:322-346 | A new budget for an active queue, and its requeueing with it, are the engine step DoRebudget. |
| `BfqEngine.Engine.Deactivate` | common/block/bfq-sched.c:713-747 | Deactivation is the engine step DoDeactivate and keeps the agreement. |
| `BfqEngine.Engine.ForgetIdle` | common/block/bfq-sched.c:496-512 | Forgetting idle entities is the engine step DoForget. |
| `BfqEngine.Engine.Serve` | common/block/bfq-sched.c:579-595 | Service is the engine step DoServe: the weight sum is not zero, and time advances by the scaled service. |
| `BfqEngine.Engine.Take` | common/block/bfq-sched.c:870-882 | The entity the walk finds in a non-empty tree meets all conditions of the engine step DoSelect, and extracting it is that step. |
| `BfqEngine.Engine.GetNext` | common/block/bfq-sched.c:895-945 | Selection finds nothing if and only if nothing is active in any class; otherwise it is an engine step on the first class that has an active entity. |
| `BfqEngine.Engine.Decay` | common/block/bfq-iosched.c:1133-1158 | Using up the boost is the engine step DoDecay. |
| `BfqEngine.Engine.Create` | common/block/bfq-iosched.c:1400-1471 | A new queue keeps the invariant. |
| `BfqEngine.Engine.Request` | common/block/bfq.h:107-143 | Setting the fields an update looks at, at any time and to any values the interfaces take, keeps the invariant. |
| `BfqBudget.ServiceIsCharged` | common/block/bfq-sched.c:579-595 | In every run of dispatches, expiries, arrivals, merges of every kind, completions and forced dispatches, with a device limit that may change between any two: from selection to expiry the service of a queue is the sum of the charges of the requests its dispatch loop sent, and at most its budget. |
| `BfqBudget.StepOk` | common/block/bfq-iosched.c:1097-1185 | Every step keeps that, and the next request is a queued one, missing only when nothing is queued. |
| `BfqBudget.StepCovered` | common/block/bfq-iosched.c:310-346 | Every step leaves a waiting queue with a budget for its next request, if and only if it does not grow that request beyond the budget by a back merge or by another request, and is not an expiry without recalculation with a next request beyond the budget. |
| `BfqBudget.GrowthOutrunsBudget` | common/block/bfq-iosched.c:479-488 | From an empty queue, an arrival and a back merge leave a request that the budget does not cover. |
| `BfqBudget.RunCovered` | common/block/bfq-iosched.c:310-346 | Throughout a run a waiting queue has a budget for its next request, if and only if no step loses it in one of those ways. |
| `BfqBudget.RefusedFitsNextTime` | common/block/bfq-iosched.c:804-816 | When a request does not fit, it is the next one after the expiry and the new budget covers it, even if it came from the fifo. |
| `BfqBudget.RefusedIsServed` | common/block/bfq-iosched.c:1116-1126 | Over every run from the refusal of a request to the next selection that loses no budget: the request then fits if and only if its charge is within the queue's maximum or the charge of the next request; if it still is the next one it can be served at once. |
| `BfqBudget.RefusedCanWaitLonger` | common/block/bfq-iosched.c:368-393 | A run from an empty queue: a smaller request that arrives after the refusal and becomes the next one leaves the refused one without budget. |
| `BfqBudget.ActiveBudgetIsFixed` | common/block/bfq-iosched.c:332-337 | The budget does not change while the queue is in service. |
| `BfqBudget.BusyBudgetShrinks` | common/block/bfq-iosched.c:760-784 | After a timeout or exhaustion the maximum budget shrinks if and only if the device limit is below it, and never exceeds that limit. |
| `BfqBudget.BusyBudgetCanShrink` | common/block/bfq-iosched.c:773-784 | A run from an empty queue that exhausts its budget in service and gets a smaller one. |
| `BfqBudget.IdleBudgetSettles` | common/block/bfq-iosched.c:751-758 | A queue that keeps expiring for being idle comes down to the minimal budget and stays there, within as many expiries as four minimal budgets go into its maximum, and one more; with a minimal budget of zero it loses nothing but to the device limit. |
| `BfqBudget.BfqQueue.Remove` | common/block/bfq-iosched.c:446-463 | Removing a request leaves another queued one as the next, if there is one, with a budget for it if the queue is waiting. |
| `BfqBudget.BfqQueue.Add` | common/block/bfq-iosched.c:368-393 | Adding a request makes it the next one if it is better, and a waiting queue has a budget for the next one. |
| `BfqBudget.BfqQueue.Reposition` | common/block/bfq-iosched.c:401-407 | A front merge, with the alias it may send, is the step of the model. |
| `BfqBudget.BfqQueue.MergedRequests` | common/block/bfq-iosched.c:490-502 | Merging two requests is the step of the model. |
| `BfqBudget.BfqQueue.Send` | common/block/bfq-iosched.c:1128-1130 | Sending a request charges it, removes it and leaves another queued one as the next, if there is one. |
| `BfqBudget.BfqQueue.Expire` | common/block/bfq-iosched.c:971-1006 | Expiry charges a full budget to slow and timed-out queues only, and recalculates the budget. |
| `BfqBudget.BfqQueue.Dispatch` | common/block/bfq-iosched.c:1097-1185 | The loop takes only steps of the model, sends as many requests as it reports, at most the limit, and leaves a queue that is still in service only after sending some and reaching the limit or the end. |
| `BioChain.WalkStops` | common/block/blk-core.c:2003-2054 | Where the loop stops on any chain whose size fields are right: at the end, or exactly n bytes in, at a vector that exists; its BUG_ON does not fire. |
| `BioChain.CompletionDropsBytes` | common/block/blk-core.c:1975-2105 | For every chain with right size fields and every n, the data left is the old data without its first n bytes. |
| `BioChain.CompletionKeepsSizes` | common/block/blk-core.c:134-171 | The size fields stay right if and only if the request is not the queue's own barrier request cut inside a bio. |
| `BioChain.CompletionsCompose` | common/block/blk-core.c:1975-2105 | Completing n1 bytes and then n2 leaves the data that completing n1 + n2 at once leaves; for the queue's own barrier request cut inside a bio, if and only if the second call stays in that bio, or nothing is behind it, or the call covers what is behind it besides the size the bio had. |
| `BioChain.CompletionKeepsLength` | common/block/blk-core.c:2079-2099 | The length field stays the number of bytes left, and the repair of a botched length changes nothing. |
| `BioChain.CompletionEndsCovered` | common/block/blk-core.c:2003-2054 | Exactly the bios covered by the n bytes and reached with bytes to spare are ended, once each, in order, with the right error; the others stay. |
| `BioChain.WholeCompletionFinishes` | common/block/blk-core.c:1966-1973 | Completing all bytes finishes the request if and only if it has at most one bio or its last bio is not empty. |
| `BioChain.EmptyBioIsLeftBehind` | common/block/blk-core.c:1966-1973 | A chain on which completing all bytes leaves a bio behind. |
| `BioChain.CutBarrierNeverFinishes` | common/block/blk-core.c:162-170 | The queue's own barrier request, whatever its chain, once cut inside a bio is not finished by completing the rest, however the rest is divided among further calls. |
| `BioChain.CutBarrierKeepsData` | common/block/blk-core.c:2068-2077 | Within the bio that was cut, every series of further calls leaves the old data without the bytes they complete. |
| `BioChain.RunsConserve` | common/block/blk-core.c:1975-2105 | Over every series of completions: the data left is the old data without the bytes completed, the length field is right, and the bios ended followed by the bios left are the old chain. |
| `BioChain.FailedPieceIsReported` | common/block/blk-core.c:134-160 | A bio of which one piece failed is reported failed when it ends, however the later completions go. |
| `BioChain.CompletionStaysInStep` | common/block/blk-core.c:2082-2084 | With whole sectors, the request's sector stays the sector of its first bio and the bios stay one after the other. |
| `BioRequest.Request.EndBio` | common/block/blk-core.c:134-171 | Ending part of a bio changes its size, sector and flag, and reports it exactly when nothing is left. |
| `BioRequest.Request.EndCovered` | common/block/blk-core.c:2003-2054 | On every chain that does not run into the BUG_ON, the loop stops where the specification says, having unlinked and reported the bios before that place. |
| `BioRequest.Request.Update` | common/block/blk-core.c:1975-2105 | On every such chain the request afterwards, and whether it has more data, are those of the specification. |
| `Segments.FewerCuts` | common/block/blk-merge.c:12-70 | Greedy grouping with fewer forced cuts never gives more groups. |
| `Segments.MappedWithinCounts` | common/block/blk-merge.c:118-170 | For every chain and limits, the scatterlist has at most as many entries as the count of the chain, which is at most the sum of the counts of its bios. |
| `Segments.MappedIsCounted` | common/block/blk-merge.c:29-62 | Without high pages the two numbers are equal. |
| `Segments.HighPagesCountApart` | common/block/blk-merge.c:31-38 | Three pages in a row, the last two above the bounce limit: three segments counted, one entry needed. |
| `Segments.SoundIsEnough` | common/block/blk-merge.c:114-117 | A request whose count belongs to some grouping needs at most that many entries. |
| `Segments.RecountedSound` | common/block/blk-merge.c:64-85 | A recount gives such a grouping, with the sizes of its ends recorded. |
| `Segments.BackMergedSound` | common/block/blk-merge.c:203-246 | Adding a bio's count keeps this. |
| `Segments.FrontMergedSound` | common/block/blk-merge.c:248-271 | So does adding it at the front. |
| `Segments.RequestsMergedSound` | common/block/blk-merge.c:88-112 | So does merging two requests, also when one segment less is counted because the ends join. |
| `Segments.Make` | common/block/blk-merge.c:273-308 | Every sequence of merges, refused ones included, gives a request with such a count within the queue's limit. |
| `Segments.MergedRequestsFit` | common/block/blk-merge.c:114-117 | However a request came about by merging, its scatterlist fits its count and its count the limit. |
| `Segments.EntriesKeepData` | common/block/blk-merge.c:132-170 | The entries, byte by byte, are the vectors byte by byte. |
| `Segments.EntriesWithin` | common/block/blk-merge.c:135-147 | For every list of vectors: the entries are the hulls of consecutive groups that make up the list; an entry is one vector or within the size limit; and an entry of several vectors is inside one boundary block if and only if no empty vector lies at a boundary between its first and last. |
| `Segments.EntryInBlock` | common/block/blk-merge.c:135-147 | The same if and only if for any chain of joined vectors. |
| `Segments.EmptyVectorHidesBoundary` | common/block/blk-merge.c:135-147 | With an empty vector at a boundary an entry can go across it. |
| `SegmentLoops.Recalc` | common/block/blk-merge.c:12-70 | The nested loops count the greedy groups, and record the sizes of the first and the last group. |
| `SegmentLoops.MapSg` | common/block/blk-merge.c:118-170 | The loop fills the array with the specified entries and touches nothing behind them. |
| `SegmentLoops.Request.BackMerge` | common/block/blk-merge.c:203-246 | A bio is merged exactly when the counts fit the queue, and the count stays sufficient. |
| `SegmentLoops.Request.FrontMerge` | common/block/blk-merge.c:248-271 | The same at the front. |
| `SegmentLoops.Request.MergeNext` | common/block/blk-merge.c:273-308 | Two requests are merged exactly when the combined count fits, it stays sufficient, and a refusal changes nothing although sizes are recorded before the limit is tested. |
| `SegmentLoops.Request.Map` | common/block/blk-merge.c:114-170 | A list with room for nr_phys_segments entries is long enough. |
| `SortedTree.AliasIs` | common/block/elevator.c:354-405 | The alias of a sector in the list of a tree in order is the one request at that sector, if there is one. |
| `RbTree.Descend` | common/block/elevator.c:386-405 | The descent of the search tree ends at that alias, or at the leaf where a request of that sector belongs. |
| `RbTree.Add` | common/block/elevator.c:354-376 | Insertion returns the alias and changes nothing, or hangs in a leaf that puts the request at its rank in the list. |
| `RbTree.Find` | common/block/elevator.c:386-405 | The search returns the request at the sector, if and only if there is one. |
| `RbTree.TurnKeepsOrder` | common/lib/rbtree.c:26-70 | A turn of the tree leaves its list as it is. |
| `RbTree.Next` | common/lib/rbtree.c:383-410 | The walk down and left, or up, from a node ends at its latter neighbour in the list, for every tree and every place in it. |
| `RbTree.Prev` | common/lib/rbtree.c:412-435 | The mirrored walk ends at its former neighbour. |
| `SortedTree.Neighbours` | common/block/elevator.c:1120-1141 | The neighbours of a request in the list are the nearest ones below and above it. |
| `DeadlineRuns.StepKeeps` | common/block/deadline-iosched.c:77-222 | Every operation keeps both directions in order, with any clock that does not go back. |
| `DeadlineRuns.ListsAgree` | common/block/deadline-iosched.c:77-113 | In every reachable state the tree and the fifo of a direction hold the same requests, sorted by sector and by deadline, and a next request is a queued one, of one direction only. |
| `DeadlineRuns.HeadTellsExpiry` | common/block/deadline-iosched.c:228-239 | The head of the fifo has expired if and only if any request has. |
| `DeadlineRuns.DispatchSendsOne` | common/block/deadline-iosched.c:245-327 | A dispatch sends exactly one queued request if any is queued, and nothing otherwise. |
| `DeadlineRuns.BatchStartsWithOldest` | common/block/deadline-iosched.c:297-314 | A batch starts with a request of earliest deadline if any has expired, and else where the last one stopped. |
| `DeadlineRuns.BatchGoesUp` | common/block/deadline-iosched.c:207-222 | Moving a request leaves the nearest queued one above it as the next. |
| `DeadlineRuns.SwallowTakesEarlier` | common/block/deadline-iosched.c:170-189 | A merge of two requests leaves the earlier of the two deadlines, removes one request and changes no other. |
| `DeadlineRuns.NothingIsLost` | common/block/deadline-iosched.c:77-222 | Every operation neither loses nor invents a request, aliases and repositioning included. |
| `DeadlineRuns.WritesAreNotStarved` | common/block/deadline-iosched.c:245-327 | In any reachable state and under any additions, at most (writes_starved + 1) * max(1, fifo_batch) reads are dispatched before a write, while writes stay pending. |
| `DeadlineQueue.DeadlineData.Settle` | common/block/deadline-iosched.c:77-84 | The alias loop turns at most once and leaves the sector free. |
| `DeadlineQueue.DeadlineData.AddRequest` | common/block/deadline-iosched.c:101-113 | Addition is the model's step and keeps the invariant. |
| `DeadlineQueue.DeadlineData.MergedRequest` | common/block/deadline-iosched.c:156-168 | Repositioning after a front merge is the model's step. |
| `DeadlineQueue.DeadlineData.MergedRequests` | common/block/deadline-iosched.c:170-189 | Merging two requests is the model's step. |
| `DeadlineQueue.DeadlineData.MoveRequest` | common/block/deadline-iosched.c:207-222 | Moving a request is the model's step. |
| `DeadlineQueue.DeadlineData.DispatchRequests` | common/block/deadline-iosched.c:245-327 | A dispatch is the model's step, and reports whether anything was queued. |
| `Vr.DeletedNearest` | common/block/vr-iosched.c:97-113 | Deletion keeps the cached neighbours of the head right, also when the start of the deleted request has already moved. |
| `Vr.MovedNearest` | common/block/vr-iosched.c:194-212 | Moving a request makes its neighbours the nearest ones of the new head position. |
| `Vr.InsertedNearest` | common/block/vr-iosched.c:83-90 | Insertion keeps the cached neighbours right. |
| `VrRuns.StepKeeps` | common/block/vr-iosched.c:73-306 | Every operation keeps the tree, the caches and the fifos in order. |
| `VrRuns.CachesAreNearest` | common/block/vr-iosched.c:73-113 | In every reachable state next_rq and prev_rq are the nearest queued requests at or above, and below, the head, and they differ. |
| `VrRuns.CheckFifoFindsOldest` | common/block/vr-iosched.c:218-249 | An expired request is found if and only if there is one, and none has an earlier deadline. |
| `VrRuns.PickedQueued` | common/block/vr-iosched.c:286-306 | A dispatch picks a queued request whenever there is one. |
| `VrRuns.DispatchKeeps` | common/block/vr-iosched.c:286-306 | A dispatch sends exactly one queued request, if there is one. |
| `VrRuns.DispatchesDrain` | common/block/vr-iosched.c:286-306 | n dispatches in a row send n requests, or all there are. |
| `VrRuns.NothingIsLost` | common/block/vr-iosched.c:73-212 | Every operation neither loses nor invents a request. |
| `VrQueue.VrData.DelRqRb` | common/block/vr-iosched.c:97-113 | Deletion is the model's, and the BUG_ONs about the two caches stay silent. |
| `VrQueue.VrData.MoveRequest` | common/block/vr-iosched.c:194-212 | Moving is the model's, and its BUG_ON stays silent. |
| `VrQueue.VrData.AddRqRb` | common/block/vr-iosched.c:73-94 | Insertion, with an alias sent first, is the model's; a second alias cannot turn up and the BUG_ONs about the caches stay silent. |
| `VrQueue.VrData.AddRequest` | common/block/vr-iosched.c:119-130 | Addition is the model's step. |
| `VrQueue.VrData.MergedRequest` | common/block/vr-iosched.c:159-170 | Repositioning after a front merge is the model's step. |
| `VrQueue.VrData.MergedRequests` | common/block/vr-iosched.c:173-188 | Merging two requests is the model's step. |
| `VrQueue.VrData.DispatchRequests` | common/block/vr-iosched.c:286-306 | A dispatch is the model's step, and reports whether anything was queued. |
| `Tags.StepKeeps` | common/block/blk-tag.c:220-405 | Every operation keeps bitmap, index, tags, busy list and queue in agreement. |
| `Tags.TagsAreUnique` | common/block/blk-tag.c:369-382 | Two tagged requests have different tags, whose bits are set and whose index entries lead back to them. |
| `Tags.StartTakesLowest` | common/block/blk-tag.c:337-384 | A request is refused exactly when its limit is exceeded or no tag below the limit is free; else it gets the lowest free one, and asynchronous requests keep out of the last two. |
| `Tags.EndingFreesABusyTag` | common/block/blk-tag.c:282-316 | In every reachable state, resizing included, ending a busy request clears a bit that is set and that no other request has; its early return and complaints do not happen. |
| `Tags.InvalidationRestoresOrder` | common/block/blk-tag.c:399-405 | Invalidation frees every tag and leaves the requests in flight, in the order in which they were started, in front of the old queue. |
| `TagQueue.TagMap.FindFree` | common/block/blk-tag.c:369-374 | The search finds the lowest free tag. |
| `TagQueue.TagMap.StartTag` | common/block/blk-tag.c:337-384 | Starting a tag in the arrays is the model's step. |
| `TagQueue.TagMap.EndTag` | common/block/blk-tag.c:282-316 | Ending a tag is the model's step, and none of its three checks fires. |
| `TagQueue.TagMap.RequeueRequest` | common/block/blk-core.c:980-992 | Requeueing frees the tag and puts the request at the front. |
| `TagQueue.TagMap.InvalidateTags` | common/block/blk-tag.c:399-405 | The loop over the busy list is the model's step. |
| `TagQueue.TagMap.ResizeTags` | common/block/blk-tag.c:220-265 | Growing copies map and index into new arrays and keeps all tags; shrinking only lowers the limit. |
| `DispatchSort.DispatchList.Sort` | common/block/elevator.c:413-449 | The scan from the back inserts the request once, at the one place where it passes everything behind and not the one before, and keeps the list in sweep order. |
| `DispatchSort.PlacedSwept` | common/block/elevator.c:428-446 | Insertion at that place keeps neighbours that nothing holds in place in sweep order. |
| `DispatchSort.StretchIsSorted` | common/block/elevator.c:428-446 | A stretch of requests that nothing holds in place is sorted throughout: sectors at or above the boundary rising, then those below rising. |
| `DispatchSort.NothingHeldIsPassed` | common/block/elevator.c:431-436 | A barrier, a started request, and one of another direction or kind stay ahead of the new request. |
| `DispatchSort.SortedKeeps` | common/block/elevator.c:413-449 | Any number of insertions under one boundary keep the order and contain each request once. |
| `AesField.StarXDoublesBytes` | common/crypto/aes_generic.c:1128 | The masked shift and multiplication double all four bytes of a word in the field at once. |
| `AesField.UnmixUndoesMix` | common/crypto/aes_generic.c:1130-1139 | The inverse mixing undoes the mixing, on every column. |
| `AesField.ImixPackedIsUnmix` | common/crypto/aes_generic.c:1130-1139 | The macro on the packed 32-bit word, with its rotations, is the inverse mixing 14, 11, 13, 9 of the four bytes. |
| `AesCipher.ForwardIs` | common/crypto/aes_generic.c:1300-1313 | A table round is SubBytes, ShiftRows, MixColumns and AddRoundKey of section 5.1 of FIPS-197. |
| `AesCipher.BackwardIs` | common/crypto/aes_generic.c:1372-1385 | An inverse table round is InvShiftRows, InvSubBytes, InvMixColumns and AddRoundKey. |
| `AesCipher.EquivalentIsInverse` | common/crypto/aes_generic.c:1258-1266 | With reversed keys, unmixed except at the ends, the equivalent inverse cipher of section 5.3.5 is the inverse cipher of section 5.3 on every input. |
| `AesCipher.InverseUndoesCipher` | common/crypto/aes_generic.c:1329-1368 | The inverse cipher undoes the cipher for every number of rounds, all keys and any substitution with an inverse. |
| `AesCipher.DecryptUndoesEncrypt` | common/crypto/aes_generic.c:1401-1440 | The equivalent inverse cipher undoes the cipher. |
| `AesKey.RcoTabIsPowers` | common/crypto/aes_generic.c:63 | The round constants are the powers of two of the field. |
| `AesKey.Context.Loop4` | common/crypto/aes_generic.c:1147-1158 | One turn adds the next four words of the expanded key of section 5.2. |
| `AesKey.Context.Loop6` | common/crypto/aes_generic.c:1160-1175 | One turn adds the next six words. |
| `AesKey.Context.Loop8` | common/crypto/aes_generic.c:1177-1200 | One turn adds the next eight words, with the extra substitution in the middle. |
| `AesKey.Context.Reverse` | common/crypto/aes_generic.c:1258-1266 | key_dec holds the words of key_enc with the rounds reversed, unmixed except at the ends. |
| `AesKey.Context.ExpandKey` | common/crypto/aes_generic.c:1216-1268 | A key of 16, 24 or 32 bytes gives both schedules; any other length gives -EINVAL and changes nothing. |
| `AesKey.Context.Encrypt` | common/crypto/aes_generic.c:1329-1368 | The code computes the cipher with 10, 12 or 14 rounds. |
| `AesKey.Context.Decrypt` | common/crypto/aes_generic.c:1401-1440 | The code computes the equivalent inverse cipher. |
| `AesKey.Context.RoundTrip` | common/crypto/aes_generic.c:1216-1440 | With any accepted key in place, what Decrypt computes of what Encrypt computes is the block itself. |
| `CryptoApi.IncIsModular` | common/crypto/algapi.c:863-889 | Adding one with carry is adding one to the big-endian number, modulo 256 to the length. |
| `CryptoApi.WordInc` | common/crypto/algapi.c:880-884 | A 32-bit word plus one is its four bytes incremented, and is zero exactly when all bits were set. |
| `CryptoApi.IncByte` | common/crypto/algapi.c:863-874 | The byte loop increments the first bytes of the buffer in place and touches no other. |
| `CryptoApi.CryptoInc` | common/crypto/algapi.c:876-889 | For every length, the words-then-bytes loop turns the buffer into its value plus one modulo 256 to the length. |
| `CryptoApi.QueueIsFifo` | common/crypto/algapi.c:794-841 | Over every run: requests leave in the order in which they were accepted, qlen is the list length, and the backlog pointer is at index max_qlen, or at the list head if the list is no longer than that. |
| `CryptoApi.CryptoQueue.Enqueue` | common/crypto/algapi.c:803-821 | Enqueueing is the specified step and keeps the backlog pointer right. |
| `CryptoApi.CryptoQueue.Dequeue` | common/crypto/algapi.c:824-841 | Dequeueing gives the first request and keeps the backlog pointer right, also for max_qlen = 0. |

## Left out

- Concurrency: each section under the queue lock is one step; interrupts, RCU, timers and reference counts are not modelled.
- Integer widths: sizes, counts and times are unbounded, except in `crypto_inc`, the AES words, the 16-bit weight bound and `BfqTree.WrappedOrder`.
- Ordered writes: the mode of a queue does not change during a run; barriers are fs requests; only other requests are inserted at the front; flush requests are not fs; the two in-flight counters are one; the FUA bit and `QUEUE_FLAG_DEAD` are not modelled; a forced dispatch is taken to empty the scheduler.
- Ordered writes by tag: only what `BarrierSafety.SequencesEndOnce` states, since the order of tagged requests is up to the device.
- BFQ groups: the cgroup hierarchy and the `next_active` cache; the flat configuration is modelled.
- Red-black colours: where the tree turns is left open, so that the theorems hold wherever it does.
- BFQ heuristics: peak rate, idling, think time and seek detection; whether a queue is slow, and which queued request comes next, are left open.
- BFQ device limits: how the peak rate estimate moves them is left open, and any limit may come with any event.
- CFQ: not part of this model.
- V(R) penalties: the choice between the two neighbours is modelled with the remainder that the code uses, and nothing is claimed of it.
- Deadline fields that nothing reads: `last_sector`, and request lengths.
- DeadlineRuns.WritesAreNotStarved: for a non-negative `writes_starved`; a negative one is compared as unsigned and never starves reads.
- Tag maps: shared maps, and growth while `nr_requests` has been lowered below the old depth.
- BioRequest.Request.Update: not for chains that run into the BUG_ON of the loop; the write that the code makes past the last vector of a cut barrier bio is taken to touch none of its vectors.
- SegmentLoops.Request.MergeNext: for requests that carry data; two requests without data are taken to be contiguous by the code.
- Bio chains: discards without vectors, integrity data, mixed-merge flags, and accounting.
- Scatterlists: padding and the drain entry that `blk_rq_map_sg` adds behind the data entries, and the limit on sectors in merges.
- AES tables: defined from any substitution with an inverse, instead of their literal contents.
- Crypto walks: `ahash.c` and `ablkcipher.c` are not part of this model.
- Plumbing: sysfs, ioctl, SCSI, statistics, tracing, and module set-up and tear-down.
