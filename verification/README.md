# Block layer and crypto core of Linux 2.6.34.7, with the LOOK scheduler

A model in Dafny of the parts of this kernel where many steps have to agree with each other, and
proofs of what those steps promise together, for every input and every run:

* **Barriers** (`Barrier*.dfy`). The state machine that turns one barrier request into drain,
  preflush, barrier and postflush. The protocol is a state with nine kinds of steps; one invariant
  holds over every run in every ordering mode, a second as long as the colours mean what they
  should, a third on queues that order by draining; a class carries the same steps out in place and
  stays on a run.
* **Requests** (`Segments`, `Requests`, `Completion`, `BlockRequests`). Segment counting, bio and
  request merging, scatterlist building, partial and failing completion.
* **Camellia** (`Camellia`, `CamelliaRounds`, `CamelliaCipher`). The cipher with its whitening and
  round keys moved to other places and its s-boxes folded into tables, against sections 2.3 and
  2.4.1 of RFC 3713.
* **CFQ queue merging** (`CfqMerging`, `CfqScheduler`). Reference counts along chains of links.
* **Deadline** (`Deadline`, `DeadlineDispatch`, `DeadlineScheduler`). Two indexes, expiry, the
  starvation bound.
* **LOOK** (`Look`), **merge hash** (`MergeHash`), **sorted dispatch** (`DispatchSort`).
* **Spawn removal** (`SpawnRemoval`), **tag map** (`TagMap`), **counter increment** (`Counter`).

`Lists` holds the list lemmas that several modules share. Each component has a specification made
of functions on values, lemmas about it, and, where the kernel changes things in place, a class or
methods with the kernel's loops whose contracts equate the new state with the specification.

Some promises turned out to hold under a condition only. Each of them has a failing input and its
exact condition:

* *Draining.* On a queue that orders by tag, an empty barrier is drained for by the block layer. The
  drain stops when a request of the barrier before last, still at the driver when it began, is
  requeued: `TaggedQueueSticks` is such a run without any unusual request, `StartSticksIff` and
  `DrainSticksIff` say for every mode that this is so exactly if the driver holds a plain request of
  the other colour, and `StuckModes` that among all modes only ordering by tag without flushes is
  concerned. Such a stop is not final: the next driver command that comes and goes closes the drain,
  and the barrier then ends ahead of the requeued request. `DrainClosesIff` says exactly when a drain
  closes with every earlier request ended.
* *Driver commands with `REQ_HARDBARRIER`* (drivers/block/pktcdvd.c:755 sets it). They toggle the
  ordering colour without being barriers. On every queue that orders by draining, a request submitted
  after a barrier can then be issued together with the barrier's own commands (`Overtaken`), a later
  barrier can be handed out like a plain request and end first (`EndsTooEarly`), and a barrier that was
  offered but not taken is later counted among the requests its own drain waits for, so that its
  sequence never ends (`HangsForGood`). `FlaggedCommandStalls` is a run in which a requeue does harm.
  `DrainSafetyIff`, `EndsInOrderIff` and `StuckOnlyByFlagged` show in each drain mode that the promises
  hold over all runs if and only if no driver command carries the flag; `CanEndIff` shows for all their
  runs that a sequence can be ended if and only if it does not wait for itself.
* *Completing the barrier proxy in two parts* finishes it exactly if the first part ends on a bio
  boundary (`BarCompletesIff`), because the bookkeeping of the bio's size is skipped for it. A proxy has
  one bio, so it never finishes that way (`OneBioNeverFinishes`, `TwoSectorsNeverFinish`).
* *Growing a tag map* can make it smaller, because the new depth is clamped to the queue's request
  limit. Every tag in use is kept exactly if each is below the new depth (`ResizeKeepsIff`);
  `ShrunkByGrowing` is an input where one is not. Over any run the map stays sound exactly if every
  resize has room (`RunSoundIff`), and it has while the request limit does not change
  (`FixedLimitSound`).
* *The cyclic order of the dispatch queue* survives a peek exactly if none or all of the other requests
  start inside the head (`PeekKeepsIff`).

Where comments and code differ, the code is modelled. The comment in `blk_queue_end_tag` expects tags
beyond the real depth after the depth has been reduced; reducing it never leads there (`EndFrees`), only
the growing above does (`LostTagStays`). The header of look-iosched.c says that a descending head takes
the next smaller block; `DescentRisesIff` says when it does not.

What the model assumes:

* Everything done under the queue lock is one step; there is no other concurrency.
* Integers are unbounded, except the 32-bit byte counts of completion (`Sub32`), the 32-bit words of
  Camellia and the bytes and words of the counter, which wrap as in C.
* The stages of a barrier sequence are single bits in the order started, drain, preflush, barrier,
  postflush, done (include/linux/blkdev.h). Flush proxies are not filesystem requests, the barrier
  proxy is one.
* In the barrier runs no filesystem request is inserted at the front of the queue, and the places a
  scheduler may choose for a request are those behind started and barrier requests.
* A run is `Unflagged` if no driver command carries `REQ_HARDBARRIER`. The meaning of colours and the
  ordering promises are proved for such runs, and disproved for the others as said above; what does
  not name `Unflagged` holds for all runs.
* `BIOVEC_PHYS_MERGEABLE` and `BIOVEC_SEG_BOUNDARY` look at two adjacent vectors only. Bios carry
  data: positive sizes that are multiples of the sector size and equal to their vectors.
* A red-black tree is its in-order sequence, a hash function is any function, `hlist` and `list`
  nodes are identifiers, `jiffies` is a parameter. Only the claims about expiry order assume that it
  does not go back and that the expiry settings stay.
* The first bio of a request starts at the request's position.
* Allocation succeeds.

## Model

| member | source | states |
|---|---|---|
| `BarrierTheorems.DrainSafety` | linux-2.6.34.7/block/blk-barrier.c:154-280 | in every unflagged run with drain ordering, while the driver holds one of a barrier's commands it holds no other filesystem request, every request submitted before the barrier has ended and none submitted after it has been issued |
| `BarrierTheorems.NoneOvertakes` | linux-2.6.34.7/block/elevator.c:653-733 | in such a run a request submitted after a barrier is issued only when that barrier has ended |
| `BarrierTheorems.BarrierEndsLast` | linux-2.6.34.7/block/blk-barrier.c:92-112 | in such a run a barrier has ended only when every earlier filesystem request has |
| `BarrierFlagged.DrainSafetyIff` | linux-2.6.34.7/block/elevator.c:701-715 | for each drain mode, the first two promises hold over all runs if and only if no driver command carries the barrier flag |
| `BarrierFlagged.EndsInOrderIff` | linux-2.6.34.7/block/elevator.c:701-715 | so does the third |
| `BarrierFlagged.StuckOnlyByFlagged` | linux-2.6.34.7/block/elevator.c:701-733 | for each drain mode, no run comes to a standstill, and every sequence can be ended, if and only if no driver command carries the flag |
| `BarrierFlagged.Overtaken` | linux-2.6.34.7/block/blk-barrier.c:263-277 | a run in each drain mode in which a plain request submitted after a barrier is at the driver together with that barrier's last command |
| `BarrierFlagged.EndsTooEarly` | linux-2.6.34.7/block/blk-barrier.c:263-277 | its continuation in which another barrier, handed out like a plain request, ends before the first one |
| `BarrierFlagged.HangsForGood` | linux-2.6.34.7/block/blk-core.c:1844-1860 | its continuation in which an offered barrier begins its own sequence and no run whatever ends that sequence |
| `BarrierFailures.FlaggedCommandStalls` | linux-2.6.34.7/block/elevator.c:667-681 | a run with one flagged command and a requeue in which the drain stops with the head held back, and its continuation by one driver command in which the barrier command is issued ahead of the requeued request |
| `BarrierFailures.TaggedQueueSticks` | linux-2.6.34.7/block/blk-barrier.c:170-180 | a run without flagged commands in which the drain for an empty barrier on a queue that orders by tag stops, and its continuation in which that barrier ends before an earlier request |
| `BarrierFailures.StuckModes` | linux-2.6.34.7/block/blk-barrier.c:34-40 | of the modes a driver may ask for, exactly ordering by tag without flushes can come to a standstill in an unflagged run |
| `BarrierTheorems.StartSticksIff` | linux-2.6.34.7/block/blk-barrier.c:154-234 | when looking at the head begins a drain, in any mode, the sequence can come to a standstill if and only if the driver holds a plain request of the other colour than the barrier's |
| `BarrierDraining.DrainSticksIff` | linux-2.6.34.7/block/blk-barrier.c:188-280 | the same from any later state of an open drain, unless it already stands still |
| `BarrierDraining.DrainClosesIff` | linux-2.6.34.7/block/elevator.c:843-855 | in every mode, when a drain is about to close, every plain request submitted before the barrier has ended if and only if none of the other colour was put back meanwhile |
| `BarrierDraining.StuckIff` | linux-2.6.34.7/block/blk-barrier.c:236-280 | with a sequence running and the driver empty the head is let through, in every mode, unless a drain is open and the head is not of its stage |
| `BarrierTheorems.TagNeverStuck` | linux-2.6.34.7/block/blk-barrier.c:263-270 | no sequence that orders by tag comes to a standstill |
| `BarrierTheorems.DrainNeverStuck` | linux-2.6.34.7/block/blk-barrier.c:188-280 | no sequence does on a queue that orders by draining |
| `BarrierDraining.CanFinish` | linux-2.6.34.7/block/blk-barrier.c:154-280 | from every state whose sequence is not counted among the requests it waits for, in every mode, handing out and completing, and at a standstill one more driver command, reach the end of the sequence |
| `BarrierTheorems.AlwaysFinishes` | linux-2.6.34.7/block/blk-barrier.c:154-280 | hence from every state of every unflagged run |
| `BarrierDraining.CanEndIff` | linux-2.6.34.7/block/blk-barrier.c:154-280 | in every run of a queue that orders by draining, and in every unflagged run of any queue, a running sequence can be ended if and only if its barrier is not itself in flight while the drain is open |
| `BarrierDraining.WaitsForever` | linux-2.6.34.7/block/elevator.c:843-855 | if it is, no run closes the drain |
| `BarrierDraining.Unstick` | linux-2.6.34.7/block/elevator.c:843-855 | at a standstill a driver command that comes and goes closes the drain stage and leaves the queue as it was |
| `BarrierDraining.StepProgress` | linux-2.6.34.7/block/elevator.c:667-681 | while the driver holds nothing of the other colour, no step brings an open drain to a standstill |
| `BarrierDraining.StepMatching` | linux-2.6.34.7/block/blk-barrier.c:272-277 | within one sequence nothing of the other colour joins the requests at the driver |
| `BarrierTheorems.ExactlyOnce` | linux-2.6.34.7/block/blk-barrier.c:92-130 | in every run and every ordering mode each submitted request is in exactly one place, none ends twice and the BUG_ON of `blk_ordered_complete_seq` never fires |
| `BarrierTheorems.ProxiesInOrder` | linux-2.6.34.7/block/blk-barrier.c:188-220 | in every run queued proxies stand in the order preflush, barrier, postflush, also after requeues |
| `BarrierTheorems.FirstErrorIs` | linux-2.6.34.7/block/blk-barrier.c:96-98 | the recorded error is the first nonzero one that was reported, or zero |
| `BarrierTheorems.BarrierOutcome` | linux-2.6.34.7/block/blk-barrier.c:92-130 | in every run the step in which a barrier ends, unless the driver completes the barrier itself, closes its last stage, leaves none of its proxies behind and ends it with the first nonzero error of its sequence |
| `BarrierTheorems.HandedOutOutcome` | linux-2.6.34.7/block/elevator.c:826-856 | a barrier that was handed out itself ends with the driver's error |
| `BarrierTheorems.NeverHandedOut` | linux-2.6.34.7/block/blk-barrier.c:236-280 | which does not happen in an unflagged run |
| `BarrierInvariants.StepInv` | linux-2.6.34.7/block/blk-barrier.c:56-280 | every step of the protocol keeps the invariant of places, counts, sequence bookkeeping and queue order, in every ordering mode and whatever is submitted |
| `BarrierInvariants.RunInv` | linux-2.6.34.7/block/blk-barrier.c:56-280 | hence every run does |
| `BarrierInvariants.CompleteSeqInv` | linux-2.6.34.7/block/blk-barrier.c:92-112 | marking stages that were open keeps the invariant, whether or not it ends the sequence |
| `BarrierInvariants.StartOrderedInv` | linux-2.6.34.7/block/blk-barrier.c:154-234 | starting a sequence for the barrier at the head, with the stages its mode skips, keeps it |
| `BarrierInvariants.DoOrderedInv` | linux-2.6.34.7/block/blk-barrier.c:236-280 | so does the verdict on the head of the queue |
| `BarrierInvariants.PickIsHead` | linux-2.6.34.7/block/blk.h:54-68 | what is offered to the driver is the head of the queue and may be issued |
| `BarrierInvariants.ProxyClosesOwnStage` | linux-2.6.34.7/block/blk-barrier.c:114-130 | the end_io of a proxy closes a stage of a running sequence that is still open |
| `BarrierInvariants.CompleteInv` | linux-2.6.34.7/block/elevator.c:826-856 | completing a request, with the drain check, keeps the invariant |
| `BarrierInvariants.RequeueInv` | linux-2.6.34.7/block/elevator.c:653-681 | requeueing by stage keeps the order of the proxies |
| `BarrierColours.StepColoured` | linux-2.6.34.7/block/blk-barrier.c:56-280 | in every mode every step that is not a flagged command keeps: colours alternate with barriers, barriers are begun in submission order and never handed out, nothing behind the next barrier is issued early, requeued requests stand before waiting ones and in the order of stages |
| `BarrierColours.RunColoured` | linux-2.6.34.7/block/blk-barrier.c:56-280 | hence every unflagged run does |
| `BarrierColours.HeadBarrier` | linux-2.6.34.7/block/blk-barrier.c:236-245 | a barrier at the head is the next one in submission order |
| `BarrierColours.IssuedBefore` | linux-2.6.34.7/block/elevator.c:559-571 | with a barrier at the head everything submitted before it has been issued |
| `BarrierColours.BehindTheFlags` | linux-2.6.34.7/block/elevator.c:411-447 | what the scheduler may place a request in front of is of the same epoch and not yet issued |
| `BarrierColours.DrainHeadIssued` | linux-2.6.34.7/block/blk-barrier.c:272-277 | a filesystem request let through by a running drain had been issued before the barrier began |
| `BarrierColours.RequeueColoured` | linux-2.6.34.7/block/elevator.c:667-681 | a requeued request lands behind all earlier stages and before all later ones, and ahead of everything still to be issued |
| `BarrierOrdering.StepOrdered` | linux-2.6.34.7/block/blk-barrier.c:154-280 | on queues that order by draining every step that is not a flagged command keeps in-flight and ended requests on their side of the running barrier |
| `BarrierOrdering.RunOrdered` | linux-2.6.34.7/block/blk-barrier.c:154-280 | hence every unflagged run does |
| `BarrierOrdering.HeadNotLate` | linux-2.6.34.7/block/blk-barrier.c:272-277 | the head's stage is never below the current one, so the WARN_ON never fires |
| `BarrierOrdering.DrainDone` | linux-2.6.34.7/block/elevator.c:843-855 | when the drain check closes the drain, every request before the barrier has ended |
| `BarrierOrdering.HeldIsCurrent` | linux-2.6.34.7/block/blk-barrier.c:263-277 | a filesystem request or proxy at the driver belongs to the current stage |
| `BarrierQueue.RequestQueue.constructor` | linux-2.6.34.7/block/blk-barrier.c:25-50 | a new queue is at the start of a run |
| `BarrierQueue.RequestQueue.OrderedReqSeq` | linux-2.6.34.7/block/blk-barrier.c:63-90 | the stage of a request, read off the fields |
| `BarrierQueue.RequestQueue.OrderedCompleteSeq` | linux-2.6.34.7/block/blk-barrier.c:92-112 | computes the protocol's completion of stages and reports whether the sequence is over |
| `BarrierQueue.RequestQueue.Start` | linux-2.6.34.7/block/blk-barrier.c:154-234 | computes the protocol's start of a sequence |
| `BarrierQueue.RequestQueue.DoOrderedHead` | linux-2.6.34.7/block/blk-barrier.c:236-280 | computes the protocol's verdict on the head |
| `BarrierQueue.RequestQueue.ElvCompleted` | linux-2.6.34.7/block/elevator.c:826-856 | computes the protocol's accounting and drain check |
| `BarrierQueue.RequestQueue.FindRequeuePos` | linux-2.6.34.7/block/elevator.c:672-680 | the list walk stops at the first request whose stage is not lower |
| `BarrierQueue.RequestQueue.ElvDispatch` | linux-2.6.34.7/block/elevator.c:411-447 | one request leaves the scheduler for a place behind started and barrier requests, nothing else moves |
| `BarrierQueue.RequestQueue.Drain` | linux-2.6.34.7/block/elevator.c:559-571 | the scheduler ends up empty and the queue holds what both held before |
| `BarrierQueue.RequestQueue.AddRequest` | linux-2.6.34.7/block/elevator.c:601-733 | the request, flagged or not, is coloured and placed at the front, at the back after a drain, or with the scheduler, and the queue stays on a run |
| `BarrierQueue.RequestQueue.PeekRequest` | linux-2.6.34.7/block/blk-core.c:1760-1841 | the nested loop over heads and the scheduler ends; what it offers may be issued, and it offers nothing with no sequence running only if nothing is left |
| `BarrierQueue.RequestQueue.FetchRequest` | linux-2.6.34.7/block/blk-core.c:1907-1915 | the offered head moves to the driver, which did not hold it |
| `BarrierQueue.RequestQueue.EndIo` | linux-2.6.34.7/block/blk-barrier.c:114-130 | completion by the driver, through the end_io handlers of the proxies, is the protocol's |
| `BarrierQueue.RequestQueue.RequeueRequest` | linux-2.6.34.7/block/elevator.c:542-557 | requeueing is the protocol's |
| `Segments.MapSgKeepsBytes` | linux-2.6.34.7/block/blk-merge.c:118-170 | the scatterlist transfers the same bytes in the same order as the vectors |
| `Segments.MapSgFits` | linux-2.6.34.7/block/blk-merge.c:118-170 | no entry exceeds the segment size limit unless it is a single vector |
| `Segments.GreedyMinimal` | linux-2.6.34.7/block/blk-merge.c:118-170 | the scatterlist has no more entries than any legal partition of the vectors into segments |
| `Segments.RecountSplits` | linux-2.6.34.7/block/blk-merge.c:12-70 | a recount comes with a legal partition of exactly that many segments whose first and last sizes are the noted ones |
| `Segments.SplitJoin` | linux-2.6.34.7/block/blk-merge.c:88-112 | two partitions whose touching segments may be glued join to one with a segment less |
| `Requests.SegmentsSuffice` | linux-2.6.34.7/block/blk-merge.c:118-170 | a request whose count stems from a legal partition needs at most that many scatterlist entries |
| `Requests.BackMergeSeg` | linux-2.6.34.7/block/blk-merge.c:203-246 | a back merge, accepted or refused, keeps a legal partition behind the count |
| `Requests.FrontMergeSeg` | linux-2.6.34.7/block/blk-merge.c:248-271 | so does a front merge |
| `Requests.BackMergeData` | linux-2.6.34.7/block/blk-core.c:1183-1203 | a back merge keeps the length equal to the bios' sizes and the chain contiguous |
| `Requests.FrontMergeData` | linux-2.6.34.7/block/blk-core.c:1205-1236 | so does a front merge, with the new start sector |
| `Requests.BackMergeFailFast` | linux-2.6.34.7/block/blk-merge.c:319-338 | the fail-fast bits stay those of the first bio, and of every bio unless the request is marked as mixed |
| `Requests.FrontMergeFailFast` | linux-2.6.34.7/block/blk-core.c:1213-1217 | the same for a front merge |
| `Requests.AttemptMergeInv` | linux-2.6.34.7/block/blk-merge.c:273-430 | two neighbours with data can always be considered for a merge; merged or refused, the first keeps every invariant, and refused, so does the second with its changed size hint |
| `Requests.BioLimits` | linux-2.6.34.7/block/blk-merge.c:203-271 | a back or front merge is accepted if and only if sectors and segments stay within the queue's limits, and a refusal is remembered |
| `Requests.PairLimits` | linux-2.6.34.7/block/blk-merge.c:273-308 | two requests are merged if and only if the limits allow it, glued segments counted once |
| `Completion.UpdateInv` | linux-2.6.34.7/block/blk-core.c:1940-2070 | completion reports more to do exactly if bytes remain, keeps length, sector, segments and fail-fast bits, and every bio is ended once or still there, in order |
| `Completion.UpdateCompose` | linux-2.6.34.7/block/blk-core.c:1940-2070 | completing a bytes and then b leaves the same request as completing a + b, up to the two size hints, and ends the same bios |
| `Completion.LeadBytesAre` | linux-2.6.34.7/block/blk-core.c:1677-1702 | the bytes to fail are those of the longest leading run of bios that have every fail-fast bit of the request |
| `Completion.ErrBytesPositive` | linux-2.6.34.7/block/blk-core.c:1677-1702 | a request with data has a positive number of bytes to fail, so the BUG_ON never fires |
| `Completion.FailAllEndsAll` | linux-2.6.34.7/block/blk-core.c:1677-1702 | repeated failing up to the boundary terminates and ends every bio exactly once, in order |
| `Completion.BarCompletesIff` | linux-2.6.34.7/block/blk-core.c:133-169 | the barrier proxy completed in two parts is finished if and only if the first part ends on a bio boundary |
| `Completion.OneBioNeverFinishes` | linux-2.6.34.7/block/blk-core.c:133-169 | a proxy of one bio, which is what `start_ordered` builds, is never finished by two parts |
| `Completion.TwoSectorsNeverFinish` | linux-2.6.34.7/block/blk-core.c:133-169 | such a proxy of two sectors, completed sector by sector |
| `Completion.BuiltInv` | linux-2.6.34.7/block/blk-merge.c:203-430 | every request that recounts, back, front and request merges, refused merges on either side and partial completions can build has all invariants |
| `Completion.BuiltMergeable` | linux-2.6.34.7/block/blk-merge.c:273-317 | and can take part in the next merge |
| `Completion.ScatterlistFits` | linux-2.6.34.7/block/blk-merge.c:118-170 | `blk_rq_map_sg` emits at most `nr_phys_segments` entries for every such request |
| `BlockRequests.CountSegments` | linux-2.6.34.7/block/blk-merge.c:12-70 | the recount loop computes the tally of the concatenated vectors |
| `BlockRequests.MapScatterlist` | linux-2.6.34.7/block/blk-merge.c:118-170 | the mapping loop computes the specified scatterlist |
| `BlockRequests.CountErrBytes` | linux-2.6.34.7/block/blk-core.c:1677-1702 | the accumulation loop computes the failing bytes |
| `BlockRequests.SpreadFailFast` | linux-2.6.34.7/block/blk-merge.c:319-338 | the loop gives every bio the request's fail-fast bits and changes nothing else |
| `BlockRequests.AdvanceChain` | linux-2.6.34.7/block/blk-core.c:1969-2042 | the completion loop over bios and vectors leaves the specified rest and ends the specified bios |
| `BlockRequests.Request.constructor` | linux-2.6.34.7/block/blk-core.c:1110-1142 | a request made of one bio |
| `BlockRequests.Request.RecalcSegments` | linux-2.6.34.7/block/blk-merge.c:12-75 | count and size hints are rewritten as specified |
| `BlockRequests.Request.MarkMixed` | linux-2.6.34.7/block/blk-merge.c:319-338 | the mixed mark is set and spread as specified |
| `BlockRequests.Request.MergeBack` | linux-2.6.34.7/block/blk-merge.c:224-246 | equals the specified back merge with its two refusals |
| `BlockRequests.Request.MergeFront` | linux-2.6.34.7/block/blk-merge.c:248-271 | equals the specified front merge |
| `BlockRequests.Request.PairWith` | linux-2.6.34.7/block/blk-merge.c:273-308 | equals the specified pairing, size hints changed even when refused |
| `BlockRequests.Request.MergeWith` | linux-2.6.34.7/block/blk-merge.c:359-430 | equals the specified request merge, both requests updated |
| `BlockRequests.Request.Complete` | linux-2.6.34.7/block/blk-core.c:1940-2070 | equals the specified completion |
| `Camellia.EncryptsAsSpecified` | linux-2.6.34.7/crypto/camellia.c:381-940 | for arbitrary subkeys, tables, block and number of six-round groups, the setup followed by the fast rounds is the structure of RFC 3713, section 2.3, around the F of the tables |
| `CamelliaRounds.FIsRfc` | linux-2.6.34.7/crypto/camellia.c:359-376 | for any four s-boxes, the F of the tables built from them is the F of RFC 3713, section 2.4.1: key addition, eight substitutions and the byte-wise P |
| `CamelliaRounds.EncryptsAsRfc` | linux-2.6.34.7/crypto/camellia.c:381-940 | hence the setup followed by the fast rounds is the cipher of RFC 3713, sections 2.3 and 2.4 |
| `CamelliaRounds.DecryptsAsRfc` | linux-2.6.34.7/crypto/camellia.c:942-995 | and the fast decryption inverts it on both sides |
| `Camellia.AbsorbedSame` | linux-2.6.34.7/crypto/camellia.c:387-468 | moving kw2 and kw4 into the other subkeys does not change the cipher |
| `Camellia.MovedSame` | linux-2.6.34.7/crypto/camellia.c:470-577 | moving the round keys behind F does not change the cipher |
| `Camellia.RoundAdds` | linux-2.6.34.7/crypto/camellia.c:870-884 | a treated key added inside the fast round is a plain xor behind F |
| `Camellia.FLInvCarries` | linux-2.6.34.7/crypto/camellia.c:394-396 | a difference before FLINV is the carried difference behind it |
| `Camellia.FLCarries` | linux-2.6.34.7/crypto/camellia.c:439-441 | a difference wanted behind FL is the carried difference before it |
| `Camellia.FLInverse` | linux-2.6.34.7/crypto/camellia.c:854-868 | FL and FLINV undo each other |
| `Camellia.DecryptUndoes` | linux-2.6.34.7/crypto/camellia.c:942-995 | decryption undoes encryption for any table of subkeys |
| `Camellia.EncryptUndoes` | linux-2.6.34.7/crypto/camellia.c:887-995 | and encryption undoes decryption |
| `Camellia.DecryptsAsSpecified` | linux-2.6.34.7/crypto/camellia.c:942-995 | with the subkeys of the setup, decryption and the cipher of RFC 3713 are inverse to each other |
| `Camellia.OthersUnread` | linux-2.6.34.7/crypto/camellia.c:887-995 | the table entries at the places of kw2 and kw4 are never read |
| `CamelliaCipher.AbsorbWhitening` | linux-2.6.34.7/crypto/camellia.c:387-468 | the straight-line code on subL and subR computes the absorbed subkeys, for both key sizes |
| `CamelliaCipher.PlaceKeys` | linux-2.6.34.7/crypto/camellia.c:470-559 | the straight-line code fills the key table with the moved keys |
| `CamelliaCipher.UnspreadKeys` | linux-2.6.34.7/crypto/camellia.c:561-577 | the loop applies the inverse of the last half of P to every round key and to nothing else |
| `CamelliaCipher.SetupTail` | linux-2.6.34.7/crypto/camellia.c:381-578 | the key table equals the specified one wherever it is read |
| `CamelliaCipher.DoEncrypt` | linux-2.6.34.7/crypto/camellia.c:887-940 | the rounds in place on the four words compute the fast cipher, halves swapped |
| `CamelliaCipher.DoDecrypt` | linux-2.6.34.7/crypto/camellia.c:942-995 | and the fast decryption |
| `CamelliaCipher.Context.constructor` | linux-2.6.34.7/crypto/camellia.c:1004-1031 | a context holds the table of its key's subkeys |
| `CamelliaCipher.Context.EncryptBlock` | linux-2.6.34.7/crypto/camellia.c:1033-1055 | returns the RFC 3713 encryption of the block |
| `CamelliaCipher.Context.DecryptBlock` | linux-2.6.34.7/crypto/camellia.c:1057-1079 | returns the one block whose RFC 3713 encryption is the given one |
| `CfqMerging.RefsAreUsers` | linux-2.6.34.7/block/cfq-iosched.c:1918-1968 | in every reachable state the count of a sync queue is its requests plus the io contexts whose chain of links passes through it |
| `CfqMerging.WalksAreSafe` | linux-2.6.34.7/block/cfq-iosched.c:2515-2546 | the chain of every context consists of live queues, ends and never returns to a queue |
| `CfqMerging.CooperatorWalkIsSafe` | linux-2.6.34.7/block/cfq-iosched.c:1928-1945 | so does the chain from any queue with process references |
| `CfqMerging.StepSound` | linux-2.6.34.7/block/cfq-iosched.c:3442-3547 | every step keeps counts and chains in agreement |
| `CfqMerging.RunSound` | linux-2.6.34.7/block/cfq-iosched.c:3442-3547 | hence every run does |
| `CfqMerging.SetupMergeInv` | linux-2.6.34.7/block/cfq-iosched.c:1928-1968 | linking two chain ends in either direction lengthens exactly the chains that passed the linked end |
| `CfqMerging.LinksToBusier` | linux-2.6.34.7/block/cfq-iosched.c:1957-1967 | a new link leads from a queue with at most as many processes to the other |
| `CfqMerging.MoveOnInv` | linux-2.6.34.7/block/cfq-iosched.c:3462-3470 | a context that moves one link on gives up exactly the queue it leaves |
| `CfqMerging.LeaveInv` | linux-2.6.34.7/block/cfq-iosched.c:2515-2546 | a context that exits or is split off gives up its whole chain and no queue another context reaches is freed |
| `CfqMerging.PutRequestInv` | linux-2.6.34.7/block/cfq-iosched.c:3442-3459 | releasing a request finds its counter positive and keeps the counts |
| `CfqMerging.ChainUnique` | linux-2.6.34.7/block/cfq-iosched.c:1940-1945 | the chain from a queue is determined by the links |
| `CfqMerging.ChainDistinct` | linux-2.6.34.7/block/cfq-iosched.c:2524-2533 | a chain that ends has no queue twice, so the loop warning never fires |
| `CfqMerging.SelfMergeLoops` | linux-2.6.34.7/block/cfq-iosched.c:1928-1968 | merging a queue with itself, which the caller rules out, would make a loop that no walk leaves |
| `CfqMerging.StaleLinkHappens` | linux-2.6.34.7/block/cfq-iosched.c:1933-1939 | a run after which a queue without process references holds a link to a freed queue |
| `CfqScheduler.CfqData.PutQueue` | linux-2.6.34.7/block/cfq-iosched.c:2402-2428 | drops one reference and frees the queue with the last, when it holds no request |
| `CfqScheduler.CfqData.PutCooperator` | linux-2.6.34.7/block/cfq-iosched.c:2515-2534 | the walk drops one reference of every later queue of the chain and touches only live queues |
| `CfqScheduler.CfqData.LeaveQueue` | linux-2.6.34.7/block/cfq-iosched.c:2536-2546 | equals the specified leaving and keeps the counts sound |
| `CfqScheduler.CfqData.SetupMerge` | linux-2.6.34.7/block/cfq-iosched.c:1928-1968 | the walk to the chain's end ends and the links and counts are as specified |
| `CfqScheduler.CfqData.PrepareQueue` | linux-2.6.34.7/block/cfq-iosched.c:3477-3540 | new queue, split or merge as specified |
| `CfqScheduler.CfqData.SetRequest` | linux-2.6.34.7/block/cfq-iosched.c:3497-3547 | charging a request is the specified step |
| `CfqScheduler.CfqData.PutRequest` | linux-2.6.34.7/block/cfq-iosched.c:3442-3459 | releasing a request is the specified step |
| `Deadline.MoveInv` | linux-2.6.34.7/block/deadline-iosched.c:207-222 | moving a request to the dispatch queue keeps tree and FIFO equal, keys unique, at most one next request, and the count |
| `Deadline.ClearedIndexed` | linux-2.6.34.7/block/deadline-iosched.c:77-84 | after at most one alias has been moved away no request of the tree is at the sector |
| `Deadline.AddInv` | linux-2.6.34.7/block/deadline-iosched.c:101-113 | an arrival keeps the invariant, also when it pushes an alias out |
| `Deadline.AddIndexed` | linux-2.6.34.7/block/deadline-iosched.c:101-113 | and loses no request: each is pending or dispatched |
| `Deadline.FrontMergeInv` | linux-2.6.34.7/block/deadline-iosched.c:156-168 | repositioning after a front merge keeps it |
| `Deadline.FrontMergeIndexed` | linux-2.6.34.7/block/deadline-iosched.c:156-168 | and loses no request |
| `DeadlineDispatch.MergeInv` | linux-2.6.34.7/block/deadline-iosched.c:171-189 | a request merge removes exactly the second request from both indexes |
| `DeadlineDispatch.DispatchTakesOne` | linux-2.6.34.7/block/deadline-iosched.c:245-327 | one call moves exactly one pending request, and none if and only if none is pending |
| `DeadlineDispatch.BatchAscends` | linux-2.6.34.7/block/deadline-iosched.c:207-222 | after every dispatch the batch can only go on in its direction, with the nearest request above the one just dispatched |
| `DeadlineDispatch.HeadExpiresFirst` | linux-2.6.34.7/block/deadline-iosched.c:228-239 | with FIFOs in order, the head of one has expired if and only if some request of the direction has |
| `DeadlineDispatch.ExpiredGoesFirst` | linux-2.6.34.7/block/deadline-iosched.c:298-315 | a new batch in a direction with an expired request starts with the earliest deadline |
| `DeadlineDispatch.RunInv` | linux-2.6.34.7/block/deadline-iosched.c:76-327 | every run of arrivals, merges and dispatches keeps the invariant |
| `DeadlineDispatch.RunExpiring` | linux-2.6.34.7/block/deadline-iosched.c:101-189 | if arrivals expire in order, both FIFOs stay in order of expiry through alias moves and both kinds of merges |
| `DeadlineDispatch.WritesNotStarved` | linux-2.6.34.7/block/deadline-iosched.c:206-327 | while a write waits, at most (writes_starved + 1) * max(fifo_batch, 1) calls in a row choose reads, whatever arrives and is merged in between |
| `DeadlineDispatch.CreditSpent` | linux-2.6.34.7/block/deadline-iosched.c:245-327 | the calls that choose reads are bounded by the credit left in the current batch and starvation count |
| `DeadlineDispatch.DrainEmpties` | linux-2.6.34.7/block/elevator.c:559-571 | draining leaves nr_sorted at zero and every pending request once in the dispatch queue, each call reading the clock for itself |
| `DeadlineScheduler.DeadlineData.constructor` | linux-2.6.34.7/block/deadline-iosched.c:350-368 | an empty scheduler |
| `DeadlineScheduler.DeadlineData.RbAdd` | linux-2.6.34.7/block/elevator.c:354-375 | the search returns the request at the same sector or links the new one in order |
| `DeadlineScheduler.DeadlineData.AddRqRb` | linux-2.6.34.7/block/deadline-iosched.c:77-84 | the alias loop ends after one body at most and the tree is as specified |
| `DeadlineScheduler.DeadlineData.MoveRequest` | linux-2.6.34.7/block/deadline-iosched.c:207-222 | equals the specified move |
| `DeadlineScheduler.DeadlineData.AddRequest` | linux-2.6.34.7/block/deadline-iosched.c:101-113 | equals the specified arrival |
| `DeadlineScheduler.DeadlineData.MergedRequest` | linux-2.6.34.7/block/deadline-iosched.c:156-168 | equals the specified repositioning |
| `DeadlineScheduler.DeadlineData.MergedRequests` | linux-2.6.34.7/block/deadline-iosched.c:171-189 | moving behind the other request and deleting that one is the specified takeover |
| `DeadlineScheduler.DeadlineData.DispatchRequests` | linux-2.6.34.7/block/deadline-iosched.c:245-327 | equals the specified dispatch |
| `DeadlineScheduler.DeadlineData.DrainElevator` | linux-2.6.34.7/block/elevator.c:559-571 | the loop, reading the clock anew in every call, ends with nothing pending, so the warning is never due |
| `Look.TargetExists` | linux-2.6.34.7/block/look-iosched.c:96-114 | with requests pending the chosen direction always has one, so no null request is used |
| `Look.HigherIs` | linux-2.6.34.7/block/look-iosched.c:66-80 | the scan finds the first of the lowest requests at or above the head |
| `Look.LowerIs` | linux-2.6.34.7/block/look-iosched.c:82-92 | and the first of the highest at or below it |
| `Look.DrainServesAll` | linux-2.6.34.7/block/look-iosched.c:55-124 | draining dispatches every pending request exactly once, one per call |
| `Look.UpwardDrain` | linux-2.6.34.7/block/look-iosched.c:55-124 | starting upward, positions rise and then fall, with at most one turn |
| `Look.DownwardDrain` | linux-2.6.34.7/block/look-iosched.c:55-124 | starting downward, an opening descent is followed by rising and then falling positions, with at most two turns |
| `Look.DescentRisesIff` | linux-2.6.34.7/block/look-iosched.c:109-114 | a descent steps back up if and only if a pending request starts within the bio just passed |
| `Look.OpeningMayRise` | linux-2.6.34.7/block/look-iosched.c:109-114 | which does happen in an opening descent |
| `Look.LookData.Scan` | linux-2.6.34.7/block/look-iosched.c:66-94 | the loop computes both scans |
| `Look.LookData.Dispatch` | linux-2.6.34.7/block/look-iosched.c:55-124 | one request leaves as specified, and none exactly if none is pending |
| `Look.LookData.AddRequest` | linux-2.6.34.7/block/look-iosched.c:135-142 | the request is appended, head and direction stay |
| `Look.LookData.DrainAll` | linux-2.6.34.7/block/elevator.c:559-571 | the drain loop sends out exactly the specified sequence |
| `MergeHash.FindAgrees` | linux-2.6.34.7/block/elevator.c:328-348 | a lookup finds a request if and only if some request in the scheduler that may be merged ends at the sector, and the lazy removals keep that true |
| `MergeHash.EnterInv` | linux-2.6.34.7/block/elevator.c:635-643 | insertion keeps every mergeable request in the list of its end sector and last_merge in the scheduler |
| `MergeHash.LeaveInv` | linux-2.6.34.7/block/elevator.c:417-420 | dispatching does |
| `MergeHash.BackMergeInv` | linux-2.6.34.7/block/elevator.c:514-525 | a back merge does, by repositioning |
| `MergeHash.FrontMergeInv` | linux-2.6.34.7/block/elevator.c:514-525 | a front merge does without, because the end stays |
| `MergeHash.AbsorbInv` | linux-2.6.34.7/block/elevator.c:527-540 | a request merge does, for both requests |
| `MergeHash.RefuseInv` | linux-2.6.34.7/block/blk-merge.c:234-239 | a refused merge does: the cache is cleared and the hash learns of it at the next lookup |
| `MergeHash.Walk` | linux-2.6.34.7/block/elevator.c:335-345 | the list walk returns the first match and what it keeps of the list |
| `MergeHash.Elevator.Find` | linux-2.6.34.7/block/elevator.c:328-348 | found if and only if a plain scan of the scheduler finds one |
| `MergeHash.Elevator.InsertSorted` | linux-2.6.34.7/block/elevator.c:635-643 | hash and cache after a sorted insertion |
| `MergeHash.Elevator.DispatchRequest` | linux-2.6.34.7/block/elevator.c:455-467 | hash and cache after dispatching |
| `MergeHash.Elevator.MergedBack` | linux-2.6.34.7/block/elevator.c:514-525 | hash and cache after a back merge |
| `MergeHash.Elevator.MergedFront` | linux-2.6.34.7/block/elevator.c:514-525 | hash and cache after a front merge |
| `MergeHash.Elevator.SetNoMerge` | linux-2.6.34.7/block/blk-merge.c:234-239 | request and cache after a refused merge |
| `MergeHash.Elevator.MergeRequests` | linux-2.6.34.7/block/elevator.c:527-540 | hash and cache after a request merge |
| `DispatchSort.SortKeeps` | linux-2.6.34.7/block/elevator.c:411-447 | a sorted insertion keeps the part behind a started head in cyclic order from end_sector, loses nothing and never passes the started head |
| `DispatchSort.PeekKeepsIff` | linux-2.6.34.7/block/blk-core.c:1784-1787 | moving the boundary behind the head keeps the order if and only if none or all of the others start inside the head |
| `DispatchSort.PeekKeeps` | linux-2.6.34.7/block/blk-core.c:1765-1787 | hence peeking keeps it when requests do not overlap |
| `DispatchSort.DequeueKeeps` | linux-2.6.34.7/block/blk-core.c:1844-1860 | taking the started head off keeps it |
| `DispatchSort.OverlapBreaksOrder` | linux-2.6.34.7/block/blk-core.c:1784-1787 | an overlapping queue whose order a peek breaks |
| `DispatchSort.FindSpot` | linux-2.6.34.7/block/elevator.c:424-446 | the backward list walk stops where specified |
| `DispatchSort.DispatchQueue.DispatchSorted` | linux-2.6.34.7/block/elevator.c:411-447 | equals the specified insertion |
| `DispatchSort.DispatchQueue.PeekHead` | linux-2.6.34.7/block/blk-core.c:1765-1787 | the head is started and the boundary moves as specified |
| `DispatchSort.DispatchQueue.TakeHead` | linux-2.6.34.7/block/blk-core.c:1844-1860 | the head leaves, the rest stays |
| `SpawnRemoval.AllDone` | linux-2.6.34.7/crypto/algapi.c:132-171 | the walk ends with exactly the spawns that lead to the algorithm, each once, and the user lists of their instances are empty |
| `SpawnRemoval.PushOk` | linux-2.6.34.7/crypto/algapi.c:151-169 | moving a spawn to the stack keeps every spawn in one place and the stack a path to the algorithm |
| `SpawnRemoval.PopOk` | linux-2.6.34.7/crypto/algapi.c:85-106 | a spawn is done only when its instance has no users left |
| `SpawnRemoval.NeverItself` | linux-2.6.34.7/crypto/algapi.c:156-160 | in an acyclic graph no spawn on the way belongs to the algorithm itself, so the BUG_ON never fires |
| `SpawnRemoval.OthersKeepUsers` | linux-2.6.34.7/crypto/algapi.c:132-179 | an algorithm that was not reached keeps its user list, order included |
| `SpawnRemoval.RestWellFormed` | linux-2.6.34.7/crypto/algapi.c:132-179 | what is left is a well-formed spawn graph |
| `SpawnRemoval.Registry.WalkSpawns` | linux-2.6.34.7/crypto/algapi.c:132-171 | the nested loops over the stack terminate with nothing left to visit |
| `SpawnRemoval.Registry.RemoveSpawn` | linux-2.6.34.7/crypto/algapi.c:108-130 | an instance without users is marked dead once and taken out of the lists |
| `SpawnRemoval.Registry.RemoveAll` | linux-2.6.34.7/crypto/algapi.c:173-178 | exactly the instances of the spawns that are done are marked |
| `SpawnRemoval.Registry.RemoveAlg` | linux-2.6.34.7/crypto/algapi.c:374-386 | an unlisted algorithm is refused; otherwise it and exactly the instances built on it are dead, those newly removed are listed once, and only their user lists change |
| `TagMap.StartGives` | linux-2.6.34.7/block/blk-tag.c:337-384 | a request gets a tag if and only if one below its limit is free, then the lowest, and the invariant is kept |
| `TagMap.EndFrees` | linux-2.6.34.7/block/blk-tag.c:282-316 | a live tag is below the real depth, its bit set and its slot the request's; ending frees exactly it |
| `TagMap.EndUndoesStart` | linux-2.6.34.7/block/blk-tag.c:282-384 | ending undoes starting |
| `TagMap.TagsDistinct` | linux-2.6.34.7/block/blk-tag.c:337-384 | live tags are distinct |
| `TagMap.ResizeKeepsIff` | linux-2.6.34.7/block/blk-tag.c:220-265 | every tag is kept and the map stays sound if and only if it is not grown or every live tag is below the clamped depth; the copy leaves the new arrays if and only if a grown map is deeper than twice nr_requests |
| `TagMap.LostTagStays` | linux-2.6.34.7/block/blk-tag.c:282-296 | a live tag without a place in the new map is not freed by ending its request |
| `TagMap.ShrunkByGrowing` | linux-2.6.34.7/block/blk-tag.c:220-265 | real depth 256, nr_requests 4, new depth 300 and tag 100 in use: the map has eight places afterwards |
| `TagMap.RunSoundIff` | linux-2.6.34.7/block/blk-tag.c:220-384 | over any run of starting, ending and resizing the map is sound after every step if and only if every resize has a place for the tags then in use |
| `TagMap.FixedLimitSound` | linux-2.6.34.7/block/blk-tag.c:108-138 | which is so in every run during which nr_requests does not change |
| `TagMap.QueueTags.constructor` | linux-2.6.34.7/block/blk-tag.c:108-157 | a new map of the clamped depth with no tag in use |
| `TagMap.QueueTags.FindFirstZero` | linux-2.6.34.7/block/blk-tag.c:367-372 | the search returns the first free tag |
| `TagMap.QueueTags.StartTag` | linux-2.6.34.7/block/blk-tag.c:337-384 | equals the specified start |
| `TagMap.QueueTags.EndTag` | linux-2.6.34.7/block/blk-tag.c:282-316 | equals the specified end |
| `TagMap.QueueTags.ResizeTags` | linux-2.6.34.7/block/blk-tag.c:220-265 | equals the specified resize, reports whether the copy left the new arrays and keeps the invariant if it did not |
| `Counter.CryptoInc` | linux-2.6.34.7/crypto/algapi.c:876-889 | for every length the big-endian number n becomes (n + 1) mod 256^size, through the word loop and the byte tail |
| `Counter.IncWord` | linux-2.6.34.7/crypto/algapi.c:880-886 | one turn of the word loop stops the carry in its word or passes it on |
| `Counter.IncByte` | linux-2.6.34.7/crypto/algapi.c:863-874 | the byte loop finishes a carry that has run through the bytes behind it |
| `Counter.CarryStops` | linux-2.6.34.7/crypto/algapi.c:863-889 | a carry through full bytes that stops in a number adds one to the whole |
| `Counter.CarryWraps` | linux-2.6.34.7/crypto/algapi.c:863-889 | a carry out of the top wraps to zero |

## Left out

- The order in which the device executes what a sequence ordered by tag gives it: that is the device's. The drains that empty barriers start on such queues are part of the model.
- Filesystem requests inserted at the front during a barrier sequence; the ordering claims do not hold for them.
- BarrierDraining.CanEndIff: for queues that order by tag it covers runs without flagged driver commands only, because there the colours decide which barriers a sequence holds back.
- Completion of bios without data, of discards and of requests that are not made of bios; `blk_update_request` is modelled for data-carrying bios.
- The drain buffer and DMA padding of `blk_rq_map_sg`, and the checks of `attempt_merge` on device, direction, integrity and scheduler policy, which only refuse merges.
- The Camellia key schedule and the entries of the s-boxes: subkeys and s-boxes are arbitrary. Big-endian loads and stores of the block are left out.
- CFQ beyond reference counts: slices, idling, service trees, think time, the cgroup change path, async queues, the out-of-memory queue and the retry after allocation.
- Dafny values stand for the linked nodes of lists, trees and hash chains; aliasing of nodes is not modelled beyond the link fields named above.
- Deadline statistics and the position of the head (`last_sector`), which nothing reads; the front-merge search of `deadline_merge`.
- Requests of another direction, discards and barriers in the dispatch queue, at which the sorted walk stops; `DispatchSort` has one direction.
- LOOK's former and latter request hooks, which nothing calls, and arrivals during a drain.
- `elv_merge` and `elv_try_merge`, which combine the cache and the hash with the checks above.
- Spawn replacement: `crypto_remove_spawns` with a new algorithm given. An instance whose template cannot be pinned counts as not hashed.
- Tag maps shared between queues, external maps without a clamp, and invalidating all tags.
- ioctl, sysfs, bsg, cgroup files, timeouts, the other ciphers and the crypto API's registration of types.
