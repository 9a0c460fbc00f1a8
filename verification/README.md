# NFVactor in Dafny

A model of the protocols and data structures of NFVactor, a packet-processing runtime that moves
flows between machines, with proofs about them. Packets are opaque values with a payload; clocks,
allocation, lost packets and refused sends are parameters of each step.

Five parts:

- **The reliable channel between runtimes.** `Packets`, `SendQueue`, `Framing`, `Endpoint` and
  `ReliableP2P` model one endpoint: the ring with its head, window and tail, cumulative acks,
  retransmission, connection loss, and multi-packet messages. `Channel` puts two endpoints on a
  network that loses, duplicates and reorders. `ChannelSafety` proves what every run keeps,
  `ChannelDrain` exactly when a queue can still be emptied, `ChannelTimer` when checks act and a
  connection is given up, `ChannelStamps` what a round-trip sample measures.
- **The lock-free ring.** `LLRing` runs any number of producers and consumers one shared access at
  a time over unbounded indices, `LLRingSafety` and `LLRingProgress` prove what every interleaving
  keeps, `LLRingCalls` what each call gets and returns, `LLRingZero` exactly when requests for nothing
  do harm, `RingIndex` relates this to 32-bit indices, masking and the unrolled copy loops.
- **The cuckoo hash table.** `HTable` holds the placement and free-list invariants, `CuckooTable`
  the class that refines a finite map.
- **Flow migration and replication.** `ServiceChain` is the chain of network functions,
  `FlowActor` the handlers, `FlowActorObject` the same as objects updated in place. `Migration` is
  the three-party state machine (source, target, switch), `MigrationArrivals` what arrives where,
  `MigrationSafety` the proofs, `MigrationRuns` a run that succeeds.
  `SourceRuntime` counts the migrations of a runtime. `Replication` is output through a replica.
- **The traffic-class scheduler.** `TrafficClass` says what each class caches, `PolicyStep` and
  `Joining` what each policy does on its own fields, `Tree` what the tree means, `Scheduler` the
  recursive operations and the run loop, `ClassRuns`, `ShareHeap` and `ShareRuns` runs of one class.
  `MinHeap` and `TimerList` are the sentinel heap and the timer lists.

Where a law does not hold of the code as written, the code is kept, a run breaks the law, and the law
is proved under a condition:

- a send queue can be drained if and only if the condition of `ChannelDrain.DrainsIff` holds;
  `SomeRunIsStuck` is a run after which it does not;
- an ack for queued packets is taken if and only if no number has wrapped
  (`SendQueue.GenuineAckTakenIff`); `LastNumberIsNeverAcked` leads there packet by packet;
- requests for zero items never take an index of the ring back if and only if the condition of
  `LLRingZero.TailsNeverGoBackIff` holds, with a run for every configuration where it does not;
- a key fits without growing if and only if an eviction path exists (`CuckooTable.CuckooTable.AddEntry`);
  `CuckooTable.NineAlike` fills a table with eight keys of one hash and is refused the ninth;
- counting migrations survives migrate_to if and only if none is in flight
  (`SourceRuntime.SourceRuntime.MigrateTo`); `SourceRuntime.MigrateToInFlight` breaks it;
- the route is restored unless the switch has created the flow anew, one way only: after that it may
  be anywhere, and `MigrationSafety.RelearnedFlowIsElsewhere` is a run where it is elsewhere.

Readings of the code that its comments do not give away:

- `make_space` always looks at the secondary bucket of a resident pair, since slots keep the primary
  hash; that no pair is misplaced depends on the path being at most three long.
- A rate limiter stores the clock before it takes the elapsed time, so it never gains tokens and
  throttles after every run that used anything.
- A leaf that loses its last task stays unblocked.
- `RateLimitTrafficClass` divides by its limit, so a limit of zero is excluded although a comment
  calls it unlimited; a weighted child needs a share above zero for the same reason.
- A leaf hands its accounting to its parent without asking whether there is one, so the root of a
  scheduler is an interior class. Attaching a class under one of its own descendants is not checked
  either; in the model every class has a rank, fixed when it is created, and hangs under higher ones.

History fields (packets logged, amounts charged, ids given out) are part of the model's state where
a property speaks about the past.

## Model

| member | source | states |
|---|---|---|
| `ChannelSafety.EveryRunIsSafe` | runtime/reliable/reliable_p2p.cc:48-140 | in every run of two endpoints over a network that loses, duplicates and reorders, connected or given up, what each side accepts is a prefix of what the other pushed, in order and once, its handlers saw exactly the messages complete in that prefix, and a connected sender still holds all the rest (fewer than 2^32 packets each way) |
| `ChannelSafety.EveryAckIsEarned` | runtime/reliable/base/reliable_send_queue.h:99-126 | in every run an ack that either side takes covers only packets that it has transmitted and the peer has accepted, and the new round-trip time is the time now less the time stamped for the newest of them, when the clock has not wrapped |
| `ChannelStamps.RoundTripIsMeasured` | runtime/reliable/base/reliable_send_queue.h:99-156 | in every run that time is what has passed since the window transmission, among the events of the run, that last put this packet on the network |
| `ChannelTimer.ChecksAreFiveRoundTripsApart` | runtime/reliable/reliable_p2p.cc:100-121 | in every run, for either side: a check does something if and only if more than five round-trip times have passed since the last that did, the first five times 20000 ns after the start; it gives the connection up if and only if it is the 5000th in a row to find the same packet at the head; else it goes back to the head exactly when that packet is still there |
| `ChannelTimer.GivingUpTakesItsTime` | runtime/reliable/reliable_p2p.cc:106-113 | in every run a side that gives the connection up has had no packet acknowledged for more than 25000 round-trip times |
| `ChannelTimer.EverySideIsAlone` | runtime/reliable/reliable_p2p.cc:48-140 | each side of a run of two endpoints is a run of one side, so the two above hold of it |
| `ChannelSafety.EveryArrivalIsReadable` | runtime/reliable/reliable_p2p.cc:69-98 | in every run, whatever frame arrives at either side, all that is read of it lies inside the packets: the first packet of a message holds its header, every packet of a completed batch where a tag or a count is looked for holds it, and the packets a tag speaks of are there |
| `ChannelSafety.StepKeepsInv` | runtime/reliable/reliable_p2p.cc:48-140 | every step of either endpoint and of the network keeps the invariant behind the safety theorem |
| `ChannelSafety.ExecKeepsInv` | runtime/reliable/reliable_p2p.cc:48-140 | so does every run |
| `ChannelSafety.WindowGenuine` | runtime/reliable/base/reliable_send_queue.h:128-156 | what a window transmission puts on the network are pushed packets under their own numbers |
| `ChannelSafety.AckKeeps` | runtime/reliable/base/reliable_send_queue.h:99-126 | taking an ack in flight keeps the sender and the link consistent |
| `ChannelSafety.DataKeeps` | runtime/reliable/reliable_p2p.cc:57-98 | taking or refusing a data frame in flight keeps the receiver and the link consistent |
| `ChannelSafety.CheckKeepsSending` | runtime/reliable/reliable_p2p.cc:100-121 | the retransmission timer keeps the sender consistent, also when it gives the connection up |
| `ChannelDrain.DrainsIff` | runtime/reliable/reliable_p2p.cc:57-121 | from every reachable connected state some loss-free schedule of check, resend and ack empties the send queue if and only if a condition on the fields of the two endpoints holds |
| `ChannelDrain.PlanDrains` | runtime/reliable/reliable_p2p.cc:100-121 | when the condition holds the plan of re-ack, resend, check ends with an empty queue |
| `ChannelDrain.StuckNeverDrains` | runtime/reliable/reliable_p2p.cc:100-121 | when it does not hold no schedule empties the queue |
| `ChannelDrain.LostAckRecovers` | runtime/reliable/reliable_p2p.cc:57-67 | the condition holds in particular when every packet arrived and the ack was lost, as long as 17 checks remain before the connection is given up: 17 mismatches force the ack again |
| `ChannelDrain.SomeRunIsStuck` | runtime/reliable/reliable_p2p.cc:106-113 | a run after which the condition fails: one packet, its ack lost, 4999 fruitless checks |
| `ChannelDrain.MoveIsRun` | runtime/reliable/reliable_p2p.cc:48-121 | each move of a schedule is a legal run of the two endpoints |
| `SendQueue.GenuineAckTakenIff` | runtime/reliable/base/reliable_send_queue.h:101 | an ack for packets in the queue is taken exactly when no number in the queue has wrapped: the comparison is not modular |
| `SendQueue.LastNumberIsNeverAcked` | runtime/reliable/base/reliable_send_queue.h:99-126 | when packets are pushed, transmitted and acknowledged one by one, the first whose ack is refused is the one numbered 2^32 - 1 |
| `SendQueue.PopInBounds` | runtime/reliable/base/reliable_send_queue.h:101-107 | an ack that is taken pops at least one and no more than the queued packets, so the assertion never fires |
| `SendQueue.ReliableSendQueue.constructor` | runtime/reliable/base/reliable_send_queue.h:30-49 | an empty queue |
| `SendQueue.ReliableSendQueue.Reset` | runtime/reliable/base/reliable_send_queue.h:51-68 | every queued packet goes to the collector in order, the queue is empty and numbered from 1 |
| `SendQueue.ReliableSendQueue.PushOne` | runtime/reliable/base/reliable_send_queue.h:70-86 | refused exactly when full; otherwise the queue grows by the packet under the next number |
| `SendQueue.ReliableSendQueue.PushBatch` | runtime/reliable/base/reliable_send_queue.h:88-97 | all packets of the batch in order, or none |
| `SendQueue.ReliableSendQueue.PopAcked` | runtime/reliable/base/reliable_send_queue.h:99-126 | exactly the acknowledged prefix goes to the collector, and the cursors stay in step with the sequence numbers |
| `SendQueue.ReliableSendQueue.GetWindowBatch` | runtime/reliable/base/reliable_send_queue.h:128-156 | copies of the packets from the window on, each stamped, as many as asked, pending and allocatable |
| `SendQueue.ReliableSendQueue.ResetWindowPos` | runtime/reliable/base/reliable_send_queue.h:158-164 | the window is back at the head; returns how many packets are to be sent again |
| `Framing.PrefixDelivers` | runtime/reliable/reliable_p2p.cc:69-98 | round trip: feeding any prefix of the packets of any messages to the receiver yields exactly the messages complete in it, with their headers and payloads |
| `Framing.FormatsBack` | runtime/reliable/base/reliable_message_misc.h:64-117 | the packets of one message, header taken off, are formatted back to the message |
| `Framing.HeaderRoundTrip` | runtime/reliable/base/reliable_message_misc.h:30-36 | a message header survives being written and read |
| `Framing.BytesRoundTrip` | runtime/reliable/base/reliable_message_misc.h:30-36 | little-endian fields survive being written and read |
| `Framing.NextIsReadable` | runtime/reliable/base/reliable_message_misc.h:64-117 | after any prefix of the packets of any messages, the next packet holds its header if it is a first one, and the tags of a batch it completes are where the formatting loop looks for them, inside the packets |
| `ReliableP2P.FormatBatch` | runtime/reliable/base/reliable_message_misc.h:64-117 | the formatting loop, reading only bytes that are there, computes the recursive definition of a message read from a batch |
| `ReliableP2P.ReliableP2P.constructor` | runtime/reliable/reliable_p2p.cc:5-46 | a fresh endpoint |
| `ReliableP2P.ReliableP2P.SendCStruct` | runtime/reliable/reliable_p2p.h:31-61 | refused when down or full, otherwise the message is queued as its encoding |
| `ReliableP2P.ReliableP2P.SendStates` | runtime/reliable/reliable_p2p.h:63-90 | refused when down or without room for the batch, otherwise queued as its encoding |
| `ReliableP2P.ReliableP2P.GetSendBatch` | runtime/reliable/reliable_p2p.h:134-136 | a window transmission of the endpoint |
| `ReliableP2P.ReliableP2P.GetAckPkt` | runtime/reliable/reliable_p2p.h:138-159 | an ack for the next expected number exactly when it has not been acked, or must be again |
| `ReliableP2P.ReliableP2P.Recv` | runtime/reliable/reliable_p2p.cc:48-98 | an ack pops, a frame out of turn counts towards the re-ack, the next frame is taken and completes a message or not |
| `ReliableP2P.ReliableP2P.CheckTimer` | runtime/reliable/reliable_p2p.cc:100-121 | a due check sets the next one five round-trip times ahead, and either goes back to the head, gives the connection up at the 5000th in a row, or starts counting again |
| `ReliableP2P.ReliableP2P.Reset` | runtime/reliable/reliable_p2p.cc:135-140 | both directions start over |
| `LLRingSafety.EveryRunIsSafe` | runtime/bessport/kmod/llring.h:386-712 | for any number of producers and consumers, every interleaving of their shared-memory accesses keeps cons.tail <= cons.head <= prod.tail <= prod.head <= cons.tail + mask, keeps reserved ranges apart, and hands out what was written to the places reserved, each once, in the order of reservation; requests for zero items are included wherever they are harmless |
| `LLRingCalls.EveryCallIsServed` | runtime/bessport/kmod/llring.h:386-712 | in every such run what is handed out is a prefix of what the calls were asked to put in, call by call: each enqueue has places for exactly the first items it was asked for, all of them if their number is fixed, else as many as there was room for, or has added nothing; each dequeue likewise; and the value returned says which, and whether the watermark is exceeded |
| `LLRingSafety.StepKeepsInv` | runtime/bessport/kmod/llring.h:386-712 | every access of every thread keeps the invariant |
| `LLRingSafety.ReserveKeeps` | runtime/bessport/kmod/llring.h:398-430 | a successful compare-and-set of prod.head reserves places no one else holds |
| `LLRingSafety.CopyKeeps` | runtime/bessport/kmod/llring.h:301-330 | copying one item into a reserved place disturbs no other place |
| `LLRingSafety.PublishKeeps` | runtime/bessport/kmod/llring.h:448-455 | publication happens in the order of reservation |
| `LLRingSafety.ClaimKeeps` | runtime/bessport/kmod/llring.h:578-609 | a successful compare-and-set of cons.head claims published items no one else has |
| `LLRingSafety.FetchKeeps` | runtime/bessport/kmod/llring.h:332-358 | what is read from a claimed place is the item published there |
| `LLRingSafety.FinishKeeps` | runtime/bessport/kmod/llring.h:611-625 | a finished claim delivers its items in order and frees the places |
| `LLRingZero.TailsNeverGoBackIff` | runtime/bessport/kmod/llring.h:386-626 | with requests for zero items allowed, no run takes prod.tail or cons.tail back if and only if the ring has no place, or there is at most one producer and, if there is one, at most one consumer |
| `LLRingZero.EmptyEnqueueTakesTailBack` | runtime/bessport/kmod/llring.h:386-457 | on every multi-producer ring with a place and two producers, a run in which one enqueue of nothing takes prod.tail back |
| `LLRingZero.EmptyDequeueTakesTailBack` | runtime/bessport/kmod/llring.h:567-626 | likewise for every multi-consumer ring, a dequeue of nothing and cons.tail |
| `LLRingProgress.SomeoneCanFinish` | runtime/bessport/kmod/llring.h:448-455 | in every reachable state, if anything is reserved and not published, some producer, running alone, moves prod.tail on in finitely many steps; likewise a consumer and cons.tail: the spinning threads never all wait for each other |
| `LLRingProgress.CopyRun` | runtime/bessport/kmod/llring.h:301-330 | the one-slot copy steps of a producer, taken together, leave the ring that the unrolled copy writes |
| `LLRingProgress.FetchRun` | runtime/bessport/kmod/llring.h:332-358 | the one-slot fetch steps of a consumer, taken together, read what the unrolled copy reads |
| `RingIndex.WrappedSubtraction` | runtime/bessport/kmod/llring.h:403-409 | 32-bit subtraction of wrapped indices gives the true free and used counts |
| `RingIndex.WrappedCompare` | runtime/bessport/kmod/llring.h:427-430 | wrapped indices are equal exactly when the true ones are, within one turn of 2^32 |
| `RingIndex.WrappedSlot` | runtime/bessport/kmod/llring.h:301-358 | masking a wrapped index gives the slot of the true one |
| `RingIndex.EnqueuePtrs` | runtime/bessport/kmod/llring.h:301-330 | the unrolled, possibly wrapping copy in puts each item at its place and touches no other |
| `RingIndex.DequeuePtrs` | runtime/bessport/kmod/llring.h:332-358 | the unrolled, possibly wrapping copy out reads each item from its place |
| `RingIndex.GetAfterPut` | runtime/bessport/kmod/llring.h:301-358 | copy out undoes copy in |
| `CuckooTable.CuckooTable.Set` | runtime/bessport/utils/htable.cc:464-490 | refines map update: returns 1 exactly when the key was there, on success the map is updated, on failure it is unchanged; succeeds without growing when a slot of either bucket is free or can be freed by evictions at most three deep, and, when the buckets cannot be doubled any more, exactly then |
| `CuckooTable.CuckooTable.Get` | runtime/bessport/utils/htable.cc:385-404 | refines map lookup |
| `CuckooTable.CuckooTable.Count` | runtime/bessport/utils/htable.cc:530-532 | the number of keys |
| `CuckooTable.CuckooTable.Del` | runtime/bessport/utils/htable.cc:492-506 | refines map removal; -ENOENT exactly when the key is absent |
| `CuckooTable.CuckooTable.Clear` | runtime/bessport/utils/htable.cc:376-383 | the empty map |
| `CuckooTable.CuckooTable.Iterate` | runtime/bessport/utils/htable.cc:508-528 | visits slots in order: the next key at or after the position, none left out |
| `CuckooTable.CuckooTable.DelAndIterate` | runtime/bessport/utils/htable.cc:376-383 | deleting the key just visited and going on visits every key that remains |
| `CuckooTable.CuckooTable.MakeSpace` | runtime/bessport/utils/htable.cc:128-167 | recursive eviction, even when its path revisits a bucket: succeeds exactly when some path within the depth leads to a free slot, fails and leaves the table unchanged otherwise; on success a slot of the requested bucket is free, the multiset of pairs is kept and every pair is in a bucket of its own |
| `CuckooTable.CuckooTable.Evict` | runtime/bessport/utils/htable.cc:136-164 | one branch of it |
| `CuckooTable.CuckooTable.FindEmptySlot` | runtime/bessport/utils/htable.cc:115-126 | a free slot, or -ENOSPC exactly when there is none |
| `CuckooTable.CuckooTable.AddEntry` | runtime/bessport/utils/htable.cc:193-221 | adds the key exactly when a slot of its two buckets is free or can be freed, else leaves the map unchanged; the jump back happens at most once, since after an eviction a slot is free |
| `CuckooTable.CuckooTable.SecondRound` | runtime/bessport/utils/htable.cc:193-221 | the second pass of the loop, after which there is no third |
| `CuckooTable.CuckooTable.PopFree` | runtime/bessport/utils/htable.cc:97-112 | a free index, growing the entry array when there is none; used and free indices never overlap |
| `CuckooTable.CuckooTable.PushFree` | runtime/bessport/utils/htable.cc:55-60 | an index that is not in use goes to the head of the free list |
| `CuckooTable.CuckooTable.ExpandEntries` | runtime/bessport/utils/htable.cc:72-91 | the entry array grows and its new indices are free |
| `CuckooTable.CuckooTable.CloneInto` | runtime/bessport/utils/htable.cc:406-447 | on success the copy holds the same map |
| `CuckooTable.CuckooTable.ExpandBuckets` | runtime/bessport/utils/htable.cc:449-462 | at least twice the buckets and the same map, or nothing changed |
| `CuckooTable.InitEx` | runtime/bessport/utils/htable.cc:271-336 | an empty table exactly for a power of two of buckets, room for a bucket of entries and memory; -EINVAL exactly for bad parameters |
| `CuckooTable.SetNinth` | runtime/bessport/utils/htable.cc:464-490 | a ninth key of the same hash can never be added: growth cannot help |
| `CuckooTable.NineAlike` | runtime/bessport/utils/htable.cc:464-490 | a table that takes eight keys of one hash and refuses the ninth, whatever its memory |
| `HTable.AtMostEightShareAHash` | runtime/bessport/utils/htable.cc:193-221 | no table holds more than eight keys of the same hash |
| `HTable.MakeNonzero` | runtime/bessport/utils/htable.h:103-108 | a hash is never zero, the mark of a free slot |
| `HTable.MakeNonzeroIdempotent` | runtime/bessport/utils/htable.h:103-108 | a hash that is already marked is not changed, as the comment demands |
| `HTable.CuckooHashingOk` | runtime/bessport/utils/htable.h:103-121 | the two hashes pick buckets in range |
| `HTable.MoveKeepsPlaced` | runtime/bessport/utils/htable.cc:157-163 | moving a pair to a bucket of its own keeps every key stored once and in a bucket of its own |
| `Tree.FlagsAreRunnable` | runtime/bessport/traffic_class.cc:16-290 | in a tree whose classes cache the truth, the blocked flags are the recursive definition: a leaf has its flag down, a limiter is not throttled and its child can run, any other class has a child that can run |
| `Tree.UnblockedIff` | runtime/bessport/scheduler.h:102-118 | a class is unblocked exactly when some unblocked leaf under it has no throttled class on the way up |
| `Tree.FlagOfInterior` | runtime/bessport/traffic_class.cc:41-270 | one level of it |
| `TrafficClass.PickIsReady` | runtime/bessport/traffic_class.cc:37-39 | an unblocked class picks one of its unblocked children |
| `TrafficClass.PickIsBest` | runtime/bessport/traffic_class.cc:37-50 | at a priority class no unblocked child has a better priority than the one picked |
| `Scheduler.Scheduler.constructor` | runtime/bessport/scheduler.h:31-44 | a scheduler over a blocked root |
| `Scheduler.Scheduler.Create` | runtime/bessport/traffic_class.h:500-509 | a new class is blocked and outside the tree; everything cached stays true |
| `Scheduler.Scheduler.AddPriorityChild` | runtime/bessport/traffic_class.cc:16-35 | refused exactly for a child with a parent or a priority taken; otherwise the child is in order of priority and all caches are true again |
| `Scheduler.Scheduler.AddWeightedChild` | runtime/bessport/traffic_class.cc:81-102 | refused exactly for a child with a parent; otherwise hung with stride 2^20 / share and the pass of the top, queued or held by its flag, no other share changed, and all caches are true again |
| `Scheduler.Scheduler.AddRoundRobinChild` | runtime/bessport/traffic_class.cc:162-177 | refused exactly for a child with a parent; otherwise at the tail of the ready or the blocked list by its flag, and all caches are true again |
| `Scheduler.Scheduler.AddLimitedChild` | runtime/bessport/traffic_class.cc:234-245 | refused also when the limiter has a child |
| `Scheduler.Scheduler.AddTask` | runtime/bessport/traffic_class.cc:296-300 | the leaf is unblocked and its ancestors told |
| `Scheduler.Scheduler.RemoveTask` | runtime/bessport/traffic_class.cc:302-311 | the first occurrence goes, no flag changes |
| `Scheduler.Scheduler.UnblockTowardsRoot` | runtime/bessport/traffic_class.h:165-175 | called on a class some of whose children became unblocked, it lets exactly those leave its blocked list, makes every cache up to the root true again and changes no link, meter, leaf or lower class |
| `Scheduler.Scheduler.Account` | runtime/bessport/traffic_class.cc:52-290 | called for the picked child, it makes every cache true again, treats each class up to the root as its policy says and leaves the others alone |
| `Scheduler.Scheduler.FinishLeaf` | runtime/bessport/traffic_class.h:477-483 | the same from a leaf that has run |
| `Scheduler.Scheduler.ResumeThrottled` | runtime/bessport/scheduler.h:121-134 | every throttle that has expired is lifted, every other stays, all caches are true again |
| `Scheduler.Scheduler.Next` | runtime/bessport/scheduler.h:102-119 | returns a leaf exactly when some unblocked leaf under the root has no throttled class above it, and then such a leaf, reached by every class's own pick |
| `Scheduler.Scheduler.ScheduleOnce` | runtime/bessport/scheduler.h:56-93 | lifts expired throttles, runs a leaf that may run exactly when there is one, finishes the classes above it as their policies say and leaves all others alone, keeping the caches, the throttled queue and the limits |
| `Scheduler.Scheduler.Earliest` | runtime/bessport/scheduler.h:122-124 | the top of the throttled queue has the earliest expiration |
| `Scheduler.ChargeKeeps` | runtime/bessport/traffic_class.cc:258-290 | charging a class keeps every throttled class in the queue exactly once and nothing else in it |
| `PolicyStep.Recheck` | runtime/bessport/traffic_class.cc:41-270 | the class-specific part of unblocking: children no longer blocked leave the blocked list in order, those of a weighted class with pass zero |
| `PolicyStep.Finish` | runtime/bessport/traffic_class.cc:52-290 | the class-specific part of accounting: the picked child is given up if blocked, else charged or rotated |
| `PolicyStep.FinishWeighted` | runtime/bessport/traffic_class.cc:123-147 | the top child pays stride * usage / 1024, rounded down, into its pass and the queue is restored, or it is moved to the blocked list |
| `PolicyStep.FinishRoundRobin` | runtime/bessport/traffic_class.cc:197-219 | the next child is rotated, or moved to the blocked list, and the position wraps |
| `PolicyStep.FinishPriority` | runtime/bessport/traffic_class.cc:52-71 | the position moves past blocked children only |
| `PolicyStep.WakeShares` | runtime/bessport/traffic_class.cc:108-118 | the loop over the blocked list |
| `PolicyStep.WokenFromZero` | runtime/bessport/traffic_class.cc:108-118 | what leaves the blocked list are its children that sleep no more, with their strides and pass zero |
| `PolicyStep.SettleKeeps` | runtime/bessport/traffic_class.cc:258-284 | charging an unthrottled limiter keeps its bound, and throttles it exactly when it used anything, for as many whole units of time as the usage times 2^32 is worth at its limit |
| `ClassRuns.LimitIsKept` | runtime/bessport/traffic_class.cc:258-284 | a limiter run at t_0..t_k has charged before t_k at most limit * (t_k - t_0): the elapsed time is taken after the clock is stored, so no burst is ever let through |
| `ClassRuns.EveryChildOnce` | runtime/bessport/traffic_class.cc:197-213 | while no child of a round-robin class blocks or is added, n consecutive turns over n children pick each exactly once |
| `ShareRuns.ServiceFollowsShares` | runtime/bessport/traffic_class.cc:104-147 | while no child of a weighted class blocks, unblocks or is added, from equal passes: what any two children have used, each times its stride 2^20 / share, differs by at most the largest single turn and rounding, less than 1024 per turn |
| `ShareRuns.PassFollowsUsage` | runtime/bessport/traffic_class.cc:136-141 | the pass of a child grows by stride * usage / 1024, up to less than one per turn |
| `ShareHeap.PassesStayTogether` | runtime/bessport/traffic_class.cc:104-147 | in such a stretch all passes stay within the largest single increase of each other |
| `ShareHeap.AccountKeepsWithin` | runtime/bessport/traffic_class.cc:136-141 | one accounting step of it |
| `ShareHeap.DecreaseKeyTop` | runtime/bessport/utils/extended_priority_queue.h:22-51 | restores the heap over the same children whatever the new key of the top |
| `ShareHeap.TopIsLeast` | runtime/bessport/utils/extended_priority_queue.h:13-16 | the top of the heap has the least pass |
| `Joining.JoinPriority` | runtime/bessport/traffic_class.cc:28-30 | the new child is inserted in order of priority |
| `Joining.JoinWeighted` | runtime/bessport/traffic_class.cc:87-99 | stride 2^20 / share, the pass of the top, queued or held by the child's flag |
| `Joining.JoinKeepsWithin` | runtime/bessport/traffic_class.cc:87-99 | a child that joins does not spread the passes |
| `Joining.JoinRoundRobin` | runtime/bessport/traffic_class.cc:168-172 | at the tail of the ready or the blocked list by the child's flag |
| `Joining.InsertSorted` | runtime/bessport/utils/common.h:192-204 | inserts one element into a sorted vector by swapping it down from the back |
| `MinHeap.Heap.constructor` | runtime/bessport/utils/minheap.cc:5-23 | an empty heap, sentinels in place |
| `MinHeap.Heap.Grow` | runtime/bessport/utils/minheap.cc:30-42 | half as much again, same contents, the new places sealed |
| `MinHeap.Heap.Push` | runtime/bessport/utils/minheap.h:22-46 | one entry more; the unchecked loop stops at the bottom sentinel |
| `MinHeap.Heap.Replace` | runtime/bessport/utils/minheap.h:60-83 | equals pop followed by push; the unchecked loop stops at a top sentinel within bounds |
| `MinHeap.Heap.Pop` | runtime/bessport/utils/minheap.h:85-108 | the least entry goes |
| `MinHeap.Heap.Peek` | runtime/bessport/utils/minheap.h:48-57 | the least entry, or null when empty |
| `MigrationSafety.RouteIsRestored` | runtime/actor/flow_actor.cc:461-529 | in every run, with timeouts, retries, refused sends and late answers in any order: when the source leaves failure processing on the answer it waits for, whatever it says, and the switch has not since created the flow anew, the route of the flow, if the switch has one, is back at the source |
| `MigrationSafety.RelearnedFlowIsElsewhere` | runtime/actor/coordinator.cc:179-210 | without that condition it need not be: a run in which the switch forgets the flow and learns it anew with another route |
| `MigrationSafety.CalmRunsHandOver` | runtime/actor/flow_actor.cc:505-635 | in every run without timeouts, whatever sends are refused, the state a target has installed is the fold over every packet event at the source outside the hand-over, at any later time too, and then every packet event at the target but for those without room while it waited, in order of arrival |
| `MigrationSafety.TargetsExtendTheFold` | runtime/actor/flow_actor.cc:334-366 | in every run, with timeouts too, the source holds the fold over every packet event outside the hand-over, and an installed state is the fold over exactly what the source had processed when it sent it, then every packet event at the target but for those without room while it waited, in order of arrival; a waiting target holds those packets |
| `MigrationArrivals.HistoryIsArrivals` | runtime/actor/flow_actor.cc:334-373 | the recorded history of the source and of every target is what the events of the run say came to them |
| `MigrationSafety.MovedIsComplete` | runtime/actor/flow_actor.cc:645-669 | when the source learns that its flow has moved, the chosen target's state covers every packet event at the source outside the hand-over and then those at the target |
| `MigrationRuns.EveryFlowCanMove` | runtime/actor/flow_actor.cc:375-669 | from every state with the flow at the source, known to the switch and nothing on its way, some run moves it: routed to a new target actor that has the source's state |
| `MigrationSafety.TimersMatch` | runtime/actor/flow_actor.cc:430-458 | in every run an actor is migrating exactly while its timer is armed, and an answer that matches the timer is an answer to what the timer waits for |
| `MigrationSafety.StepKeepsInv` | runtime/actor/flow_actor.cc:334-669 | every step of the three parties keeps the invariant |
| `MigrationSafety.HearSwitchOk` | runtime/actor/flow_actor.cc:505-568 | what the route answer may do to timers, ids and routes |
| `MigrationSafety.HearTargetOk` | runtime/actor/flow_actor.cc:430-458 | what the target's answers may do to them |
| `MigrationSafety.TimeoutOk` | runtime/actor/flow_actor.cc:461-503 | what timeouts may do to them |
| `MigrationSafety.ServeKeepsRouting` | runtime/actor/coordinator.cc:179-210 | serving a route request keeps requests in order and the route as last served |
| `MigrationSafety.InstallKeepsTargets` | runtime/actor/flow_actor.cc:571-635 | installing a state and draining the buffer keeps every target's state the fold it should be |
| `MigrationSafety.CreateKeepsState` | runtime/actor/coordinator.cc:132-177 | a new target actor has received nothing |
| `ServiceChain.Process` | runtime/actor/flow_actor.cc:334-345 | the processing loop, in place, is the recursive chain that stops at the first rejection |
| `ServiceChain.RunIsChained` | runtime/actor/flow_actor.cc:334-345 | function i of the chain is given what function i - 1 made of the packet exactly when none before it rejected the packet; those after the first rejection keep their states |
| `ServiceChain.Drain` | runtime/actor/flow_actor.cc:605-634 | the drain loop folds the chain over the buffer in order and sends on what the chain keeps |
| `ServiceChain.FoldSplit` | runtime/actor/flow_actor.cc:571-635 | folding a run of packets in two parts is folding it at once |
| `FlowActorObject.SourceActor.constructor` | runtime/actor/flow_actor.cc:7-85 | a new actor: normal, no timer, the initial state |
| `FlowActorObject.SourceActor.StartMigration` | runtime/actor/flow_actor.cc:375-411 | keeps the invariant of an actor (the timer stays armed exactly while migrating and for what the phase waits for, the state stays the fold over the packets processed, and ended migrations are counted); refused and counted with a replica, else waits for the answer to a request of its own |
| `FlowActorObject.SourceActor.StartMigrationTimeout` | runtime/actor/flow_actor.cc:413-428 | keeps the invariant; the migration ends, counted as failed |
| `FlowActorObject.SourceActor.StartMigrationResponse` | runtime/actor/flow_actor.cc:430-458 | keeps the invariant for any answer of this kind; a late one changes nothing, a matching one makes the actor wait for the switch, its last route request being for the target |
| `FlowActorObject.SourceActor.ChangeRouteTimeout` | runtime/actor/flow_actor.cc:461-503 | keeps the invariant; ends as failed when the connection is down, else the last route request is for the source |
| `FlowActorObject.SourceActor.ChangeRouteResponse` | runtime/actor/flow_actor.cc:505-568 | keeps the invariant for any answer of this kind; failure processing and a refused route end as failed, else the state sent is the fold over every packet processed, and if it is refused the route is asked back |
| `FlowActorObject.SourceActor.MigrateStateTimeout` | runtime/actor/flow_actor.cc:638-643 | keeps the invariant; the last route request is for the source |
| `FlowActorObject.SourceActor.MigrateStateResponse` | runtime/actor/flow_actor.cc:645-669 | keeps the invariant for any answer of this kind; a matching one ends the migration as successful with no packet processed since the state was sent |
| `FlowActorObject.SourceActor.OnPacket` | runtime/actor/flow_actor.cc:334-372 | the chain run in place is the fold extended by the packet, except after the route change, when nothing is processed; keeps the invariant |
| `FlowActorObject.TargetActor.OnPacket` | runtime/actor/flow_actor.cc:352-366 | while waiting the packet is appended to the buffer exactly when there is room; later the state is the fold extended by it, and it goes out as the chain leaves it |
| `FlowActorObject.TargetActor.OnMigrate` | runtime/actor/flow_actor.cc:571-635 | the state is installed, then the buffer is processed in order |
| `SourceRuntime.SourceRuntime.MigrateTo` | runtime/module/handle_command.cc:141-156 | starts an iteration exactly when the quota is used up; the conservation law holds afterwards if and only if nothing was in flight |
| `SourceRuntime.MigrateToInFlight` | runtime/module/handle_command.cc:141-156 | a run that breaks it: one flow is migrating and the runtime counts none |
| `SourceRuntime.SourceRuntime.RunTask` | runtime/module/coordinator_mp.cc:68-85 | starts up to 32 migrations, fewer only when the quota is used up or more than 256 are in flight; quota + outgoing + successful + failed + null stays the total, outgoing stays the number of migrating actors, at most 257 |
| `SourceRuntime.SourceRuntime.StartOne` | runtime/module/coordinator_mp.cc:73-84 | the head of the active list starts migrating, or goes to the tail if it has a replica |
| `SourceRuntime.SourceRuntime.Completed` | runtime/module/coordinator_mp.cc:109-112 | the completion test holds exactly when nothing is left to do and no actor is migrating |
| `SourceRuntime.SourceRuntime.OnTimeout` | runtime/actor/flow_actor.cc:413-503 | a timeout either gives up, counted as failed, or leads to failure processing |
| `SourceRuntime.SourceRuntime.OnStarted` | runtime/actor/flow_actor.cc:430-458 | any answer keeps the law; one that does not match changes nothing |
| `SourceRuntime.SourceRuntime.OnRouteSet` | runtime/actor/flow_actor.cc:505-568 | any answer keeps the law; one that does not match changes nothing |
| `SourceRuntime.SourceRuntime.OnMigrated` | runtime/actor/flow_actor.cc:645-669 | a matching answer removes the actor and counts as successful; any other changes nothing |
| `SourceRuntime.SourceRuntime.CheckIdle` | runtime/actor/flow_actor.cc:192-237 | removes an idle actor exactly when it is not migrating |
| `SourceRuntime.SourceRuntime.NewFlow` | runtime/module/forward_ec_scheduler.cc:47-75 | a new actor is active and not migrating |
| `SourceRuntime.HandlersFit` | runtime/actor/flow_actor.cc:375-669 | every handler's effect on the actor fits what it tells the statistics, whatever the answer says |
| `Replication.ReleasedAfterCommit` | runtime/actor/flow_actor.cc:240-267 | output commit: in every run, an arriving copy is released exactly when there is a replica or one can be created, and then the state held is the primary's state just after that packet, later than any released before |
| `Replication.OutputIsCommitted` | runtime/actor/flow_actor.cc:278-332 | in every run the released packets are the primary's in its order, each with its own state; the copies released and on their way are exactly the packet events accepted while connected if and only if none arrived where nobody took it, and fewer by just those otherwise; the primary lets out itself exactly the packets from the one on at which it found the connection down |
| `Replication.NothingAcceptedIsLost` | runtime/reliable/process_reliable_msg.h:50-91 | without a take-over, and with room wherever a copy arrives, nothing accepted is lost |
| `Replication.ReplicaKeepsInv` | runtime/reliable/process_reliable_msg.h:50-91 | creating the replica on the first copy, or failing to, keeps the invariant |
| `Replication.PrimaryKeepsInv` | runtime/actor/flow_actor.cc:278-332 | sending, being refused or losing the connection keeps the invariant |
| `TimerList.Timers.AddRequest` | runtime/actor/actor_timer_list.h:16-25 | the timer is at the tail, both lists stay linked and sorted by expiry |
| `TimerList.Timers.AddIdle` | runtime/actor/actor_timer_list.h:16-25 | likewise on the idle list |
| `TimerList.Timers.Invalidate` | runtime/actor/actor_timer.h:43-46 | the timer leaves its list from wherever it stands, a timer on no list stays so, both lists stay linked and sorted |
| `TimerList.Timers.TimeoutOccur` | runtime/actor/actor_timer_list.h:27-35 | looking at the first timer only agrees with looking at every timer on the list |
| `TimerList.Timers.Init` | runtime/actor/actor_timer.h:33-38 | a timer linked to itself |
| `TimerList.AddTailIsRing` | runtime/utils/cdlist.h:86-113 | four pointer updates append to the ring |
| `TimerList.DelIsRing` | runtime/utils/cdlist.h:119-133 | four pointer updates take an item out of the middle of the ring |
| `TimerList.FirstDecides` | runtime/actor/actor_timer_list.h:27-35 | on a sorted list some timer has expired exactly when the first has |

## Left out

- The third `reliable_send` overload and `create_packet_sub_msg`: not called, and the split packet is not trimmed, so no round trip holds.
- The list of connections waiting to send (`send_reliable_msg.cc`): a transmission is any window request at any time.
- DPDK, memory pools, checksums, Ethernet and IP header bytes, RPC, ports and command-line flags: foreign code and plumbing.
- Sequence numbers beyond 2^32 packets on one connection: what goes wrong is stated by `SendQueue.GenuineAckTakenIff`.
- Memory ordering of the lock-free ring: accesses are sequentially consistent; statistics and the watermark return code do not affect the state.
- Key indices of the hash table are unbounded, so the 32-bit index type never overflows; growing the entry array always succeeds.
- CuckooTable.CuckooTable.Set: bucket memory is bounded by a parameter, beyond which allocation fails; without it growth need not end when nine keys share a hash. While the buckets can still be doubled, success is stated for a key that fits, and failure for a ninth key of one hash; whether a key that does not fit fits after growing depends on how the copy lays out all the others.
- The typed lookup template of `htable.h`: the same search as `GetHash`.
- LLRingSafety.EveryRunIsSafe: requests for zero items are excluded where they can take an index back, which `LLRingZero.TailsNeverGoBackIff` says exactly.
- ChannelSafety.EveryRunIsSafe: stated for fewer than 2^32 packets each way, because sequence comparisons are not modular.
- Which task of a leaf runs and what it uses: the usage of a turn is a parameter.
- Amplified usage (`usage << 32`) and passes are unbounded integers, so 64-bit overflow is not modelled; the conversion of limits from units per second is a parameter.
- Destruction of traffic classes, statistics, the name registry of traffic classes, and starvation freedom under round robin when children keep blocking.
- The two parallel arrays of the sentinel heap are one array of pairs, and the pointer fields of timers are maps from number to number.
- Ids of flow actors are never reused in the migration model, so a message for a removed actor finds nobody.
- A target runtime that is itself migrating flows away, and recovery of a failed primary's flows beyond the replica becoming a normal actor.
- Slots of network-function state after a migration, and the verdict on a packet in the normal path, which the output functions ignore.
- The firewall, load balancer, NAT and packet counter themselves: `nf_logic` is any deterministic function of packet and state.
