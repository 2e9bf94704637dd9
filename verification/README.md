# A verified model of the USP client's admission and delivery engine

The client buffers messages until the server acknowledges them, resends them after a reconnect, and
shares a byte budget with other clients of the same process. This project models that engine and proves
what it keeps, for all inputs, all reachable states and all interleavings of steps.

| files | what they model |
|---|---|
| `Words`, `Tables` | 64-bit words with wrap-around; totals and lists over tables |
| `BudgetSpec`, `BudgetShape`, `BudgetLaws`, `BudgetTheorems`, `BudgetRuns`, `BudgetEffects`, `BudgetShares`, `ReserveOrder` | the fair byte budget as a value: groups, waiters, the scheduler as any legal sequence of turns; its laws, what each operation moves, what is fair in plain arithmetic, and the order of turns inside the reserve |
| `GroupHeap`, `ByteBudget` | the budget as a class with its lists and index-tracking heap, refining `BudgetSpec` |
| `WindowSpec`, `WindowLaws`, `WindowRuns`, `WindowTheorems`, `FrameRuns` | the send window as a queue of slots; its laws, the history of every frame, and the results about one client |
| `ReleasedRing`, `ReceiptList`, `MessageArray`, `SlotTable`, `AckBuffer`, `Sender` | the send buffer as classes: ring, linked receipts with cursor, array, sizes and retired set, refining `WindowSpec`, and an attempt to add against a `ByteBudget` |
| `Clients`, `Attempts`, `WindowLedger`, `Escapes`, `Overshooting`, `ClientLedger`, `LedgerRuns`, `LedgerTheorems`, `EscapeLeak`, `UngroupedLedger`, `Wakeups`, `TinyPools`, `Spacing` | many clients, their blocked calls and one pool as a transition system: the byte ledger, the soft cap and its exact condition, lost wakeups, the spacing of requests |
| `Reconnects`, `Observations` | the reconnect and close protocol, and lock-free receipt observation, as transition systems over goroutines |

Conventions. A function or predicate of a `...Spec` module says what an operation means, and the class methods
are proved against it. Pointers to groups and waiters are indices into tables that only grow.
A wake channel is a counter: a channel taken at count k is closed once the counter exceeds k, and the channel
of a fair waiter is closed when the waiter is granted. Everything a goroutine does under a lock is one step.
Byte counters are unbounded naturals; sequence numbers are 64-bit words with explicit wrap-around.

Where the documentation and the code disagree, the model follows the code. README.md:62-68 and
ack_buffer.go:230-234 promise at most one overshooting message per client. The buffer has one place for an
escape, and a delivery reset that retires the last asking frame can let a second message overshoot while the
first is held; the first escape is then overwritten and never returned. `EscapeLeak.LostEscape` is a run in
which this happens. The exact conditions, over all runs: each client holds at most one overshooting message
all along if and only if no attempt overshoots while its client holds one (`Overshooting.OneOverIff`, any
budget), and the escapes of a fair pool are those its clients will return, and the pool is as empty as a new
one at the end, if and only if no attempt has overshot while its client remembered an escape
(`LedgerTheorems.EveryFairRunIff`). Everything else in the byte ledger holds in every run without a condition.
`Escapes.RestartAsksIff` says exactly which resets leave an overshooting message without a request, and
without transmission limits there are none (`Overshooting.UnlimitedRunsOnce`).

Acknowledgements are accepted exactly for delivered frames only until sequence numbers wrap;
`WindowTheorems.AckAppliedIff` holds for all numbers.

## Model

| member | source | states |
|---|---|---|
| `BudgetTheorems.QuietIff` | byte_budget.go:341-395 | a pool is quiet (nobody waits, or the cap is reached, or only the reserve is left and every waiting group is beyond its share) exactly if the scheduler has no turn to give |
| `BudgetTheorems.ReservedKeeps` | byte_budget.go:413-469 | work conservation: every reservation (grant consumed, forced escape, immediate charge, enqueue) leaves a pool with all its laws quiet, also when escapes were lost and used minus escape wraps |
| `BudgetTheorems.CancelledKeeps` | byte_budget.go:471-479 | so does giving up a waiter, whose credits are handed on |
| `BudgetTheorems.ReleasedKeeps` | byte_budget.go:481-500 | so does returning bytes |
| `BudgetTheorems.RegisteredKeeps` | byte_budget.go:130-146 | so does registering a client by name |
| `BudgetTheorems.UnregisteredKeeps` | byte_budget.go:147-163 | so does unregistering one; the last holder frees the name |
| `BudgetLaws.EventKeepsInv` | byte_budget.go:189-500 | every event of a fair pool keeps its laws: totals are sums over groups, a group holds at least its waiters' credits, a name leads to its one referenced group, bytes exceed the total by at most the escapes, nobody is granted past an older waiter of its group |
| `BudgetTheorems.TurnProgress` | byte_budget.go:341-395 | a scheduler turn credits 1 byte to 64 KiB, within the cap and outside the reserve unless the group is within its share, and strictly reduces the outstanding bytes, so the scheduler terminates |
| `BudgetTheorems.FifoGrants` | byte_budget.go:362-394 | waiters of a group are granted in order of arrival, a granted one holds exactly its request, and only the oldest ungranted one holds a partial credit |
| `BudgetTheorems.GrantedWhenFull` | byte_budget.go:375-390 | over any scheduler run credits only grow, a closed wake stays closed, and a wake is closed exactly when the credit equals the request |
| `BudgetTheorems.NoBypass` | byte_budget.go:433-469 | when a request is admitted without force, every request of its group that came before it and has not left was granted in full |
| `BudgetTheorems.NeverBack` | byte_budget.go:336-395 | a group that keeps waiting never moves back in the round-robin list, and moves one place forward on every turn paid from room below the reserve that goes to another group |
| `BudgetTheorems.ServedInTurn` | byte_budget.go:336-395 | through any run of arrivals, departures, charges, refunds and turns, at most as many base turns go to others as there were groups in front of a waiting one |
| `BudgetRuns.OperationTurns` | byte_budget.go:413-500 | every public operation is a fixed series of events followed by legal turns of the scheduler |
| `BudgetRuns.ServedByOperations` | byte_budget.go:336-395 | over every run of public operations: while a group waits and gets no turn, at most as many base turns go to others as there were groups in front of it |
| `ReserveOrder.ReadyInTurn` | byte_budget.go:326-394 | round-robin inside the reserve: while a ready group waits within its share, at most as many turns from the reserve go to others as there are ready groups in front of it |
| `ReserveOrder.ReserveServedByOperations` | byte_budget.go:326-394 | the same over every run of public operations |
| `ReserveOrder.ServedIsLast` | byte_budget.go:387-393 | after a turn the credited group is last on the ready list, or off it if it outgrew its share |
| `ReserveOrder.ServeForward` | byte_budget.go:387-393 | a turn of another group never moves a group within its share back on the ready list, and moves it forward if it came from the reserve |
| `ReserveOrder.JoinsAtOnce` | byte_budget.go:315-325 | a group that came within its share is on the ready list from the next turn out of the reserve |
| `BudgetShares.AdmittedIff` | byte_budget.go:448-458 | exactly which requests without a waiter are admitted at once and which overshoot, with the share counted over the groups that hold bytes or wait |
| `BudgetShares.WaiterAdmittedIff` | byte_budget.go:433-458 | the same for a request with a waiter: admitted exactly if that was granted or by force |
| `BudgetShares.UngroupedIff` | byte_budget.go:417-431 | the same for an ungrouped pool, which only has a cap |
| `BudgetShares.AdmittedIsFair` | byte_budget.go:203-240 | a request admitted without force leaves the reserve untouched, or its group at most at its minimum or at its part of the total among the busy groups |
| `BudgetShares.TurnIsFair` | byte_budget.go:341-395 | and so does every scheduler turn |
| `BudgetShares.TurnIff` | byte_budget.go:341-361 | exactly who may get the next turn: the first in line while there is room below the reserve, afterwards whoever waits for what is fair to it |
| `BudgetShares.QuietMeans` | byte_budget.go:341-361 | exactly when the scheduler stops, in the same terms |
| `BudgetShares.TurnIsMaximal` | byte_budget.go:362-374 | a turn completes the request, or gives 64 KiB, or uses up the room it may use |
| `BudgetEffects.SettledEffect` | byte_budget.go:341-395 | the scheduler moves no byte between holders, finishes no waiter and takes back no grant |
| `BudgetEffects.ReservedEffect` | byte_budget.go:413-469 | a reservation gives its group exactly the request if admitted, as an escape exactly if it overshoots, and otherwise leaves exactly one waiter, its own |
| `BudgetEffects.CancelledEffect` | byte_budget.go:471-479 | a cancellation moves no held byte and finishes exactly its waiter |
| `BudgetEffects.ReleasedEffect` | byte_budget.go:481-500 | a release takes exactly the returned bytes and escape from its group |
| `BudgetEffects.RegisterEffect` | byte_budget.go:130-146 | registration refuses exactly the empty name, and otherwise leads to the one group of that name with one more holder |
| `BudgetEffects.EventKeepsInside` | byte_budget.go:241-273 | as long as an escape comes back with its bytes, a group keeps holding at least its escapes beside its waiters' credits |
| `GroupHeaps.GroupHeap.Swap` | byte_budget.go:89-89 | exchanges two slots and keeps every recorded index right |
| `GroupHeaps.GroupHeap.Push` | byte_budget.go:90-94 | adds a group and keeps the heap ordered by need, with exactly it added to the index |
| `GroupHeaps.GroupHeap.Remove` | byte_budget.go:289-290 | removes any slot of a heap that was ordered before that group's need changed, without reading the need of the group that leaves |
| `GroupHeaps.GroupHeap.Fix` | byte_budget.go:309-310 | restores the order after the need of one slot changed |
| `GroupHeaps.GroupHeap.Pop` | byte_budget.go:95-102 | returns the root and keeps order and index |
| `ByteBudgets.ByteBudget.constructor` | byte_budget.go:105-107 | an empty pool |
| `LedgerRuns.FairStart` | byte_budget.go:112-128 | a fair budget is refused exactly if its reserve is not smaller than its total (an unlimited one takes none), and otherwise starts with the whole ledger balanced, a reserve of an eighth by default and a minimum share of 256 bytes by default |
| `ByteBudgets.ByteBudget.RefreshLocked` | byte_budget.go:277-312 | the round-robin list holds a group exactly while it has waiters, and the group is then in exactly one of ready list and heap, in the ready list exactly within its share |
| `ByteBudgets.ByteBudget.NextReserveLocked` | byte_budget.go:315-334 | the lazy index refines a full scan: no group is returned exactly if no waiting group has need within its share, and otherwise the first one of the ready list that has, after exactly the groups that came within their share have joined it by need and those in front that outgrew it have left |
| `ByteBudgets.ByteBudget.PromoteLocked` | byte_budget.go:315-325 | heap heads within the share join the ready list by need, and afterwards every group left in the heap is beyond the share |
| `ByteBudgets.ByteBudget.FirstReadyLocked` | byte_budget.go:326-334 | the first ready group still within its share, stale ones going back to the heap |
| `ByteBudgets.ByteBudget.PickLocked` | byte_budget.go:341-361 | a group the specification lets the scheduler pick, or none exactly if the pool is quiet |
| `ByteBudgets.ByteBudget.CreditLocked` | byte_budget.go:362-394 | one turn is the specified credit, and moves the group to the back of both lists |
| `ByteBudgets.ByteBudget.ScheduleLocked` | byte_budget.go:341-395 | the loop ends in a quiet pool reached by legal turns, each to the first in line or, inside the reserve, to the first ready group within its share |
| `ByteBudgets.ByteBudget.RemoveWaiterLocked` | byte_budget.go:397-411 | a waiter leaves with its credits returned and its group's lists and index brought up to date |
| `ByteBudgets.ByteBudget.EnqueueLocked` | byte_budget.go:459-468 | a request joins its group's queue and keeps the group registered |
| `ByteBudgets.ByteBudget.FitsLocked` | byte_budget.go:226-240 | the admission test of the specification, with and without groups |
| `ByteBudgets.ByteBudget.ReserveFor` | byte_budget.go:413-469 | a reservation is one the specification allows, with its exact reply, and leads the ready list as specified |
| `ByteBudgets.ByteBudget.Cancel` | byte_budget.go:471-479 | so is a cancellation |
| `ByteBudgets.ByteBudget.ReleaseFor` | byte_budget.go:481-500 | so is a release, a broadcast for an ungrouped pool |
| `ByteBudgets.ByteBudget.Join` | byte_budget.go:130-146 | registration by name |
| `ByteBudgets.ByteBudget.Part` | byte_budget.go:147-163 | unregistration |
| `WindowLaws.AdmitKeeps` | ack_buffer.go:353-430 | an admission keeps the laws of the window: consecutive numbers, delivery inside, bytes equal the sizes held, receipts ordered inside the window with true cells, no spent frame to deliver, a live head |
| `WindowLaws.AckKeeps` | ack_buffer.go:432-478 | an acknowledgement keeps them |
| `WindowLaws.ResetKeeps` | ack_buffer.go:743-767 | a delivery reset keeps them, having retired what could not be sent again |
| `WindowLaws.NextExact` | ack_buffer.go:559-609 | in a lawful window the handoff-time fence never fires: the first live message is handed out and counted, nothing is retired, no byte moves |
| `WindowLaws.CloseKeeps` | ack_buffer.go:148-159 | Close keeps them and returns all bytes with the escape inside them |
| `WindowRuns.ApplyKeeps` | ack_buffer.go:353-819 | so does every operation |
| `WindowRuns.RunKeeps` | ack_buffer.go:353-819 | and every run of operations from a new buffer, together with the history of every frame |
| `WindowRuns.TransmissionLimit` | ack_buffer.go:559-609 | over any number of reconnects, acknowledgements, retirements and window changes a frame with a limit is handed out at most that often |
| `FrameRuns.RetiredAreSpent` | ack_buffer.go:751-758 | and only a frame that was handed out exactly that often is ever retired |
| `FrameRuns.ResetRetiresIff` | ack_buffer.go:743-767 | a delivery reset retires a live frame if and only if it has a limit and was handed out exactly that often; every other one is still held and live |
| `FrameRuns.HandoffExact` | ack_buffer.go:576-609 | what is handed out is the first live message from the delivery point on with its body and number, asking exactly if it does or is the last live one of a sealed window |
| `FrameRuns.HandoffIff` | ack_buffer.go:559-609 | a message is handed out exactly if a live one is left to deliver |
| `FrameRuns.HandedOutAsAdmitted` | ack_buffer.go:590-604 | over every run a frame is handed out, at first and again, with the body and the number it was admitted with, asking at least if it did then |
| `FrameRuns.DeliveredInOrder` | ack_buffer.go:559-609 | over every run: between two resets frames are handed out in the order of admission, each at most once and none passed over |
| `WindowRuns.EveryFrameAccounted` | ack_buffer.go:482-538 | every frame ever admitted is in exactly one of held-live, acknowledged and retired |
| `WindowRuns.ReceiptTruth` | receipt.go:163-189 | until receipts are detached a receipt reads acknowledged exactly if an applied acknowledgement covered its live frame, and retired exactly if its slot became a placeholder; afterwards it still claims nothing false |
| `WindowRuns.ReceiptFinal` | receipt.go:23-31 | acknowledged and retired never change again |
| `WindowTheorems.AckAppliedIff` | ack_buffer.go:432-472 | for all 64-bit numbers: which acknowledgements are applied, in one condition instead of the overlapping checks |
| `WindowTheorems.AckAppliedUnwrapped` | ack_buffer.go:432-472 | while held numbers have not wrapped, exactly those of held frames below max(delivery index, 1) |
| `WindowTheorems.AckRejectedAfterWrap` | ack_buffer.go:449-451 | in every wrapped window with a delivered first frame that is not the largest number, its acknowledgement is rejected |
| `WindowTheorems.AckRefusedUnwrapped` | ack_buffer.go:446-472 | why one is refused while held numbers have not wrapped: not handed out, or neither held nor remembered |
| `WindowTheorems.AckWithoutEffect` | ack_buffer.go:438-446 | a rejected acknowledgement changes nothing, and one is ignored exactly if its number is outside the window and remembered as released |
| `WindowTheorems.AckRemoves` | ack_buffer.go:473-538 | an applied acknowledgement removes exactly the frames up to its own and then the retired run behind them |
| `WindowRuns.RingIsLatest` | ack_buffer.go:691-718 | in every reachable window the ring is exactly the latest 64 numbers released without an acknowledgement, in order |
| `WindowRuns.DetachedCells` | receipt.go:190-194 | once receipts are detached from a closed buffer no operation changes a receipt again |
| `FrameRuns.AdmittedAsksIff` | ack_buffer.go:392-402 | an admitted message is stored as it came with the next number, and asks exactly if its caller wants it, its number is a multiple of half the window, it was forced, or enough bytes came since a request |
| `FrameRuns.AsksEveryInterval` | ack_buffer.go:394-396 | over every run: among any half a window of consecutive frames admitted at the same window size one asks, while numbers have not wrapped |
| `FrameRuns.IntervalAlways` | ack_buffer.go:815-818 | in every reachable window the interval is half the window size, and at least one |
| `WindowTheorems.FlagKept` | ack_buffer.go:392-402 | every operation keeps the last flagged number that of a held, live, flagged message, or passed, or cleared |
| `WindowTheorems.CapKept` | ack_buffer.go:360-375 | every operation keeps held bytes within MaxBytes plus the one message that asked last, also across retirements |
| `WindowTheorems.SpacingKept` | ack_buffer.go:370-402 | a step of a client keeps requests spaced by less than MaxBytes/16 once half of a cap of 16 or more is used, whatever the use of the shared pool |
| `WindowTheorems.ClientRun` | ack_buffer.go:331-402 | the cap, the held request and the spacing over every run of a client on any shared pool |
| `WindowTheorems.DrainedIff` | ack_buffer.go:164-176 | nothing live remains exactly if the window is empty, so retired frames never stall a drain |
| `WindowTheorems.LiveParts` | ack_buffer.go:542-557 | the live messages are those of slots that are not retired, each once and in order |
| `FrameRuns.FlowExact` | ack_buffer.go:791-819 | a new window size takes effect as it is, moves no message, and wakes producers exactly if it changed |
| `FrameRuns.StopsForGood` | ack_buffer.go:148-176 | sealing and closing stop admission for good, wake everybody and keep every message |
| `WindowTheorems.SealedTail` | ack_buffer.go:589-624 | once sealed, the handed-out message asks for an acknowledgement exactly if it did before or only retired slots follow, and the stored one is unchanged |
| `ReleasedRings.ReleasedRing.Add` | ack_buffer.go:702-709 | the ring forgets its oldest number when full |
| `ReleasedRings.ReleasedRing.Has` | ack_buffer.go:711-718 | membership in the remembered numbers |
| `ReceiptLists.ReceiptList.Append` | ack_buffer.go:403-417 | a node is linked at the tail and becomes the cursor if there was none |
| `ReceiptLists.ReceiptList.Drop` | receipt.go:171-189 | the entries of a removed prefix are unlinked, marked if acknowledged, and the cursor moves to the new head if it was among them |
| `ReceiptLists.ReceiptList.Step` | ack_buffer.go:571-575 | the cursor passes the entry of the slot to deliver |
| `ReceiptLists.ReceiptList.Forget` | receipt.go:190-194 | the list is dropped and cells keep their state |
| `MessageArrays.MessageArray.DropFront` | ack_buffer.go:504-508 | held messages move to the front and what they leave is cleared |
| `MessageArrays.MessageArray.Resize` | ack_buffer.go:777-783 | a new backing array with the same messages |
| `SlotTables.SlotTable.RemovePrefix` | ack_buffer.go:482-508 | the first slots leave with the charge that is still held for them, and only surviving retired numbers are kept |
| `SlotTables.SlotTable.Append` | ack_buffer.go:418-424 | the message takes the next free slot with its size |
| `SlotTables.SlotTable.Retire` | ack_buffer.go:630-652 | a slot becomes a placeholder that keeps its number and returns its charge |
| `SlotTables.SlotTable.GiveUp` | ack_buffer.go:207-213 | the whole charge is given up once |
| `SlotTables.SlotTable.RetiredHead` | ack_buffer.go:670-676 | the length of the retired run at the front |
| `SlotTables.SlotTable.OnlyRetiredAfterIndex` | ack_buffer.go:613-624 | whether every later slot is retired |
| `SlotTables.SlotTable.UnAcked` | ack_buffer.go:542-557 | exactly the live messages, in order |
| `SlotTables.SlotTable.LiveBounds` | ack_buffer.go:724-741 | the outermost live slots |
| `SlotTables.SlotTable.LiveSlots` | ack_buffer.go:181-182 | held count minus retired count is the number of live messages |
| `AckBuffers.AckBuffer.constructor` | ack_buffer.go:110-137 | a buffer with a window of one, ready for sequence number 1 |
| `AckBuffers.AckBuffer.RemovePrefix` | ack_buffer.go:482-538 | slots, charge, delivery index, availability and events after a prefix left |
| `AckBuffers.AckBuffer.ReleaseRetiredHead` | ack_buffer.go:666-689 | retired slots at the front leave, remembered and unacknowledged |
| `AckBuffers.AckBuffer.Check` | ack_buffer.go:438-472 | the checks of an acknowledgement in the source's order |
| `AckBuffers.AckBuffer.Ack` | ack_buffer.go:432-478 | the whole acknowledgement: verdict, new window, refunds |
| `AckBuffers.AckBuffer.RetireSlot` | ack_buffer.go:630-660 | retirement of one slot with its receipt and the held request |
| `AckBuffers.AckBuffer.StepCursor` | ack_buffer.go:567-575 | only the entry under the cursor can be that of the slot to deliver |
| `AckBuffers.AckBuffer.NextToDeliver` | ack_buffer.go:559-609 | the delivery loop hands out what the specification says and keeps the buffer lawful; its fence never fires, so it refunds nothing |
| `AckBuffers.AckBuffer.RetireAllSpent` | ack_buffer.go:751-758 | one pass over the linked receipts retires every spent live frame |
| `AckBuffers.AckBuffer.ResetDelivery` | ack_buffer.go:743-767 | the whole reset, with the delivery events |
| `AckBuffers.AckBuffer.UpdateCapacity` | ack_buffer.go:791-819 | a new window size, for growing, shrinking and zero windows |
| `AckBuffers.AckBuffer.SealAdmission` | client.go:298-306 | admission stops and everybody waiting is woken |
| `AckBuffers.AckBuffer.CloseSlots` | ack_buffer.go:148-159 | admission stops, the charge is given up, messages stay |
| `AckBuffers.AckBuffer.ForgetReceipts` | receipt.go:190-194 | the receipts are detached |
| `AckBuffers.AckBuffer.AdmitMessage` | ack_buffer.go:392-430 | number, request flag, receipt, slot, charge and events of an admitted message |
| `AckBuffers.AckBuffer.GetUnAcked` | ack_buffer.go:542-557 | the live messages |
| `AckBuffers.AckBuffer.DrainCheck` | ack_buffer.go:164-195 | a drain succeeds exactly on an empty buffer, and otherwise reports exactly the number of live messages with the numbers of the first and last of them, or waits for the next wake |
| `Senders.TryAdd` | ack_buffer.go:353-430 | one attempt to add against the shared budget: the local refusals, the reservation with or without force, the admitted window with its escape and pressure step, or the waiter that is kept; buffer and budget stay valid |
| `Senders.TryAddAlone` | ack_buffer.go:353-430 | the same without a shared budget, with or without a byte count |
| `Attempts.RefusedIff` | ack_buffer.go:353-369 | an attempt is refused before the budget is asked exactly if the count window is full, or the byte cap would be exceeded while the last request is one of a held message |
| `Attempts.RefusedMeans` | ack_buffer.go:331-342 | with room in the count window such a refusal means that a held live message asks |
| `Attempts.AttemptAsksIff` | ack_buffer.go:360-402 | what an admitted attempt stores, and exactly when it asks: wanted, by count, by cap, by overshoot, or by a sixteenth of a limit that is half used |
| `Senders.PayBack` | ack_buffer.go:486-503 | refunds reach the pool one by one, in order |
| `WindowLedger.RefundsExact` | ack_buffer.go:482-660 | every operation hands back exactly what its window stops holding, never below the escape |
| `Escapes.OpFollows` | ack_buffer.go:482-660 | no operation changes a held live message, and an ended one stays ended |
| `Escapes.EscapeKept` | ack_buffer.go:493-503 | the remembered escape is forgotten exactly when its message ends |
| `Escapes.RestartAsksIff` | ack_buffer.go:653-658 | after a delivery reset the held overshooting messages still have a request that will end them exactly if the reset did not retire the last asking frame and keep one of them |
| `Escapes.UnlimitedIsSafe` | ack_buffer.go:743-767 | without transmission limits every reset is such a one |
| `Escapes.OverKept` | ack_buffer.go:353-819 | every other operation keeps that request |
| `Overshooting.StepOnceIff` | ack_buffer.go:360-384 | a step keeps one overshooting message per client exactly if it is not an overshooting attempt of a client that holds one |
| `Overshooting.OneOverIff` | ack_buffer.go:230-234 | over every run on any budget: at most one overshooting message per client all along exactly if no attempt overshoots while its client holds one |
| `Overshooting.SafeRunsOnce` | ack_buffer.go:331-342 | a run with safe resets and unwrapped numbers has no such attempt, and every overshooting message has a request at or after it |
| `Overshooting.UnlimitedRunsOnce` | README.md:62-68 | every run without transmission limits and with unwrapped numbers is one, so no client ever holds two overshooting messages |
| `ClientLedger.AttemptKeeps` | ack_buffer.go:268-312 | an attempt to add keeps the ledger of many clients on one fair budget, and loses exactly the escape it overwrites |
| `ClientLedger.DropKeeps` | ack_buffer.go:266-267 | so does a call that leaves, by timeout or because the buffer closed |
| `LedgerRuns.OperateKeeps` | ack_buffer.go:432-819 | so does every operation on a window, with its refunds and unregistration |
| `LedgerRuns.OpenKeeps` | ack_buffer.go:110-137 | so does a new client |
| `LedgerRuns.StepKeeps` | ack_buffer.go:353-819 | so does every step of every client and call, and nothing but an overwriting attempt loses an escape |
| `LedgerRuns.LedgerAlways` | byte_budget.go:130-500 | in every state of every run each group's used bytes are those of its clients plus its waiters' credits, its references are its open clients plus its waiters, its escape is at least what its clients will return, and every unfinished waiter belongs to one call |
| `LedgerRuns.StepEscapesIff` | ack_buffer.go:380-383 | a step leaves every escape of the pool with a client that will return it exactly if it was so before and the step does not overwrite one |
| `LedgerRuns.EscapesIff` | ack_buffer.go:380-383 | over every run: the escape column is exact if and only if no attempt so far overshot while its client remembered an escape |
| `LedgerTheorems.BytesAccounted` | byte_budget.go:241-273 | the pool's used bytes are those held by clients plus the credits of unfinished waiters |
| `LedgerTheorems.EscapesAccounted` | byte_budget.go:241-273 | the pool's escape is at least what its clients will return, and equal exactly if no group lost any |
| `LedgerTheorems.KnownInside` | byte_budget.go:226-253 | while none is lost used minus escape never wraps |
| `LedgerTheorems.SoftCap` | byte_budget.go:226-253 | used bytes exceed a nonzero total by at most the escapes; while none is lost, by at most one message per client, which that client holds, unretired |
| `LedgerTheorems.EmptyAfterClose` | byte_budget.go:155-163 | once all clients are closed and all calls returned, the pool has no bytes, no active group and no names, and no escape exactly if none was lost |
| `LedgerTheorems.UnregisteredOwnsNothing` | byte_budget.go:155-163 | a group without references has no bytes, no waiter and no open client; an escape left in it is a lost one |
| `LedgerTheorems.CallsKnown` | byte_budget.go:433-447 | the waiter of every call is an unfinished one of its own group, as a reservation expects |
| `LedgerTheorems.ClampsNeverBite` | byte_budget.go:254-273 | what a client returns, bytes and escape, is always there to be taken back |
| `LedgerTheorems.EveryFairRun` | README.md:31-68 | work conservation, the ledger, the cap and the pool without bytes and names at the end, in every state of every run from a new fair budget |
| `LedgerTheorems.EveryFairRunIff` | README.md:62-68 | in every such run the escape column is exact, and the pool at the end as empty as a new one, if and only if no attempt overshot while its client remembered an escape; until then it exceeds its total by at most one held message per client |
| `LedgerTheorems.OvershootsOnceIff` | ack_buffer.go:379-384 | on a fair budget some client has overshot a second time exactly if some attempt has overwritten an escape |
| `EscapeLeak.LostEscape` | ack_buffer.go:653-658 | a concrete run in which one attempt overwrites an escape after an unsafe reset: every client is closed, every call returned and no byte is used, yet 2000 escape bytes remain and no ordinary request ever fits again |
| `UngroupedLedger.OpShrinks` | ack_buffer.go:482-660 | whatever live slots weigh, no operation but an admission makes them weigh more |
| `UngroupedLedger.EveryUngroupedRun` | byte_budget.go:424-431 | in every run on an ungrouped budget used is what clients hold, what did not overshoot stays within the total, overshooting messages are held and unretired, and nothing is used when all are closed |
| `Wakeups.OpWakes` | ack_buffer.go:198-203 | whatever an operation changes that a blocked producer or a drain waits for, it wakes them |
| `Wakeups.AdmitKeepsRefusal` | ack_buffer.go:353-378 | an admission wakes nobody and makes nobody admissible who was not |
| `Wakeups.StepBroadcasts` | byte_budget.go:489-494 | an ungrouped pool takes bytes back only with a broadcast |
| `Wakeups.AlwaysKnown` | byte_budget.go:433-447 | in every run on any budget a call's waiter is one the pool knows as its own |
| `Wakeups.NoLostWakeup` | ack_buffer.go:268-312 | in every state of every run on any budget, a blocked call none of whose channels is closed would be refused again, and it waits for the count window or holds a live message that asks for an acknowledgement |
| `TinyPools.TightAlways` | byte_budget.go:448-469 | on a fair budget smaller than a message no waiter is ever granted, in any run, also after escapes were lost |
| `TinyPools.AttemptTight` | byte_budget.go:448-458 | there every admitted attempt overshoots |
| `Spacing.TriedAsks` | ack_buffer.go:353-402 | an admitted attempt against a shared budget is an admission as a client of the window theorems makes it: forced where its cap demands it and where no message fits the pool |
| `Spacing.SpacedAlways` | ack_buffer.go:343-349 | in every run on every budget, whatever its total, every client's requests stay spaced |
| `Reconnects.EventSafe` | client.go:609-727 | every step of every goroutine keeps the safety invariant |
| `Reconnects.OneOwner` | client.go:676-679 | the reconnect flag is set exactly while one goroutine owns reconnection, and never two do |
| `Reconnects.OwnerUndisturbed` | client.go:692-713 | no step of anybody else, in particular of a returning earlier owner, takes ownership away |
| `Reconnects.NoEarlyRequest` | client.go:493-503 | from the last look at the closing flag until ownership is handed back, all new workers wait for a start event that is not set |
| `Reconnects.NoResurrection` | client.go:349-374 | once Close has returned no transport worker runs, and none is ever started again |
| `Reconnects.ReconnectStarts` | client.go:609-644 | a reconnect that nobody is in the way of starts exactly three workers with the stop event cleared, gives ownership back, sets the start event and lets go of the lock |
| `Reconnects.OwnerInsists` | client.go:681-726 | an owner stops and joins the old workers first, and gives up exactly if the client closes or its wait is cut short |
| `Reconnects.CloseReturns` | client.go:349-374 | a Close that nobody is in the way of marks the client closing, stops its workers and returns |
| `Observations.SafeAlways` | receipt.go:107-134 | in every interleaving lifetimes agree with the closing flag and the list, and readers have seen the truth |
| `Observations.LiveAckIsEarly` | receipt.go:139-161 | an observation of a live client with an acknowledged frame means the acknowledgement was accepted before closing began |
| `Observations.ClosedIsFinal` | receipt.go:139-161 | once an observation reports closed, every later one of that receipt is identical |
| `Observations.ReportIsTrue` | receipt.go:139-161 | an acknowledged or retired report is the state of the frame, a frame in such a state at the start is reported so, and an unconfirmed one only of a closed client |
| `Observations.LifetimeIsTrue` | receipt.go:125-161 | a reported lifetime lies between what the client had reached at the start and at the end of the observation |
| `Observations.LifetimesMoveForward` | receipt.go:125-134 | no later observation reports an earlier lifetime |

## Left out

- WebSocket dialing, proxies, TLS, compression, encoding and URL discovery: I/O and foreign libraries.
- Message size estimation: a size is any positive number, and at least 256 bytes where the result depends on it.
- Timers, deadlines and callbacks: a timeout is a call that gives up at any moment; callbacks do nothing.
- Events (event.go): booleans that change under the buffer's lock.
- Liveness of Close and of a reconnect: only safety is proved of goroutines.
- Overflow of byte counters: used bytes, sizes and credits are unbounded, except where the source saturates or wraps them on purpose (a group's need, decrements of zero, used minus escape).
- Window sizes beyond the length a slice can have, and the rounding of half a window size above 2^53 in floating point.
- The same message object added twice while it is held: messages are values, so one admission does not overwrite another's number.
- The retry loop around an attempt to add is the transition system of `Clients`, not a method: each attempt, each wait and each departure is a step.
- Charges a buffer operation gives up are returned to its caller, and `Senders.PayBack` hands them to the budget before the buffer's lock is released, instead of in the middle of the operation.
- A nil budget and buffers without byte accounting inside the many-client system: clients there always share a pool; the buffer class and `Senders.TryAddAlone` cover both.
- Clients between the refunds of one operation: an operation hands its refunds to the pool, and unregisters, in one step of the many-client system, although each is a section of its own under the pool's lock and other clients may run between two of them.
- WindowTheorems.ClientRun: runs without sequence number wrap, because the held-request test compares raw numbers.
- Wakeups.NoLostWakeup: runs without sequence number wrap, for the same reason.
- WindowRuns.TransmissionLimit: no handoff after receipts are detached, which Close does only when all senders have ended.
- BudgetShares.TurnIsFair: with a minimum group share below the largest 64-bit word, or for a group whose use plus its oldest request fits in 64 bits, because a saturated need equals that word.
- BudgetShares.TurnIff: under the same condition, for the same reason.
- BudgetShares.QuietMeans: under the same condition for every waiting group.
- BudgetShares.TurnIsMaximal: under the same condition.
- FrameRuns.AsksEveryInterval: runs without sequence number wrap, because the count rule takes the number modulo the interval.
- Spacing.SpacedAlways: while the escape counter of the pool is at least 256 below its 64-bit wrap, as are all byte counters of the model.
