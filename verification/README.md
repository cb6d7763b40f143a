# Verified model of the garden automation

This directory models the decision engine, the concurrent protocols and the codecs of the garden automation in
Dafny and proves properties of them. `dafny verify dfyconfig.toml` checks everything; nothing here runs the program.

## What is modelled

| file | component |
|---|---|
| `RpcClient.dfy` | the WebSocket RPC client: `pending` map, response dispatch, timeout, cancellation, close, and the two ways a payload is merged |
| `AlipayLogin.dfy` | the Alipay QR login flow, whose lock is dropped in the middle of a poll |
| `ProbeGuard.dfy` | the admission guard for identity probes |
| `LoginLimiter.dfy` | the failed-login limiter with its two bucket tables |
| `GwCodec.dfy` | the gateway body codec: xor, decimal printing, comma join, and back |
| `CocosUuid.dfy` | the packed asset-identifier decoder |
| `Ledger.dfy` | the inventory ledger, demand allocation, and which orders may be delivered |
| `Orders.dfy` | one plan over all orders: direct and production demands, accepted orders and planned crafts |
| `OpOrder.dfy` | the order of the operation queue, and for which operations it is one |
| `ResourceGates.dfy` | cost gates of operations and the sequential resource budget over the queue |
| `Farm.dfy` | what each land is ready for and how one tick shares the lands out |
| `Replant.dfy` | plant assignments and both auto-replant loops |
| `RaceDrive.dfy` | how many lands a guild-race harvest still needs planted |
| `RaceTake.dfy` | when the race scheduler wakes up and which row it takes |
| `PearlHire.dfy` | the pearl-hire planner and the re-validation before sending |
| `CyclicNote.dfy` | activity tasks that borrow ordinary operations, and their re-validation |
| `Common.dfy` | options, bounds, finite sums, ascending key lists |

Conventions. Objects that are updated in place are classes whose methods are proved equal to a specification
function of the old state; loops over slices are methods proved equal to a specification function; the properties
are lemmas about those functions. The concurrent components are step machines: everything done under one lock, and
every channel or atomic operation, is one step, and a run is any interleaving of enabled steps. Times are integers
in one unit, counts are unbounded integers unless a width is written out, a Go map range is any enumeration order,
colon-joined demand ids are tuples, and an error or early return is a value.

## Where the code does not do what one would expect

* A response frame that arrives after its call timed out reaches the namespace subscribers even when the call asked
  to apply the payload itself (`RpcClient.LateFrameReachesSubscribers`); `RpcClient.SubscribersMergeExactly` says
  exactly when subscribers merge a frame.
* EXPIRED is not final: `AlipayLogin.ExpiredOverwrittenExactly` gives the exact condition, and
  `AlipayLogin.ExpiryDuringPoll` reaches it from every reachable state. Cleanup can delete a flow whose account is being
  created: `AlipayLogin.AccountShownExactly` says that the account is shown exactly if no start between the two locked
  sections comes more than the retention after the flow was last touched; `AlipayLogin.CreatedAccountCanBeOrphaned` is
  the run in which one does.
* The login limiter lets more than `threshold - 1` failures through per window. With n = threshold - 1 and
  q = window / lockout, rounded down, the bound is (q + 1) * n if the lockout divides the window and (q + 2) * n - 1
  otherwise: 2 * n for equal lockout and window, one fewer for any longer lockout, and more the shorter the lockout is
  (`LoginLimiter.WindowBound`). Some run reaches it for every threshold and lockout, unless the table has a single place
  (`LoginLimiter.BoundIsReachedExactly`). Making room may evict the key whose failure is being recorded.
  The limiter can limit at all exactly if its table has more than one place or one failure is too many
  (`LoginLimiter.LimitsExactly`); for one failure `LoginLimiter.FailureLimitedExactly` gives the condition on the table.
* The asset-name decoder counts the free slots after it has written the two literal characters, so a hyphen among
  them ends in an index out of range; `CocosUuid.PanicsExactly` says for which inputs.
* An order that lists an item twice can be accepted and not be deliverable. For resident, single-flower and customer
  orders, with flower rows, flower-art rows and rows that are skipped, `Orders.DeliverableExactly` shows that listing each
  item once is the exact condition among the orders that can be accepted at all (`Orders.AcceptedSometimesExactly`);
  `Orders.DoubledCustomerOrder` is the failing input for customers. Assumed is that no item id is listed both as a flower
  and as a flower art, as the catalog keeps those ids apart.
* With an unknown flower yield the race plant count never falls, however much is planted
  (`RaceDrive.PlantCountIsMinimal`, `RaceDrive.UnknownYieldNeverSettles`).
* Race rows without a type are filtered by their catalog id but ranked by the priority of type zero. The head is maximal
  by the priority the filter used, for every pool drawn from a set of rows, exactly if the ranking follows that priority
  on each pair (`RaceTake.HeadByEffectivePriority`). `RaceTake.MissingTypeLosesRank` is the failing family,
  `RaceTake.TypelessOrderLoses` an input in it.
* The zero wake-up time does not mean that nothing will come due. `RaceTake.WakeMissedExactly` gives the exact guard and
  the moment that is missed: when a held task runs out (`RaceTake.ExpiringHoldHasNoWake`) and when a batch starts later
  (`RaceTake.ComingBatchHasNoWake`). While the gates are open nothing is missed.
* The operation order is neither transitive nor are its ties. `OpOrder.StrictWeakExactly` says on which sets of operations
  it is a strict weak order, `OpOrder.QueueIsOrderedExactly` that the sorted queue is in order exactly then, and
  `CyclicNote.BestIndexIsMinimal` what choosing by it gives; lane and priority always order
  (`CyclicNote.BestIndexIsBest`).

## Model

| member | source | states |
|---|---|---|
| `RpcClient.NoSenderBlocks` | internal/babigame/client.go:281-338 | in every interleaving of register, write, dispatch, timeout, cancel and close a send finds the one-slot channel empty and is the only one to that call |
| `RpcClient.MergedAtMostOnce` | internal/babigame/rpc.go:203-222 | no frame is merged twice, counting the apply hook and the subscribers together, late frames included |
| `RpcClient.SubscribersMergeExactly` | internal/babigame/client.go:281-338 | a frame reaches the subscribers exactly if it is clean, has namespaces, and its call is gone or asked for subscriber dispatch |
| `RpcClient.WaitingIsOwed` | internal/babigame/client.go:147-242 | a caller in its select is owed its answer by exactly one of the pending map, the closer, a dispatcher or its own slot; once close has swapped the map it can leave by the closed channel, and what is pending then has registered since |
| `RpcClient.LateFrameReachesSubscribers` | internal/babigame/rpc.go:263-269 | a reachable state in which manual apply was asked for and the subscribers merged the late frame all the same |
| `RpcClient.StepKeepsInv` | internal/babigame/client.go:146-338 | the ownership invariant of requests and frames is inductive over every step |
| `RpcClient.Client.Register` | internal/babigame/client.go:179-206 | the locked registration does to the fields what the step says and is refused when not connected |
| `RpcClient.Client.Lookup` | internal/babigame/client.go:281-310 | the locked lookup takes the pending entry out and fixes who may merge the frame |
| `RpcClient.Client.Swap` | internal/babigame/client.go:147-168 | close takes the whole pending map over and leaves an empty one |
| `AlipayLogin.OnePollInFlight` | internal/apiserver/alipay_login.go:89-128 | at most one provider poll per QR flow, none while it waits for a scan, one while it is processing |
| `AlipayLogin.AccountCreatedAtMostOnce` | internal/apiserver/alipay_login.go:89-128 | over a whole run the account callback runs at most once per QR code |
| `AlipayLogin.CompleteIsFinal` | internal/apiserver/alipay_login.go:130-145 | a COMPLETE flow keeps its record and its account as long as it exists |
| `AlipayLogin.ExpiredOverwrittenExactly` | internal/apiserver/alipay_login.go:89-145 | an EXPIRED flow can read otherwise later exactly if a poll that was not itself told so is in flight |
| `AlipayLogin.ExpiryDuringPoll` | internal/apiserver/alipay_login.go:89-112 | from every reachable state a late second look expires a flow whose first poll is out, and a run overwrites that |
| `AlipayLogin.KeptExactly` | internal/apiserver/alipay_login.go:147-153 | while a poll is out its flow exists exactly if no start since came more than ten minutes after the last touch |
| `AlipayLogin.AccountShownExactly` | internal/apiserver/alipay_login.go:89-153 | between the two locked sections of a poll, whatever runs: the created account is shown exactly if no such start came in between, and otherwise never again |
| `AlipayLogin.QuickLoginIsKept` | internal/apiserver/alipay_login.go:147-153 | nothing is lost while every start stays within ten minutes of the first section |
| `AlipayLogin.CreatedAccountCanBeOrphaned` | internal/apiserver/alipay_login.go:147-153 | from any reachable state in which a poll may go ahead, one late start orphans the account it creates |
| `AlipayLogin.StepKeepsInv` | internal/apiserver/alipay_login.go:64-153 | the per-flow invariant is inductive over start, poll, answer, creation, finish and cleanup |
| `AlipayLogin.AlipayLoginCoordinator.Enter` | internal/apiserver/alipay_login.go:89-112 | the first locked section of a poll: expiry, ownership, and the move to processing |
| `AlipayLogin.AlipayLoginCoordinator.Finish` | internal/apiserver/alipay_login.go:130-145 | the second locked section writes the outcome into the flow if it still exists |
| `AlipayLogin.AlipayLoginCoordinator.CleanupLocked` | internal/apiserver/alipay_login.go:147-153 | exactly the flows that are too old are removed |
| `ProbeGuard.OneProbePerKey` | internal/apiserver/identity_probe_guard.go:41-88 | at most one probe per key between admission and finish, and the table never exceeds its limit |
| `ProbeGuard.WaitHonoured` | internal/apiserver/identity_probe_guard.go:41-88 | no admission before the deadline of the last failure, even when its entry was pruned |
| `ProbeGuard.FinishIsLocal` | internal/apiserver/identity_probe_guard.go:64-87 | a finish never touches another probe's entry and does nothing the second time |
| `ProbeGuard.AdmittedExactly` | internal/apiserver/identity_probe_guard.go:41-63 | a probe is admitted exactly if none of its key is live, no deadline is ahead and there is room |
| `ProbeGuard.IdentityProbeGuard.Begin` | internal/apiserver/identity_probe_guard.go:41-63 | prune and admit, as one step, keeping the invariant |
| `ProbeGuard.IdentityProbeGuard.Finish` | internal/apiserver/identity_probe_guard.go:64-87 | the once-only closure, as one step, keeping the invariant |
| `LoginLimiter.WindowBound` | internal/apiserver/login_limiter.go:138-178 | with a clock that never goes back, no success and no eviction of the key, a window holds at most Bound unlimited failures of it, for every lockout the configuration accepts |
| `LoginLimiter.BoundIsReachedExactly` | internal/apiserver/login_limiter.go:138-178 | for every threshold, window and lockout some run that meets the assumptions reaches the bound, exactly if the table has more than one place or the bound is at most one |
| `LoginLimiter.LockHolds` | internal/apiserver/login_limiter.go:166-178 | a lock outlives every event before its deadline and every attempt meanwhile is refused with that deadline |
| `LoginLimiter.RunKeepsTable` | internal/apiserver/login_limiter.go:185-230 | in every run tables stay within their size and unlocked buckets count between one and threshold minus one |
| `LoginLimiter.OnePlaceNeverLimits` | internal/apiserver/login_limiter.go:203-230 | with a single place in the table no failure is ever limited |
| `LoginLimiter.LimitsExactly` | internal/apiserver/login_limiter.go:138-164 | some run limits a given key exactly if the table has more than one place or the threshold is one |
| `LoginLimiter.FailureLimitedExactly` | internal/apiserver/login_limiter.go:138-230 | one failure can, or must, be limited exactly if its bucket survives pruning ripe and can, or must, survive making room |
| `LoginLimiter.CanStayExactly` | internal/apiserver/login_limiter.go:203-230 | a key can stay exactly if there is room or enough others were seen no later |
| `LoginLimiter.CanGoExactly` | internal/apiserver/login_limiter.go:203-230 | a key can be evicted exactly if there is no room and too few were seen before it |
| `LoginLimiter.BucketTable.Prune` | internal/apiserver/login_limiter.go:185-201 | removes exactly the expired locks and the periods that are over |
| `LoginLimiter.BucketTable.MakeRoom` | internal/apiserver/login_limiter.go:203-230 | evicts the longest unseen keys until exactly one place is free |
| `LoginLimiter.BucketTable.CheckBucket` | internal/apiserver/login_limiter.go:166-178 | reports a running lock, clears one that is over |
| `LoginLimiter.BucketTable.RecordFailure` | internal/apiserver/login_limiter.go:138-164 | a failure is the step of the model for some eviction that makes room |
| `LoginLimiter.LoginLimiter.Check` | internal/apiserver/login_limiter.go:81-99 | both tables are pruned, the user name decides first |
| `LoginLimiter.LoginLimiter.RecordFailure` | internal/apiserver/login_limiter.go:101-126 | a failure counts against both keys, an empty user name against none |
| `LoginLimiter.LoginLimiter.RecordSuccess` | internal/apiserver/login_limiter.go:128-136 | only the user name's bucket is cleared |
| `GwCodec.RoundTrip` | internal/babigame/crypto.go:34-73 | decoding what was encoded gives the clear text back, for every text and mask, the empty one included |
| `GwCodec.WrongMaskNeverRestores` | internal/babigame/crypto.go:50-73 | a non-empty text comes back only under the mask it was encoded with |
| `GwCodec.EncodeInjective` | internal/babigame/crypto.go:34-48 | different texts have different encodings |
| `GwCodec.DecodeFailsExactly` | internal/babigame/crypto.go:59-73 | decoding a body fails exactly if a field between its commas is neither blank nor a 64-bit integer, and gives the empty text exactly if all fields are blank, the empty body included |
| `GwCodec.AtoiOfItoa` | internal/babigame/crypto.go:45-66 | reading back a printed integer, for all 64-bit integers |
| `GwCodec.XorCancels` | internal/babigame/crypto.go:45-70 | masking twice restores the number |
| `GwCodec.SplitOfJoin` | internal/babigame/crypto.go:47-59 | splitting at commas undoes joining |
| `GwCodec.GWEncode` | internal/babigame/crypto.go:34-48 | the encoding loop computes the specified encoding |
| `GwCodec.GWDecode` | internal/babigame/crypto.go:52-73 | the decoding loop computes the specified decoding, errors included |
| `CocosUuid.PackOfDecode` | internal/babigame/catalog_loader.go:188-219 | a valid identifier becomes two literals, thirty hexadecimal digits and four hyphens, and packing inverts it |
| `CocosUuid.DecodeOfPack` | internal/babigame/catalog_loader.go:188-219 | every well-formed UUID is what its packed form decodes to |
| `CocosUuid.DecodeInjective` | internal/babigame/catalog_loader.go:188-219 | two valid identifiers decode alike exactly if they agree up to the suffix |
| `CocosUuid.UnchangedExactly` | internal/babigame/catalog_loader.go:189-210 | the value comes back unchanged exactly if it is not 22 characters with twenty valid symbols |
| `CocosUuid.PanicsExactly` | internal/babigame/catalog_loader.go:195-217 | the exact inputs on which the slot index runs out of range |
| `CocosUuid.FillTooFewSlots` | internal/babigame/catalog_loader.go:200-217 | with a slot lost to a hyphen the pair loop runs out of slots unless it meets an invalid symbol first |
| `CocosUuid.HyphenPanics` | internal/babigame/catalog_loader.go:195-217 | such an input |
| `CocosUuid.SameNumber` | internal/babigame/catalog_loader.go:211-216 | three digits write the number the two symbols write |
| `CocosUuid.Slots` | internal/babigame/catalog_loader.go:198-203 | the slot list, one shorter for every hyphen among the literals |
| `CocosUuid.FillSlots` | internal/babigame/catalog_loader.go:204-217 | the pair loop fills the buffer with the specified digits, or stops at an invalid symbol |
| `CocosUuid.DecodeCocosUUID` | internal/babigame/catalog_loader.go:188-219 | the whole decoder computes the specified outcome |
| `Ledger.JointFulfilment` | internal/automation/availability.go:719-769 | all orders accepted in one plan, each listing its items once, can be delivered together, and what is still available can be used on top |
| `Orders.DeliverableExactly` | internal/automation/availability.go:437-448 | an order of any style, planned alone, is deliverable whenever it is accepted, exactly if it lists each item once or can never be accepted |
| `Orders.AcceptedSometimesExactly` | internal/automation/availability.go:717-769 | some stock gets an order accepted exactly if the rows its predicate looks at can be reserved |
| `Orders.DoubledCustomerOrder` | internal/automation/availability.go:733-769 | a customer order for the same flower twice is accepted with one flower too few |
| `Orders.OrdersAndCraftsTogether` | internal/automation/orders.go:249-299 | all accepted orders and one craft for every customer order that plans one can be served together from stock, and what is still available on top |
| `Orders.CraftIsReserved` | internal/automation/availability.go:19-61 | a planned craft takes no more of a flower than its own production demands have reserved |
| `Orders.ProductionCovers` | internal/automation/goals_demands.go:191-245 | for each flower of a missing art that can be made there is a production demand of at least what the craft takes |
| `Orders.BuildDirectDemands` | internal/automation/goals_demands.go:57-189 | the order and row loops with their skipped rows and blocked arts, then the sort |
| `Orders.BuildProductionDemands` | internal/automation/goals_demands.go:191-206 | the production demands of the annotated direct batch |
| `Orders.CraftOperation` | internal/automation/orders.go:249-299 | the first missing art of an order is planned as a craft exactly if its flowers suffice |
| `Ledger.NoPriorityInversion` | internal/automation/goals_demands.go:247-257 | a demand that gets anything was served after every earlier eligible demand for the item was filled |
| `Ledger.SortDemandsSorts` | internal/automation/goals_demands.go:275-285 | the sort permutes, and puts higher priority, then more missing, then the smaller id first |
| `Ledger.HigherPriorityFirst` | internal/automation/goals_demands.go:247-285 | in the batch as sorted a demand gets only what every eligible demand of higher priority left over |
| `Ledger.BatchIsGreedy` | internal/automation/types.go:188-208 | a batch reserves all that is wanted of an item, or all there is |
| `Ledger.AllocatedAllKeepsBook` | internal/automation/types.go:188-208 | reservations per item are the sum over demands and at most what is owned, over any batch |
| `Ledger.AllocatedChanges` | internal/automation/types.go:188-208 | an allocation changes one item of one demand, by the grant |
| `Ledger.TopUpsKeepReservations` | internal/automation/activity_scope.go:61-67 | scoped top-ups keep the ledger sound and leave earlier and foreign reservations intact |
| `Ledger.TopUpsStayWithinCount` | internal/automation/activity_scope.go:64-67 | a top-up never pushes an id past the largest count asked under it |
| `Ledger.InventoryLedger.Allocate` | internal/automation/types.go:188-208 | the in-place allocation equals the specified one and keeps the ledger sound |
| `Ledger.InventoryLedger.ApplyLedgerAllocations` | internal/automation/goals_demands.go:247-257 | every demand is annotated from the ledger as it stands at its turn |
| `Ledger.InventoryLedger.TopUpScoped` | internal/automation/activity_scope.go:63-67 | the top-up loop |
| `Ledger.InventoryLedger.CanSpendItems` | internal/automation/types.go:217-227 | true exactly if every positive count is still available |
| `Ledger.InventoryLedger.CanFulfillCustomerOrder` | internal/automation/availability.go:733-769 | the customer-order check, with its skipped rows and its look at the stock on hand |
| `Ledger.InventoryLedger.CanFulfillBoxedOrder` | internal/automation/availability.go:719-731 | the resident-order check |
| `Ledger.MaxCraftableCount` | internal/automation/availability.go:559-577 | the largest number of times a recipe can be made from unreserved stock: that many, and not one more |
| `OpOrder.StrictWeakExactly` | internal/automation/ops.go:86-107 | the comparison is a strict weak order on a set of operations exactly if no category sharing its rank orders its own beside another, and no operation lies between or beside two auto-replant plantings of its cell |
| `OpOrder.QueueIsOrderedExactly` | internal/automation/ops.go:82-84 | the stable sort orders every list of those operations exactly then |
| `OpOrder.TiesAreNotTransitive` | internal/automation/ops.go:93-95 | an order and a watering operation tie while two orders do not |
| `OpOrder.OrderIsNotTransitive` | internal/automation/ops.go:99-106 | an ordinary planting between two auto-replant ones is ordered with both, they are not |
| `ResourceGates.ExecutionNeverOverdraws` | internal/automation/gates.go:62-97 | executing the operations still runnable, in order, never takes more of gold, diamonds, drops or an item than was observed |
| `ResourceGates.NothingOverdrawn` | internal/automation/gates.go:195-211 | what is left is the start minus all accepted needs, so the clamps at zero never act |
| `ResourceGates.NegativeBlocksAnyCost` | internal/automation/gates.go:151-178 | from a negative gold, diamond or drop balance every operation with a cost is blocked, whether or not it needs that resource |
| `ResourceGates.NewlyBlockedExactly` | internal/automation/gates.go:73-97 | an operation is newly blocked exactly if it needs more than the accepted ones before it left, and says by how much |
| `ResourceGates.SecondPassChangesNothing` | internal/automation/gates.go:62-97 | a second pass is the identity |
| `ResourceGates.BlockersExactly` | internal/automation/gates.go:151-178 | a queue gate for every short resource, with required and remaining amount, and none else |
| `ResourceGates.ImplicitGatesNeed` | internal/automation/gates.go:213-264 | the gates derived from an operation ask for its real cost, resource by resource |
| `ResourceGates.AnnotatedRunnableExactly` | internal/automation/gates.go:14-46 | an operation stays runnable exactly if it was and the balances pay for it without unattended diamonds |
| `ResourceGates.AnnotatedIsCovered` | internal/automation/gates.go:14-46 | after the gate pass an operation without gates of its own carries gates that ask for its whole real cost, as the budget pass assumes |
| `ResourceGates.CoveredExactly` | internal/automation/gates.go:266-285 | gates an operation brings along cover its cost exactly if none shadows a derived gate while asking for less |
| `ResourceGates.OperationCostFromGates` | internal/automation/gates.go:115-145 | the cost is the largest counted requirement per resource |
| `ResourceGates.Budget.QueueBlockedGates` | internal/automation/gates.go:151-178 | the gates of the running budget |
| `ResourceGates.Budget.Spend` | internal/automation/gates.go:195-211 | spending with clamps, items in any order |
| `ResourceGates.AnnotateOperationGates` | internal/automation/gates.go:14-46 | the in-place gate pass |
| `ResourceGates.AnnotateSequentialResourceBudget` | internal/automation/gates.go:62-97 | the in-place budget pass |
| `Farm.RecommendMonotone` | internal/automation/farm.go:13-43 | a longer delay only turns harvesting into waiting |
| `Farm.RecommendRipens` | internal/automation/farm.go:13-43 | later time only turns waiting into harvesting |
| `Farm.RipeExactly` | internal/automation/farm.go:13-78 | exactly when a land may be harvested, with delay and protocol grace |
| `Farm.LandsArePartitioned` | internal/automation/farm.go:80-231 | no two operations of a tick share a land, across night, secondary and general harvest, planting batches and watering |
| `Farm.HarvestedExactly` | internal/automation/elves_plant.go:66-151 | exactly the ripe lands that the switches and flower filters allow are harvested |
| `Farm.WateringWithinReserve` | internal/automation/farm.go:195-229 | waters as many thirsty lands as drops above the reserve allow, race lands first |
| `Farm.ElvesFillAllLands` | internal/automation/elves_plant.go:153-189 | elves planting uses every empty land and never passes the wanted number of main flowers |
| `Farm.SliceLands` | internal/automation/farm.go:167-183 | the planting batches are consecutive slices of the empty lands |
| `Farm.PlanFarm` | internal/automation/farm.go:80-231 | the whole pass computes the specified operations |
| `Farm.PlanHarvest` | internal/automation/farm.go:125-151 | the successive harvest filters compute the specified harvests |
| `Farm.SortWater` | internal/automation/farm.go:189-206 | the water filters and race-first order |
| `Farm.SlicePlant` | internal/automation/farm.go:167-183 | the cursor loop |
| `Farm.PlanElves` | internal/automation/elves_plant.go:154-189 | the elves planting loop |
| `Replant.HandsOutExactly` | internal/automation/farm.go:494-552 | auto-replant hands out exactly the limit, in positive counts |
| `Replant.GoesToTheLowest` | internal/automation/farm.go:494-552 | every assignment goes to a flower of least current stock, the least id among equals |
| `Replant.SpreadStaysNarrow` | internal/automation/farm.go:494-552 | the final maximum is at most the original one, or the final minimum plus one (balance) or four (batches) |
| `Replant.FinalIsGiven` | internal/automation/farm.go:494-552 | every flower ends with what it had plus what it was given |
| `Replant.BalanceAssignments` | internal/automation/farm.go:513-552 | the round-based loop refines one-flower-at-a-time steps; its two guards never act |
| `Replant.LowestStockBatchAssignments` | internal/automation/farm.go:494-508 | the batch loop refines the same steps |
| `Replant.PlanFillsExactly` | internal/automation/farm.go:266-348 | assignments never exceed the empty lands and use all of them when the fallback may |
| `Replant.RaceComesFirst` | internal/automation/farm.go:324-333 | no other demand gets a land while a plantable unblocked race demand lacks one |
| `Replant.RaceFirstKeepsDemands` | internal/automation/farm.go:324-333 | serving race demands first loses no demand and makes none up |
| `Replant.ServedInOrder` | internal/automation/farm.go:287-323 | a demand gets a land only after those ahead of it got their full missing count |
| `Replant.GrantsAreAssigned` | internal/automation/farm.go:314-322 | a positive grant is an assignment of that flower and count |
| `Replant.PlanPlantAssignments` | internal/automation/farm.go:266-348 | the planner computes the specified plan |
| `Replant.ApplyStock` | internal/automation/farm.go:406-460 | the stock adjustments in place |
| `RaceDrive.PlantCountIsMinimal` | internal/automation/race_drive.go:203-217 | planting k new lands settles the count exactly if the yield is known and k is at least the count |
| `RaceDrive.PlantingLowersCount` | internal/automation/race_drive.go:203-238 | every planted land lowers the count by one, or by nothing with an unknown yield |
| `RaceDrive.FlowersConserved` | internal/automation/race_drive.go:240-287 | harvested plus pending flowers are the full yield of the race lands with known yield |
| `RaceDrive.CreditedHarvestKeepsNeed` | internal/automation/race_drive.go:192-217 | a harvest credited to the progress leaves the need unchanged |
| `RaceDrive.LocalCreditKeepsNeed` | internal/automation/race_drive.go:103-110 | crediting the local count suffices when it dominates |
| `RaceDrive.LastHarvestKeepsNeedExactly` | internal/automation/race_drive.go:192-217 | when the last harvest clears the land, the need is unchanged exactly if the credited progress dominates |
| `RaceDrive.UnknownYieldNeverSettles` | internal/automation/race_drive.go:230-238 | a farm on which planting never settles the count |
| `RaceDrive.PlantedYieldSum` | internal/automation/race_drive.go:252-287 | the sum over the lands in any order |
| `RaceDrive.PlantHarvestPlantMissing` | internal/automation/race_drive.go:203-217 | the plant count |
| `RaceTake.WakeIsExact` | internal/automation/union_race.go:677-736 | a wake-up lies in the future, nothing is due before it, and a row is due at it while the gates are open |
| `RaceTake.ZeroWhileOpen` | internal/automation/union_race.go:697-716 | with open gates, no wake-up means due now or no row the clock alone could make due |
| `RaceTake.DueExactly` | internal/automation/union_race.go:909-924 | taking is due at a later moment exactly if the guard holds, the soonest moment is past and the batch still runs |
| `RaceTake.WakeMissedExactly` | internal/automation/union_race.go:677-736 | with no wake-up time and nothing due, nothing comes due by the clock exactly if the guard fails; otherwise the gates are closed now and the missed moment is the soonest one |
| `RaceTake.WakeIsSoonest` | internal/automation/union_race.go:677-736 | a wake-up time that is given is that soonest moment |
| `RaceTake.ExpiringHoldHasNoWake` | internal/automation/union_race.go:677-736 | a hold that runs out makes a row due with no wake-up time for it |
| `RaceTake.ComingBatchHasNoWake` | internal/automation/union_race.go:677-736 | and so does a batch that starts later |
| `RaceTake.HeadIsBest` | internal/automation/union_race.go:1278-1310 | the selected row passes every filter, ready before upcoming, and is maximal by priority and score |
| `RaceTake.HeadIsFirstBest` | internal/automation/union_race.go:1294-1305 | and among equals it is the first in the pool |
| `RaceTake.HeadByEffectivePriority` | internal/automation/union_race.go:1278-1310 | for every pool drawn from rows of one class the head is maximal by the filter's priority exactly if the ranking follows it on each pair |
| `RaceTake.MissingTypeLosesRank` | internal/automation/union_race.go:1278-1310 | a typeless row loses to one of lower priority whenever type zero has a lower priority still |
| `RaceTake.TypelessOrderLoses` | internal/automation/union_race.go:1278-1310 | the failing input: a customer-order row without a type, configured above pearl hiring, ranks below a pearl-hire row |
| `RaceTake.RaceTakeWakeAt` | internal/automation/union_race.go:677-716 | the row loop computes the specified wake-up |
| `RaceTake.SelectRaceTasks` | internal/automation/union_race.go:1278-1310 | the selection loop |
| `PearlHire.HireIsSafe` | internal/automation/pearl_hire.go:42-128 | a planned hire passes every gate: slot, tickets, limits, source, filters, level, protection |
| `PearlHire.GivesUpExactly` | internal/automation/pearl_hire.go:99-128 | the no-candidate block occurs exactly if all lists are known and everybody on them is known to be ineligible |
| `PearlHire.AnswerMakesProgress` | internal/automation/pearl_hire.go:99-128 | an answered synchronisation leaves strictly less missing: lists, then profiles, then hire states |
| `PearlHire.Decision` | internal/automation/pearl_hire.go:42-128 | whatever the server answers, finitely many synchronisations lead to a hire or a block |
| `PearlHire.SourcesAreDisjoint` | internal/automation/pearl_hire.go:356-387 | the three filtered lists are free of duplicates and have nothing in common |
| `PearlHire.ValidatedExactly` | internal/automation/pearl_hire.go:144-166 | re-validation accepts exactly the next safe hire at one ticket |
| `PearlHire.PlannedHireValidates` | internal/automation/pearl_hire.go:130-166 | a planned hire passes its own re-validation, under any intent |
| `PearlHire.PlannedHireIsSendable` | internal/automation/pearl_hire.go:132-184 | at the send boundary it passes exactly if both pieces of evidence are under thirty seconds old |
| `PearlHire.ActiveWorkers` | internal/automation/pearl_hire.go:303-322 | workers are counted alike in any order of the slots |
| `PearlHire.FirstSafeSlot` | internal/automation/pearl_hire.go:324-345 | the least safe slot |
| `PearlHire.FilterCandidates` | internal/automation/pearl_hire.go:356-387 | the filter loop with its shared seen set |
| `PearlHire.PlanSource` | internal/automation/pearl_hire.go:186-256 | the candidate loop of one source |
| `PearlHire.PlanOneSafePearlHire` | internal/automation/pearl_hire.go:42-128 | the planner computes the specified step |
| `CyclicNote.ScopedIsAuthorised` | internal/automation/activity_scope.go:24-85 | every operation given a drive uses one to the missing number of units (none or one for pearl hiring) and passes re-validation in the same state, for all five task types |
| `CyclicNote.TaskOperationsAuthorised` | internal/automation/activity_scope.go:24-124 | for the actions of the observed tasks, whatever was planned before: the pass appends at most one operation per task type and each is accepted at the send boundary |
| `CyclicNote.ScopedKeepsReservations` | internal/automation/activity_scope.go:60-67 | the pass keeps the ledger sound and every earlier reservation |
| `CyclicNote.ImportFits` | internal/automation/activity_scope.go:71-83 | the one imported operation fits its task, case by case |
| `CyclicNote.FittingIsAccepted` | internal/automation/activity_scope.go:212-252 | what fits is accepted by the repeated check |
| `CyclicNote.FarmWaterIsDue` | internal/automation/activity_scope.go:236-248 | watering names lands still to be watered, within the drops above the reserve |
| `CyclicNote.DrivenPlantIsBounded` | internal/automation/activity_drive.go:188-254 | the driven planting names between one and the missing number of lands, all from fallback operations for its flower |
| `CyclicNote.DrivenLandsAreEmpty` | internal/automation/activity_drive.go:188-254 | and those lands are empty |
| `CyclicNote.RackImportFits` | internal/automation/activity_drive.go:256-285 | a driven rack sale stays within the missing count, the slot cap and the unreserved stock |
| `CyclicNote.ChosenIsBest` | internal/automation/activity_drive.go:53-79 | the task worked on for a type has the most to do, the least slot among equals |
| `CyclicNote.ActionsAreOpen` | internal/automation/activity_drive.go:35-120 | every action stands for an open task with something to do, one per type |
| `CyclicNote.BestIndexIsBest` | internal/automation/activity_drive.go:296-307 | the chosen index has the best lane and priority among the matches |
| `CyclicNote.BestIndexIsMinimal` | internal/automation/activity_drive.go:296-307 | among matches on which the comparison is an order none comes before the chosen one |
| `CyclicNote.OthersDoNotMatter` | internal/automation/activity_scope.go:72-83 | what is chosen depends on the matching operations alone, not on incidental ones around them |
| `CyclicNote.BestArtIsBest` | internal/automation/availability.go:638-663 | the art with the most unreserved pieces, the least id among equals |
| `CyclicNote.RackArtIs` | internal/automation/availability.go:619-636 | the rack sells a preferred art if one is in stock, otherwise any, and nothing exactly if none is |
| `CyclicNote.TaskActions` | internal/automation/activity_drive.go:57-119 | the selection loop |
| `CyclicNote.DriveCyclicNotePlant` | internal/automation/activity_drive.go:188-254 | the planting driver: switch, fallbacks of one flower, cap, priority floor, and the rebuilt list |
| `CyclicNote.ScopedFarmOperations` | internal/automation/activity_scope.go:90-124 | the farm planner, the land count and the choice between planting and the first usable operation |
| `CyclicNote.ScopedOperations` | internal/automation/activity_scope.go:24-85 | the pass over all actions, with the shared ledger topped up in place and the candidates of each task planned |

## Left out

- NothingOverdrawn: stated for non-negative balances, which is what the game server reports; NegativeBlocksAnyCost says what a negative gold, diamond or drop balance does.
- WindowBound: says nothing about a key that is evicted for room or cleared by a success in between; those events are excluded by name.
- HigherPriorityFirst: about one batch; production demands are a batch of their own, sorted and served after the direct ones.
- DeliverableExactly: about an order planned alone, whose item ids each occur under one kind; that any accepted orders listing their items once go together is JointFulfilment, and together with crafts OrdersAndCraftsTogether.
- ScopedIsAuthorised: the ordinary business planners are present as far as their finish, sell, farm and hire operations go; their craft, reject, reward, claim and generate operations are arbitrary operations of a kind no task asks for.
- Network, TLS, WebSocket framing, JSON, MD5, SQLite and protobuf: outcomes of those layers are step labels or parameters.
- UTF-8 encoding of clear texts and identifiers: a text is a sequence of Unicode scalar values, an identifier a sequence of bytes.
- Heartbeat, binary frames, login and synchronisation wrappers of the RPC client, and what hooks and subscribers do with a payload.
- Normalisation of user names and remote addresses in the limiter; keys are taken as normalised.
- Policy and quality filters of orders and plantable flowers, catalog tables and recipe data: their results are inputs.
- The bounded retry loop around plan building: one consistent snapshot is assumed, which is what that loop is for.
- Labels, reasons, blocking stages, diagnostics and protobuf views: presentation only; reasons appear where their presence decides something.
- The drivers for race, daily and friend operations, shop, union building and redeem planners, task-pool refresh, upgrade, deletion and abandonment of race tasks.
- 32-bit overflow of counts and stocks; the 64-bit overflow guard of the pearl rest time and the 32-bit rune conversion are modelled.
