# Verified model of the Atoma proxy's accounting

The proxy sells AI compute by the unit. It reserves compute units on prepaid stacks, buys new
stacks with the user's USDC, reserves amounts of fiat money, and settles all of that later,
through one event queue that the state manager empties one event at a time. This project
models that accounting and a few self-contained algorithms around it, and proves what every
interleaving of requests keeps.

## What is modelled

- `StackTable`: the `stacks` table, with the five statements that reserve units, the one that
  settles them, and the insertion of a bought stack. Each statement is one atomic step; a
  `LIMIT 1` without an order may return any matching row.
- `LockHeaps`: the expiry heaps of units reserved for confidential requests, with the peek/pop
  loop, the `retain` pass, the sweep over all heaps and the push.
- `UnitProtocol`: requests, heaps, queue and table as one state machine. A unit is held by a
  request in flight, by a heap entry, by an event on its way to the table, or it is stranded,
  with the reason recorded.
- `Purchase`: the lock per user and task, the deduction, the purchase on chain, the refund, the
  claims on USDC payments, and the bounded wait of a request that lost the lock.
- `Fiat`: the fiat ledger and the usage tables fed by its settlements.
- `Ledgers`: the three machines with their shared queue, and the theorems about every run from a
  fresh start, for any number of users, stacks, requests, purchases and payments.
- `LockedUnits`: exactly when locked units stay non-negative and when they are all given back,
  with the runs that show that no condition can be dropped.
- `Billing`: what requests bill is what the counters, debits and usage rows show.
- `Base64Url`: the decoder that reads a JWT claim out of a base64url text from a window
  starting at any position, measured against section 4 and Table 2 in section 5 of RFC 4648.
- `Attestation`, `Coins`, `Payment`, `KeyRotation`: attestation slots of a settlement ticket,
  coin selection over a paged listing, the scan over the balance changes of a payment, and the
  eligibility of nodes for confidential requests.
- `Base`, `Events`: fixed-width integers and sums over finite collections; the events and the
  channel that carries them.

Objects whose methods change fields are classes here too (`LockTable`, `Table`, `LockMap`,
`LockGuard`, `CryptoBalances`, `FiatTables`, `TicketRow`, `KeyTables`, `Channel`). Their methods
are proved against functions of the old state, and the same functions make up the steps of the
state machines, so the theorems about runs are about what the methods do.

## Where the code departs from its documentation, and what follows

- A lock request that has to buy a stack reserves 8192 units on it
  (`atoma-proxy/src/server/handlers/nodes.rs:390`) but parks the number the caller asked for
  (`:444-450`); once that lock has expired, the stack is left with the difference
  (`LockedUnits.ExpiredLockLeavesDifference`). Unit counts arrive as u64 and are cast to i64, so
  they can be negative, and a single negative reservation takes a stack below zero
  (`LockedUnits.NegativeRequestLocksNegative`). The locked units of every stack stay
  non-negative in all runs if and only if no request asks for a negative count and no lock
  request that buys a stack asks for more than 8192 (`LockedUnits.NeverNegativeIff`).
- A CHECK constraint of the table
  (`atoma-state/src/migrations/20250403075604_locked_compute_units-stacks.sql:7-9`) refuses a
  settlement that overruns its estimate by more than the stack has left. The event is logged
  and forgotten: the stack is never over-committed, not even by the overrun, but the estimate
  stays locked. It cannot happen while no settlement bills more than its estimate
  (`LockedUnits.NoSettlementRefused`).
- Confidential embeddings settle with an estimate of zero
  (`atoma-proxy/src/server/handlers/embeddings.rs:353-389`), so the units they reserved stay
  locked (`LockedUnits.ZeroEstimateStrands`). A stack on which nothing is under way has all its
  units back if and only if nothing was lost on it (`LockedUnits.QuietStackIsFreeIff`), which
  is so whenever every step gives back what it took (`LockedUnits.QuietStackIsFree`).
- `prune_compute_units_in_memory` leaves empty heaps in the map; only
  `find_stacks_meeting_criteria_and_prune` removes them.
- The fiat reservation multiplies in i64, the settlement in u128. They name the same amount
  exactly when the product is below 2^63 (`Fiat.ReserveMatchesEstimate`).
- `base64_to_bitarray` documents an error for characters outside the alphabet; the code skips
  them (`Base64Url.UnknownCharactersAreSkipped`, `Base64Url.FourStrayCharactersPass`). The
  window offset is computed in u8; the additions overflow when offset plus length exceeds 255,
  which stops a build with overflow checks and is harmless otherwise (`checkedArithmetic`).
- The node listed last on a settlement ticket has no slot, and its attestations are refused
  (`Attestation.AcceptedIff`).
- The two queries for nodes with valid keys group differently, by node and by node and key, and
  disagree on a node that has one valid and one invalid key
  (`KeyRotation.QueriesDisagree`).
- A payment digest is used up by the first call that names it, even if that call fails later:
  whether the payment is ever credited is decided when that call ends
  (`Ledgers.ClaimDecidesForGood`).

## Model

| member | source | states |
|---|---|---|
| `Ledgers.NeverOverCommitted` | atoma-state/src/state_manager.rs:400-529 | after any run, computed plus locked units of every stack are at most its size, whatever the settlements bill |
| `Ledgers.OnlyItsUserReserves` | atoma-state/src/state_manager.rs:496-529 | a stack's locked units change only by an event for it or by a reservation on it, and then a statement that names a user names the stack's user and finds it neither claimed nor closed |
| `Ledgers.BoughtStackIsOpen` | atoma-proxy/src/server/middleware.rs:2183-2201 | once a bought stack is recorded, its user can reserve exactly what the buyer has left of it |
| `Ledgers.LockedUnitsAccounted` | atoma-state/src/state_manager.rs:2306-2332 | after any run, the locked units of a stack are the units in flight, in its heap, in queued events, and stranded |
| `LockedUnits.LockedNeverNegative` | atoma-proxy/src/server/middleware.rs:2658-2709 | locked units are never negative, if no unit count is negative and no lock request that buys asks for more than 8192 |
| `LockedUnits.LockedCoversHolders` | atoma-state/src/state_manager.rs:2306-2332 | under the same conditions the locked units of a stack cover every request in flight and every lock on it |
| `LockedUnits.ExpiredLockLeavesDifference` | atoma-proxy/src/server/handlers/nodes.rs:379-451 | for every m >= 0, some run in which a lock request that buys a stack asks for m units ends with 8192 - m units locked |
| `LockedUnits.NegativeRequestLocksNegative` | atoma-state/src/state_manager.rs:2128-2151 | one reservation of a negative count takes a fresh stack below zero |
| `LockedUnits.NeverNegativeIff` | atoma-proxy/src/server/handlers/nodes.rs:295-299 | with counts of at least l and bought locks of at most n, locked units are non-negative in all reachable states iff l >= 0 and n <= 8192 |
| `Ledgers.ComputedIsBilled` | atoma-state/src/state_manager.rs:2306-2332 | computed units and message count of a stack are the sums over the settlements the table accepted |
| `Billing.EveryBillArrives` | atoma-proxy/src/server/handlers/mod.rs:88-110 | after any run, computed units (and messages) plus queued and refused totals are the sum of the totals of the requests that finished on the stack |
| `Billing.QuietStackShowsBills` | atoma-state/src/state_manager.rs:2306-2332 | without overruns and with nothing queued, the counters are exactly those sums |
| `LockedUnits.QuietStackKeepsOnlyLosses` | atoma-state/src/state_manager.rs:2306-2332 | once nothing is under way on a stack, its locked units are exactly the stranded ones |
| `LockedUnits.QuietStackIsFreeIff` | atoma-state/src/state_manager.rs:2306-2332 | in runs without negative demands, such a stack has no units locked iff every loss on it is of 0 units |
| `LockedUnits.QuietStackIsFree` | atoma-proxy/src/server/handlers/mod.rs:88-110 | it has none locked if locks hold what was reserved, requests need their whole lock, settlements name their estimates and stay within them |
| `LockedUnits.ZeroEstimateStrands` | atoma-proxy/src/server/handlers/embeddings.rs:353-389 | a reachable confidential request that settles with an estimate of zero leaves all its units locked on a quiet stack |
| `LockedUnits.LargerLockStrands` | atoma-proxy/src/server/middleware.rs:2690-2700 | a reachable confidential request that takes a larger lock than it needs leaves the difference locked on a quiet stack |
| `LockedUnits.FailedLockRequestStrands` | atoma-proxy/src/server/handlers/nodes.rs:465-471 | a reachable lock request that finds no key after buying leaves all 8192 units locked |
| `LockedUnits.WholeEstimatesWithoutLocks` | atoma-proxy/src/server/handlers/mod.rs:88-110 | where nobody asks for a lock, nothing is ever parked and every settlement names its whole estimate |
| `LockedUnits.OnlyPurchasesLoseOnParking` | atoma-proxy/src/server/handlers/nodes.rs:330-351 | where no lock request buys a stack, no units are lost on the way into a heap |
| `LockedUnits.NoSettlementRefused` | atoma-state/src/migrations/20250403075604_locked_compute_units-stacks.sql:7-9 | in runs whose settlements stay within their estimates the table refuses none |
| `Ledgers.PurchasesExclude` | atoma-proxy/src/server/middleware.rs:2160-2201 | the keys of the lock map are the keys of the purchases in flight, at most one per user and task |
| `Ledgers.BalanceIsConserved` | atoma-proxy/src/server/middleware.rs:1540-1676 | a balance is credits minus queued top-ups minus completed purchases minus open deductions, and never negative |
| `Ledgers.PurchasesDelivered` | atoma-proxy/src/server/middleware.rs:1697-1755 | every completed purchase has a stack of its own in the table |
| `Ledgers.CreditedOnce` | atoma-auth/src/auth.rs:938-1045 | no two credits come from one payment digest, and each is the amount a transaction pays the proxy itself |
| `Ledgers.ClaimDecidesForGood` | atoma-auth/src/auth.rs:946-1042 | in every continuation a payment is credited, to its claimant with the amount paid, iff the call that finishes the claim found the transaction, was authorised, and the transaction pays the proxy |
| `Ledgers.RunKeepsDecision` | atoma-auth/src/auth.rs:946-952 | once no claim names a digest of the table, the credit it has, or has not, is final in every continuation |
| `Ledgers.FiatNeverOverdrawn` | atoma-state/src/state_manager.rs:4599-4673 | debited plus reserved amounts exceed the user's funds by no more than the settlements exceeded their estimates |
| `Ledgers.ReservedIsUnsettled` | atoma-state/src/state_manager.rs:4599-4673 | without overflow, reserved input and output amounts are the sums of the unsettled estimates |
| `Ledgers.DebitsAreShown` | atoma-state/src/handlers.rs:1448-1484 | debited amounts are the sums over the user's usage rows plus the amounts of settlements without output tokens |
| `Ledgers.UsageIsGrouped` | atoma-state/src/state_manager.rs:4707-4735 | every per-day row is the group-by sum of the settlements handled; the request counter counts those with an output amount |
| `Billing.DebitsAreTokensUsed` | atoma-proxy/src/server/handlers/mod.rs:148-190 | after any run, a user's debits plus queued amounts are the tokens used, input at the input price and output at the output price, settlement by settlement |
| `Billing.UsageIsFiledUnderDay` | atoma-state/src/state_manager.rs:4707-4735 | handling a settlement changes the usage row of its user, model and day, by its four counts, and no other |
| `Billing.FundsArePaidIn` | atoma-state/src/state_manager.rs:4599-4673 | no reservation or settlement changes a user's funds |
| `Billing.FiatGrantedIff` | atoma-state/src/state_manager.rs:4599-4623 | a reservation is granted iff the funds cover its price on top of the debits and of all unsettled estimates |
| `Ledgers.ReachableIsSound` | atoma-state/src/state_manager.rs:222-277 | the joint invariant of the three ledgers holds in every reachable state |
| `Ledgers.EveryRunIsSound` | atoma-state/src/state_manager.rs:222-277 | the joint invariant holds after every run of every interleaving |
| `Ledgers.StepKeepsSound` | atoma-state/src/state_manager.rs:222-277 | every single step keeps the joint invariant |
| `LockedUnits.RunKeepsUnitsNonNegative` | atoma-proxy/src/server/handlers/nodes.rs:295-299 | no holder of units ever holds a negative number in a run without negative demands |
| `Ledgers.RunKeepsReconciled` | atoma-proxy/src/server/middleware.rs:1334-1351 | the fiat reservations stay reconciled with the estimates in a run without overflow |
| `StackTable.Table.ReserveUnits` | atoma-state/src/state_manager.rs:400-529 | what the five reserving statements share: exactly the units asked for go to one row that meets the WHERE clause, and nothing changes iff none does |
| `StackTable.Table.GetStacksForModel` | atoma-state/src/state_manager.rs:400-467 | on the rows: reserves on an unclaimed, open stack of that user for the model, outside its settle period, with room and without a claimed ticket; none iff there is no such row |
| `StackTable.Table.GetStacksForTask` | atoma-state/src/state_manager.rs:496-529 | on the rows: reserves on an unclaimed, open stack of that user for the task, outside its settle period, with room; none iff there is no such row |
| `StackTable.Table.SelectNodePublicKeyForEncryption` | atoma-state/src/state_manager.rs:764-814 | on the rows: reserves on a cheapest unclaimed, open stack of that user for a live confidential task of the model, with room, on a node with keys; none iff there is no such row |
| `StackTable.Table.GetAvailableStackWithComputeUnits` | atoma-state/src/state_manager.rs:2063-2090 | reserves on that very stack iff it has that owner, room, and is outside its settle period |
| `StackTable.Table.LockComputeUnits` | atoma-state/src/state_manager.rs:2128-2151 | reserves on that very stack iff it has room |
| `StackTable.Table.UpdateStackNumTokens` | atoma-state/src/state_manager.rs:2306-2332 | moves three counters of one row by the total and the estimate, or changes nothing if the row is missing or the constraint fails |
| `StackTable.Table.InsertNewStack` | atoma-state/src/handlers.rs:565-585 | inserts an open, unused row of the buyer with the units locked iff the id is new and the units fit |
| `StackTable.Table.LockStack` | atoma-state/src/state_manager.rs:2264-2272 | closes one stack to reservations and touches no counter |
| `StackTable.ReservationFits` | atoma-state/src/state_manager.rs:2063-2151 | each of the five WHERE clauses leaves room for what it reserves |
| `StackTable.CheapestExists` | atoma-state/src/state_manager.rs:764-814 | if a row matches, a cheapest one does |
| `StackTable.SettlementRefusedIff` | atoma-state/src/migrations/20250403075604_locked_compute_units-stacks.sql:7-9 | a settlement is refused iff it overruns its estimate by more than the stack has left |
| `UnitProtocol.StepKeepsBalance` | atoma-proxy/src/server/middleware.rs:2658-2709 | every step moves units between request, heap, queue and losses, making and losing none |
| `UnitProtocol.StepHolds` | atoma-proxy/src/server/handlers/mod.rs:88-110 | what a step adds to the units held on any stack is what a reservation adds to its row, else nothing |
| `UnitProtocol.ConsumeKeepsBalance` | atoma-state/src/state_manager.rs:2306-2332 | consuming an event, accepted or refused, keeps the units accounted for |
| `UnitProtocol.BuyKeepsBalance` | atoma-state/src/handlers.rs:565-585 | so does recording a bought stack |
| `UnitProtocol.ConsumeKeepsBilled` | atoma-state/src/state_manager.rs:2306-2332 | and the computed units stay the sum of what was billed |
| `UnitProtocol.StepBills` | atoma-proxy/src/server/handlers/mod.rs:88-110 | a step bills a stack exactly the total of the request that finishes in it, if any |
| `UnitProtocol.StepKeepsFit` | atoma-state/src/state_manager.rs:400-529 | no step over-commits a stack |
| `UnitProtocol.StepKeepsNonNegative` | atoma-proxy/src/server/handlers/nodes.rs:497-518 | no step makes a holder negative if no negative number is asked for and every lock is covered by its reservation |
| `UnitProtocol.LockedNotNegative` | atoma-state/src/state_manager.rs:2306-2332 | accounted and non-negative holdings make locked units non-negative and cover each request and each lock |
| `UnitProtocol.ConsumeKeepsWithinEstimates` | atoma-state/src/state_manager.rs:2306-2332 | a settlement within its estimate on a known stack is never refused |
| `UnitProtocol.CastIsNonNegativeIff` | atoma-proxy/src/server/middleware.rs:571-576 | a u64 count cast to i64 is non-negative iff it is below 2^63 |
| `UnitProtocol.PruningIsSteps` | atoma-proxy/src/server/middleware.rs:2668-2682 | what a pruning pass does to a heap and the channel is what as many single prune steps do |
| `UnitProtocol.SearchIsSteps` | atoma-proxy/src/server/middleware.rs:2658-2709 | a successful search is those prune steps followed by one take step |
| `UnitProtocol.PushIsPark` | atoma-proxy/src/server/handlers/nodes.rs:501-518 | pushing a lock on a heap is the step that parks its reservation, and touches no other heap |
| `UnitProtocol.SweepIsSteps` | atoma-proxy/src/server/handlers/nodes.rs:525-547 | a sweep, complete or stopped, is the prune steps of the heaps it reached, with the same events |
| `UnitProtocol.SweptIsSteps` | atoma-proxy/src/server/handlers/nodes.rs:525-547 | what the sweep leaves in all heaps is what those steps leave, and after a complete one no expired lock is left |
| `UnitProtocol.LocksLeaveOnlyWhen` | atoma-proxy/src/server/middleware.rs:2668-2707 | a lock leaves its heap only released after it expired, earliest first, or taken unexpired by a request it is large enough for |
| `LockHeaps.LockTable.FindStacksMeetingCriteriaAndPrune` | atoma-proxy/src/server/middleware.rs:2658-2709 | on every exit, old heap = released + taken + remaining, one event per released lock with its units, no empty heap left, other heaps untouched |
| `LockHeaps.FoundIffOneQualifies` | atoma-proxy/src/server/middleware.rs:2684-2707 | the search succeeds iff an unexpired lock with enough units was there; what is left is the heap minus all expired locks minus the one taken |
| `LockHeaps.PruneHeap` | atoma-proxy/src/server/middleware.rs:2668-2682 | the peek/pop loop releases expired locks only, earliest first, and all of them unless a send fails |
| `LockHeaps.LockTable.PruneComputeUnitsInMemory` | atoma-proxy/src/server/handlers/nodes.rs:525-547 | the sweep prunes each heap at most once; it stops only at a failed send, and then only that heap still holds an expired lock |
| `LockHeaps.TakeFirst` | atoma-proxy/src/server/middleware.rs:2690-2700 | takes exactly one lock with enough units iff there is one, and keeps the others |
| `LockHeaps.Peek` | atoma-proxy/src/server/http_server.rs:80-88 | an entry that expires first and, among those, holds the fewest units |
| `LockHeaps.LockTable.Push` | atoma-proxy/src/server/handlers/nodes.rs:501-518 | adds one lock to one heap, creating the heap if needed |
| `LockHeaps.PopKeepsPruning` | atoma-proxy/src/server/middleware.rs:2670-2682 | popping a least expired lock after releasing it keeps the pruning invariant |
| `Purchase.LockGuard.TryLock` | atoma-proxy/src/server/middleware.rs:2932-2948 | gives a guard and enters the key iff the key is vacant |
| `Purchase.LockGuard.Drop` | atoma-proxy/src/server/middleware.rs:2956-2967 | removes exactly its own key |
| `Purchase.CryptoBalances.TopUpCryptoBalance` | atoma-state/src/state_manager.rs:4420-4434 | upserts the balance, or changes nothing if the constraint fails |
| `Purchase.CryptoBalances.DeductFromUsdc` | atoma-state/src/state_manager.rs:4454-4465 | deducts iff the row exists and covers the amount; balances stay non-negative |
| `Purchase.CryptoBalances.RefundUsdc` | atoma-state/src/state_manager.rs:4485-4495 | raises the balance of an existing row |
| `Purchase.RefundUndoesDeduct` | atoma-proxy/src/server/middleware.rs:1648-1676 | a refund gives back exactly what the deduction took, also when the balance changed in between |
| `Purchase.PriceOfPurchase` | atoma-auth/src/sui/mod.rs:200-201 | the amounts deducted, refunded and requested from the wallet agree for every price, and are the price itself iff the product fits a u64 |
| `Purchase.PaysIffAffordable` | atoma-state/src/state_manager.rs:4454-4465 | the deduction of a purchase succeeds iff the balance covers the price, takes exactly the price, and touches no other balance |
| `Purchase.CreditableIff` | atoma-auth/src/auth.rs:967-1042 | a payment is worth m iff its transaction names a sender and a receiver, the receiver is the proxy, and its own change is m, below 2^63 |
| `Purchase.StepKeepsExclusive` | atoma-proxy/src/server/middleware.rs:2172-2201 | every step keeps lock map and purchases in flight in one-to-one correspondence |
| `Purchase.StepConserves` | atoma-proxy/src/server/middleware.rs:1540-1676 | every step of a purchase or a claim keeps each user's money accounted for |
| `Purchase.TopUpConserves` | atoma-state/src/handlers.rs:1376-1381 | so does handling a top-up |
| `Purchase.RecordConserves` | atoma-proxy/src/server/middleware.rs:1734-1746 | and recording a bought stack, successfully or not |
| `Purchase.StepKeepsFunded` | atoma-state/src/state_manager.rs:4454-4495 | balances stay non-negative, and whoever is owed a refund has a row to receive it |
| `Purchase.StepKeepsUsedOnce` | atoma-auth/src/auth.rs:946-952 | a digest backs at most one claim or credit, and only after it was inserted |
| `Purchase.CreditsAreDistinct` | atoma-state/src/state_manager.rs:4514-4520 | two credits have different digests |
| `Purchase.CreditableIsNonNegative` | atoma-auth/src/auth.rs:1032-1041 | what a payment is credited with is never negative |
| `Purchase.GetStackIfLocked` | atoma-proxy/src/server/middleware.rs:1935-1974 | at most ten reserving lookups on a table others change in between; only the last can reserve, exactly the units asked for on one matching row; it succeeds iff one lookup finds a stack before any fails |
| `Fiat.FiatTables.LockUserFiatBalance` | atoma-state/src/state_manager.rs:4599-4623 | reserves both amounts iff the funds cover them on top of everything taken |
| `Fiat.FiatTables.UpdateRealAmountFiatBalance` | atoma-state/src/state_manager.rs:4641-4674 | settles one row, or reports that the user has none |
| `Fiat.FiatTables.UpdatePerDayTable` | atoma-state/src/state_manager.rs:4707-4735 | adds the four counts to the row of user, model and day |
| `Fiat.FiatTables.HandleUpdateStackNumTokensFiat` | atoma-state/src/handlers.rs:1448-1484 | settles the row and, with output tokens only, the usage; nothing at all for an unknown user |
| `Fiat.ReserveMatchesEstimate` | atoma-proxy/src/server/middleware.rs:1334-1339 | estimate and reservation name the same amount iff the product is below 2^63 |
| `Fiat.SettlementBills` | atoma-proxy/src/server/handlers/mod.rs:148-190 | a settlement is sent iff its four amounts fit an i64, and bills the tokens used, each side at its own price |
| `Fiat.UpdateStateManagerFiat` | atoma-proxy/src/server/handlers/mod.rs:136-200 | sends exactly that event, or nothing |
| `Fiat.ReservationIs` | atoma-proxy/src/server/middleware.rs:1334-1339 | without overflow, what is reserved is the tokens at their own price, rounded down |
| `Fiat.RollbackRestoresIff` | atoma-proxy/src/server/middleware.rs:417-449 | the rollback of a failed request restores the row iff neither product overflowed |
| `Fiat.RoundingBound` | atoma-proxy/src/server/middleware.rs:1334-1339 | over n reservations the floors never exceed the exact cost and fall short by less than 2n units |
| `Fiat.ReservedMonotone` | atoma-proxy/src/server/middleware.rs:1334-1339 | the amount reserved grows with the tokens |
| `Fiat.StepKeepsReconciled` | atoma-state/src/state_manager.rs:4599-4623 | reserving and settling keep the reserved amounts equal to the unsettled estimates |
| `Fiat.ConsumeKeepsReconciled` | atoma-state/src/state_manager.rs:4641-4674 | so does handling a settlement |
| `Fiat.StepKeepsSafe` | atoma-state/src/state_manager.rs:4599-4623 | a reservation never takes more than the funds cover |
| `Fiat.ConsumeKeepsSafe` | atoma-state/src/state_manager.rs:4641-4674 | a settlement exceeds the funds by no more than its own overrun |
| `Fiat.ConsumeKeepsGrouped` | atoma-state/src/state_manager.rs:4707-4735 | the usage rows stay the group-by sums of the log |
| `Fiat.ConsumeKeepsShown` | atoma-state/src/handlers.rs:1457-1484 | debits and usage rows stay reconciled |
| `Base64Url.WindowDecode` | atoma-auth/src/auth.rs:726-771 | decoding characters p to q of the text of b yields exactly bytes ceil(6p/8) to floor(6q/8) of b |
| `Base64Url.WindowPacksToSlice` | atoma-auth/src/auth.rs:726-771 | the same for a window of any length |
| `Base64Url.WholeTextRoundTrip` | atoma-auth/src/auth.rs:726-771 | decoding a whole text gives the bytes it encodes |
| `Base64Url.DecodesIff` | atoma-auth/src/auth.rs:726-771 | exactly which inputs are decoded, over all strings, offsets and both overflow modes |
| `Base64Url.TotalOnAlphabet` | atoma-auth/src/auth.rs:726-765 | on alphabet characters both drains stay in range and the bit count is a multiple of eight |
| `Base64Url.UnknownCharactersAreSkipped` | atoma-auth/src/auth.rs:687-705 | a text decodes to the bits of its alphabet characters alone |
| `Base64Url.FourStrayCharactersPass` | atoma-auth/src/auth.rs:687-705 | a text with characters outside the alphabet that is accepted |
| `Base64Url.MaskIsShift` | atoma-auth/src/auth.rs:715-718 | the weights the packing uses are the shifts of the code |
| `Base64Url.PackKeepsBits` | atoma-auth/src/auth.rs:709-723 | every packed byte holds the eight bits it came from, in order |
| `Base64Url.PackInvertsExpansion` | atoma-auth/src/auth.rs:709-723 | packing the bits of a byte slice gives the slice |
| `Base64Url.BitarrayToBytearray` | atoma-auth/src/auth.rs:709-723 | fails iff the bit count is no multiple of eight, and otherwise keeps every bit |
| `Base64Url.DecodeBase64Url` | atoma-auth/src/auth.rs:726-771 | the method with its in-place drains computes `Decode` |
| `Base64Url.PositionIsFind` | atoma-auth/src/auth.rs:687-705 | searching the alphabet finds the value of Table 2 of RFC 4648 |
| `Attestation.TicketRow.constructor` | atoma-state/src/types.rs:513-543 | both buffers hold the input, cut or padded with zeros to 32 bytes per requested node |
| `Attestation.Resized` | atoma-state/src/types.rs:517-521 | byte for byte the input, then zeros |
| `Attestation.TicketRow.UpdateWithAttestationCommitments` | atoma-state/src/state_manager.rs:2570-2635 | overwrites one slot of both buffers, or nothing, with the outcome of each error path |
| `Attestation.AcceptedIff` | atoma-state/src/state_manager.rs:2588-2610 | accepted iff the node's first position is not the last one and both parts have 32 bytes; a refused one changes nothing |
| `Attestation.RunKeepsLatest` | atoma-state/src/state_manager.rs:2588-2610 | after any run the buffers keep their size and each slot holds the latest commitment of its node, or what it held at first |
| `Attestation.SlotZeroIsNeverTouched` | atoma-state/src/types.rs:513-543 | after any run, bytes 0 to 31 of both buffers are those of the node that served the stack, padded with zeros |
| `Attestation.OnlyLatestMatters` | atoma-state/src/state_manager.rs:2588-2610 | runs with the same latest commitments end with the same buffers |
| `Attestation.DistinctNodesCommute` | atoma-state/src/state_manager.rs:2588-2610 | attestations of distinct nodes commute |
| `Coins.GetCoinsOfValue` | atoma-auth/src/sui/mod.rs:124-156 | the shortest non-empty prefix of the listing that covers the value, and none iff there is none |
| `Coins.PagingDoesNotMatter` | atoma-auth/src/sui/mod.rs:131-155 | the selection depends on the listing, not on its pages |
| `Coins.SucceedsIffWalletCovers` | atoma-auth/src/sui/mod.rs:124-156 | it succeeds iff the wallet has a coin and covers the value |
| `Coins.MergeIntoPrimary` | atoma-auth/src/sui/mod.rs:202-220 | the first coin exists, receives all others, and holds the total selected |
| `Payment.FindTransfer` | atoma-auth/src/auth.rs:967-999 | the loop computes `TransferOf` |
| `Payment.AcceptedIffNamed` | atoma-auth/src/auth.rs:967-999 | accepted iff the last negative and the last non-negative USDC change are address-owned and no earlier one on their side is; the money is the receiver's own change |
| `Payment.OwnedAcceptedIff` | atoma-auth/src/auth.rs:967-999 | if all USDC changes are address-owned: accepted iff exactly one is negative and exactly one is not |
| `Payment.OrderDoesNotMatter` | atoma-auth/src/auth.rs:967-999 | and then whatever their order |
| `Payment.OrderMattersOtherwise` | atoma-auth/src/auth.rs:967-999 | without that condition the order decides |
| `Payment.ScanDescribes` | atoma-auth/src/auth.rs:967-999 | what the three loop variables say about the changes seen, and when the loop returns early |
| `KeyRotation.KeyTables.InsertNewKeyRotation` | atoma-state/src/state_manager.rs:3251-3270 | upserts the rotation of an epoch |
| `KeyRotation.KeyTables.UpdateNodePublicKey` | atoma-state/src/state_manager.rs:3350-3389 | upserts the key of a node's device |
| `KeyRotation.EligibleAfterRotationIff` | atoma-state/src/state_manager.rs:643-704 | after a rotation to a new counter a node is eligible iff it has committed at that counter since and all its keys there are valid |
| `KeyRotation.RotationDisqualifiesAll` | atoma-state/src/state_manager.rs:643-704 | right after such a rotation no node is eligible |
| `KeyRotation.RotationStopsEncryption` | atoma-state/src/state_manager.rs:764-814 | and no stack is reserved for encryption |
| `KeyRotation.LatestStays` | atoma-state/src/state_manager.rs:3251-3270 | the rotation stays the latest until another exceeds it or rewrites its epoch |
| `KeyRotation.EligibleIffAllKeysEncrypt` | atoma-state/src/state_manager.rs:764-814 | a node is eligible iff it holds a key at the latest counter and every such key may be used for encryption |
| `KeyRotation.QueriesDisagree` | atoma-state/src/state_manager.rs:764-814 | a node whose key is handed out although the other query excludes it |
| `KeyRotation.SomeNodeIsCheapest` | atoma-state/src/state_manager.rs:643-704 | the query has an answer in every state |
| `KeyRotation.AnswerIsCheapestRow` | atoma-state/src/state_manager.rs:643-704 | an answer is a valid subscription to a live task of the model, at least price among those, and eligible if confidential |
| `KeyRotation.NoAnswerIffNoRow` | atoma-state/src/state_manager.rs:643-704 | no answer iff there is no such row |
| `KeyRotation.ConfidentialNeverCheaper` | atoma-state/src/state_manager.rs:643-704 | the confidential answer exists only if the plain one does, is never cheaper, and names an eligible node |

## Left out

- Tokio, axum, headers, HTTP forwarding, streaming: requests appear only through their protocol
  steps; a settlement is a step of the environment that ends a request in flight at most once,
  naming the estimate that was reserved, or zero for a confidential request.
- A message that never arrives because the state manager is gone: sends fail only in the heap
  loops, where the code handles it; elsewhere a request that dies with its units stays in flight.
- Sui RPC, gas, transaction building, signatures, zkLogin, JWT, hashing: a purchase on chain
  succeeds or fails, and whether a signature or wallet confirms a claim is a parameter.
- The SQL engine, and 64-bit overflow of table columns: every statement is an atomic update on
  maps of unbounded integers.
- Database failures inside handlers with several statements.
- Conservation on chain: if recording a bought stack fails, the buyer is refunded although the
  stack exists.
- GetCoinsOfValue: the running total is unbounded, because the u64 total of all coins of one
  type cannot overflow.
- DecodeBase64Url: ends before the UTF-8 check of the decoded bytes.
- WindowDecode: the 255-character limit of the code is a precondition; `WindowPacksToSlice` has
  none.
- UpdateWithAttestationCommitments: the list of attested nodes is extended at its end; the
  statement's JSON functions are not modelled.
- GetStacksForModel: the confidential branch of `get_stacks_for_model` joins on a column that the
  stack row does not have; only the other branch is modelled.
- SomeNodeIsCheapest: the query is a predicate on its answer, not a method, since the code only
  hands it to the database.
- `usage_per_model`: the handler passes amounts where the table counts tokens.
- Hourly statistics, Prometheus metrics, best-node caching, telemetry, configuration, OpenAPI.
- The lock request that loses the purchase race: its endpoint is rejected before any lookup
  (`atoma-proxy/src/server/middleware.rs:1887-1904`), so it takes no step.
