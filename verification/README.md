# Seat inventory, payments and events: a verified model

This project models the parts of the bus-ticketing platform that must not go wrong and proves
what they keep, over every input, every run and every interleaving:

- **Seats.** Each seat carries three bit masks over the segments of a trip (held, sold, blocked),
  with hold rows, hold items, counter quota and an event log beside them. The mask columns are
  shown to be an exact picture of a map that gives every (seat, segment) at most one owner.
- **Replacement bus.** The greedy remap over all passengers, and what its report is worth, alone and
  while the sale goes on.
- **Money.** Posting lists, chains of reschedules, proportional refunds and cash drawers.
- **The saga.** Payment row, seat confirmation and ticketing are separate commits; duplicates,
  cancellations, sweeps and crashes may fall between any two of them.
- **Smaller protocols.** Offline sale replay, refresh-token families, outbox relay and consumer
  checkpoints, the Redis wire format, coupon counters.

`dafny verify dfyconfig.toml` checks everything.

## How it is organised

| file | modules | content |
|---|---|---|
| Bits.dfy | Wrappers, Bits | masks as naturals read bit by bit; journeys |
| Inventory.dfy | Inventory | tables, and the whole effect of each transaction as one declarative function |
| Ownership.dfy | Ownership | the owner map and the refinement, operation by operation and over runs |
| Laws.dfy | Laws | what the refinement means for the tables and for callers |
| Effects.dfy | Effects | each inventory transaction spelled out in stops, rows and single mask bits |
| Replay.dfy | Replay | masks rebuilt from the event log against the live ones |
| Store.dfy | StoreLoops, InventoryStore | the transactions as methods on mutable tables: loops of conditional UPDATEs, inserts, rollback |
| Locking.dfy, Serial.dfy | Locking, Serializability | transactions interleaved UPDATE by UPDATE under row locks |
| Replacement.dfy, Traffic.dfy | RemapFacts, Replacement, RemapTraffic | the replacement bus, undisturbed and under traffic |
| Ledger.dfy | Ledger | double entry, refunds |
| Saga.dfy, SagaRuns.dfy, Settlement.dfy | SagaTables, Commerce, SagaRuns, Settlement | the commerce tables, the saga as a step machine, the handlers that run its steps |
| Payments.dfy | Payments | checks, payment rows, journals and refund rows in their columns, and where each row of a run comes from |
| Drawer.dfy | CashDrawer, DrawerRuns, Drawer | shifts and cash rows, over runs of the saga and statement by statement |
| Refunds.dfy | RefundRuns | overlapping cancellations and refund callbacks, account 2201 over runs |
| Witness.dfy | TwoSeats, SagaWitnesses, OfflineWitnesses, DrawerWitnesses | concrete runs from empty tables into the states that the promises do not cover |
| Offline.dfy, Overlap.dfy | OfflineSales, OfflineReplay, OfflineRuns | the offline queue, one flush and overlapping ones |
| Tokens.dfy | Tokens, Identity | refresh-token families and sessions |
| Bus.dfy | Backbone, EventBus | outbox relay, event log, checkpoints, dead letters |
| Resp.dfy | Resp, RedisClient | the wire format and its reader |
| Coupons.dfy | Coupons, PromoStore | coupon counters |

Every transaction exists twice on purpose: once as a function that gives its whole effect with one
guard for the whole request, and once as a method that does what the service does, statement by
statement. The method is proved to compute the function; the laws are proved about the function. That the function
does what its columns should say is stated a third time without naming it: every guard, amount, deadline and
effect in stops, bits, columns and literal constants (`Effects`, `Payments`, and the `...Is` and `...Iff`
lemmas and method contracts of the other modules).

## Assumptions

- One SQL statement is atomic, a transaction commits or rolls back as a whole, and log offsets are
  assigned in commit order. An UPDATE of one row waits while another transaction has it locked. An UPDATE
  of many refresh tokens locks, at the instant of its snapshot, the rows that nobody else has locked,
  waits for the others, and never sees a row that commits later (READ COMMITTED).
- The foreign key of a cash row makes its INSERT and a close of the same shift wait for each other, so a
  close is one step; which of them comes first is open.
- Identifiers drawn at random (holds, bookings, tokens, families, events) are inputs; where the
  tables have a primary key a collision is refused, otherwise the id is taken to be new.
- Sorting in Go and ORDER BY in SQL agree on seat numbers, which are modelled as ordered numbers.
- One booking per hold, as `CreateBooking` is used. Time is an input.
- Unique keys, checks and defaults are those of db/migrations (002, 003, 005, 007, 009, 010, 011, 013).

## Where the code promises less than one might read into it

Each is a lemma below, with the exact condition where there is one.

- `Reassign` looks an item up without looking at the hold's status. Called for a settled hold whose
  segments were sold again it leaves that sale without an owner; `Replace` can do so for a TICKETED booking
  whose cancellation released the seats and then died. Every run without such a call is covered, and
  `Replace` is proved for bookings whose holds are CONFIRMED when it starts. The comment that no seat
  changes hands silently (services/inventory/inventory/remap.go:12-16) holds under exactly that condition.
- The event replay never clears a sold bit, so it agrees with the live sold masks until a sold segment
  is taken back.
- `ErrHoldLost` is described as a defence; it cannot be reached.
- A total below the service fee of 5000 poisha (a large discount, a low counter price) is never booked:
  the operator's line is negative and the ledger refuses the journal, after the payment row and the
  seats have been committed. An offline sale of that kind is reported rejected with its seats sold.
- A process that dies after its payment row leaves the booking pending for good: redelivering the
  webhook is recognised as a duplicate and does nothing more.
- A reschedule to a cheaper departure credits refund payable without a refund row, so settling refunds
  never clears it (services/commerce/commerce/commerce.go:325-328 says that the refund path discharges it).
- Two cancellations of one booking that overlap both book a refund: the status is read before the first
  commit and never again, and neither refunds nor cancellations has a unique key.
- Two refund callbacks that overlap both discharge the refund: the REQUESTED row is read outside the
  transaction that settles it.
- A rotation that is uncommitted while reuse is handled, or while the user signs out everywhere, leaves a
  refresh token that still works; a rotation that commits between the two UPDATEs of a sign-out leaves a
  session that still works.
- The answer to a replayed token does not say that the family has ended: an error of the second UPDATE is
  ignored (services/identity/identity/identity.go:384-388). The theorems on reuse handling are about
  handling of which both UPDATEs took effect; otherwise it is a process that died after the first.
- The journal of a cash sale and its cash row are two commits, and the second does not ask whether the
  shift is open. Account 1001 and the drawer differ by the sale if the process dies in between; if the shift is
  closed in between, the row comes after the count and, when the cash was counted, the account is debited
  twice.
- A replayed sale may name a shift that is closed already: the cash row is added to a drawer that has
  been counted. An empty shift leaves a journal without a row.
- A cash settlement that read PAYMENT_PENDING before a webhook or another settlement finalised the booking
  inserts its cash row without a journal.
- A replayed sale that names an unknown or malformed shift is ticketed, paid and posted, its seats are
  sold, and it is reported and recorded as rejected.
- An offline sale whose process dies between claiming its reference and issuing its ticket is recorded as
  replayed for good, without a ticket, and from a point on with its seats sold.
- A repeated coupon claim for one booking moves the counters without adding a redemption; a per-user
  limit below one does not stop a first use.
- `WithdrawSeat` excludes only sold bits, so blocked may overlap held, and later sold, segments.

## Model

| member | source | states |
|---|---|---|
| Bits.JourneyBits | services/inventory/inventory/mask.go:41-46 | A journey mask exists exactly for 0 ≤ board < drop ≤ 62; it is non-empty, fits a signed 64-bit column and holds exactly the segments board..drop-1 |
| Bits.OverlapIsIntersection | services/inventory/inventory/mask.go:49-49 | Two journeys contend for a segment if and only if their stop intervals intersect |
| Bits.MaskToRange | services/api/httpapi/booking.go:384-398 | The loop returns the smallest interval around the set segments, (0, 1) for none, and exactly (board, drop) for the mask of a journey |
| Bits.Extensional | services/inventory/inventory/store.go:83-103 | A mask column is determined by its bits, so bit-wise reasoning about the masks is complete |
| Ownership.StepRefines | services/inventory/inventory/store.go:49-493 | Every operation that succeeds moves the abstract owner map exactly as its name says and keeps the mask columns an exact picture of it; every refused one changes nothing and logs nothing |
| Ownership.RunRefines | services/inventory/inventory/store.go:49-493 | After any run from empty tables the mask columns, hold items and quota rows are the picture of one owner per (seat, segment) |
| Ownership.RefinesAcquire | services/inventory/inventory/store.go:49-155 | A granted hold gives its holder exactly the requested segments of exactly the requested seats, all of which nobody owned |
| Ownership.RefinesSettling | services/inventory/inventory/store.go:160-445 | Confirm turns all of a hold’s segments from held to sold; release and cancellation free all of them; a call in the wrong state moves no segment |
| Ownership.RefinesSweep | services/inventory/inventory/store.go:453-493 | A sweep frees exactly the segments of the holds it picked and leaves every other hold alone |
| Ownership.RefinesAllocate | services/inventory/inventory/quota.go:42-108 | An allocation reserves exactly the requested segments for that counter, all of which nobody owned |
| Ownership.RefinesReturn | services/inventory/inventory/quota.go:111-153 | Returning quota frees exactly the segments that were still allocated to that counter under that mask |
| Ownership.RefinesSell | services/inventory/inventory/quota.go:163-251 | An offline sale turns exactly its reserved segments into sold ones |
| Ownership.RefinesReassign | services/inventory/inventory/remap.go:27-102 | A move carries exactly the hold’s segments from the old seat to the new one, where nobody owned them |
| Ownership.RefinesWithdraw | services/inventory/inventory/remap.go:107-142 | Withdrawing a seat changes no owner |
| Ownership.RefinesNewSeats | services/inventory/inventory/remap.go:146-188 | New seats have no owner and existing seats keep theirs |
| Ownership.FreeIsNobody | services/inventory/inventory/store.go:83-103 | A segment that passes the availability guard of the conditional UPDATE has no owner |
| Ownership.HeldIsNotSold | services/inventory/inventory/remap.go:66-79 | The guard of the old-seat UPDATE refuses to move a hold that is not yet confirmed |
| Laws.NoDoubleBooking | services/inventory/inventory/store.go:49-493 | After any run no two live hold items or allocations share a segment of a seat, the hold and sold masks are exactly the unions of the HELD and CONFIRMED items, and every allocation is blocked, unheld and unsold |
| Laws.OneOwnerPerSegment | services/inventory/inventory/store.go:83-103 | One owner per segment, read off the rows: items against items, items against quota, quota against quota |
| Laws.MasksMatchRows | services/inventory/inventory/store.go:83-103 | Hold and sold masks are exactly the unions of their items and disjoint; allocations lie inside blocked |
| Laws.AcquireIsExact | services/inventory/inventory/store.go:49-154 | AcquireHold succeeds if and only if the leg is valid and the seats are non-empty, distinct and all free for it; otherwise every table and the log are unchanged |
| Laws.HoldIsNeverLost | services/inventory/inventory/store.go:180-232 | ErrHoldLost cannot be reached: confirming a HELD hold always succeeds |
| Laws.QuotaIsAlwaysBlocked | services/inventory/inventory/quota.go:212-225 | The second ErrNotInQuota cannot be reached: an allocated seat is always still blocked |
| Laws.RaceHasOneWinner | services/inventory/inventory/store.go:160-493 | However confirms, releases and sweeps race for a hold, with any other operations in between, its final status is that of the first call that could settle it, and segment for segment everything it owned is then sold to it, still held, or none of it is owned |
| Laws.WinnerDecides | services/inventory/inventory/store.go:180-356 | The winning call moves every segment of the hold to sold, or frees every one, and moves no other segment |
| Laws.SettledStays | services/inventory/inventory/store.go:262-356 | A settled hold is not changed by any further confirm, release or sweep |
| Laws.StatusIsFinal | services/inventory/inventory/store.go:160-493 | Under any operation a hold that is not HELD keeps its row, except that ReleaseConfirmed settles a CONFIRMED one; a settled hold stays settled |
| Laws.WithdrawnStillSells | services/inventory/inventory/remap.go:107-142 | Withdrawing the seat of a HELD hold leaves its segments held and blocked; confirming the hold still succeeds and leaves them sold and blocked |
| Laws.ReassignKeepsOwnershipIff | services/inventory/inventory/remap.go:39-79 | Reassign keeps every sold segment owned if and only if it is not called for a settled hold whose old segments were sold again and whose new seat is free |
| TwoSeats.SomeRunStrands | services/inventory/inventory/remap.go:39-79 | Five ordinary operations from empty tables (open, acquire, release, acquire, confirm) reach a state in which Reassign for the released hold leaves a sale without an owner |
| Effects.AcquireOutcome | services/inventory/inventory/store.go:49-155 | The reply of AcquireHold in terms of stops, seats and rows: which of the four errors, or success exactly if the seats are distinct and vacant between the two stops and the id is new |
| Effects.AcquireRows | services/inventory/inventory/store.go:106-154 | A granted hold: its row is HELD with the deadline asked for, one item per seat, exactly the segments between the stops become held, and every other row and bit stays |
| Effects.ConfirmRows | services/inventory/inventory/store.go:160-258 | The replies, and that the segments of a HELD hold go from held to sold, its status to CONFIRMED, and nothing else changes |
| Effects.ReleaseRows | services/inventory/inventory/store.go:262-356 | The segments of a HELD hold stop being held, its status becomes RELEASED or, by the sweep, EXPIRED, and nothing else changes |
| Effects.UnsellRows | services/inventory/inventory/store.go:365-445 | The segments of a CONFIRMED hold stop being sold, its status becomes RELEASED, and nothing else changes |
| Effects.SweepRows | services/inventory/inventory/store.go:453-493 | A sweep changes only holds that are HELD with `expires < now`: their status, and their segments stop being held |
| Effects.DeadlineIsHonoured | services/inventory/inventory/store.go:460-465 | A hold acquired with deadline `e` keeps its row through any run of other operations and of sweeps at `now <= e` |
| Effects.FreeSeatsAreVacant | services/inventory/inventory/remap.go:192-215 | A seat counts as free for a leg exactly if no segment between the two stops is held, sold or blocked |
| Effects.AllocateOutcome | services/inventory/inventory/quota.go:42-76 | The reply of AllocateQuota in terms of stops, seats and rows, with its limit of eight seats |
| Effects.AllocateRows | services/inventory/inventory/quota.go:76-108 | Exactly the segments between the stops become blocked and the quota rows of these seats allocated |
| Effects.ReturnRows | services/inventory/inventory/quota.go:111-153 | Exactly the asked-for rows of this counter under this mask that are still allocated become released |
| Effects.ReturnBits | services/inventory/inventory/quota.go:111-153 | Exactly the segments of those rows stop being blocked |
| Effects.SellOutcome | services/inventory/inventory/quota.go:163-225 | The reply of SellQuota: success exactly if the leg is valid, the id new, and the seats are distinct and allocated to the counter for that leg |
| Effects.SellRows | services/inventory/inventory/quota.go:183-251 | An offline sale: a CONFIRMED hold with its items, quota rows sold, and its segments go from blocked to sold |
| Effects.ReassignOutcome | services/inventory/inventory/remap.go:27-79 | The reply of Reassign: which rows must exist, that the new seat is vacant on the item’s segments, and that the old seat has them sold |
| Effects.ReassignRows | services/inventory/inventory/remap.go:81-90 | The item moves to the new seat with its segments; no other item, hold or quota row changes |
| Effects.ReassignBits | services/inventory/inventory/remap.go:39-79 | Exactly the segments of the item stop being sold on the old seat and become sold on the new one |
| Effects.WithdrawRows | services/inventory/inventory/remap.go:107-142 | Every segment of the trip on that seat that is not sold becomes blocked, and nothing else changes |
| Effects.AddRows | services/inventory/inventory/remap.go:146-188 | A new seat is born vacant if it is for sale and with every segment blocked if not; existing seats keep their rows |
| Effects.OpenRows | services/inventory/inventory/trips.go:26-75 | The replies of OpenTrip, and its new seats, crew seats blocked on every segment |
| Replay.ReplayMasksFromEvents | services/inventory/inventory/trips.go:105-135 | The loop over the log computes, for every seat, the masks that the log determines |
| Replay.ReplayMatchesLive | services/inventory/inventory/trips.go:105-163 | After any run the rebuilt hold masks equal the live ones and the rebuilt sold masks contain the live ones, with equality when no sold segment was ever taken back |
| Replay.ReplayAgreesIff | services/inventory/inventory/trips.go:117-133 | From agreement, an operation keeps the rebuilt sold masks equal to the live ones if and only if it is neither a cancellation of a CONFIRMED hold with seats nor a Reassign whose item, old seat and new seat pass its guards |
| Replay.StepMirrors | services/inventory/inventory/trips.go:117-133 | The events an operation appends describe exactly what it did to the masks |
| Replay.BatchReplay | services/inventory/inventory/trips.go:117-133 | What a batch of events of one kind does to one segment; repeats do not matter |
| InventoryStore.Store.UpdateSeat | services/inventory/inventory/store.go:83-103 | The conditional UPDATE: the row moves and the rowcount is 1 if and only if the guard holds, else nothing changes |
| InventoryStore.Store.MoveSeats | services/inventory/inventory/store.go:83-103 | The loop of guarded UPDATEs completes if and only if the seats are distinct and all guards held at the start, and then has moved exactly them |
| InventoryStore.Store.AcquireHold | services/inventory/inventory/store.go:49-155 | Sorted loop, inserts and rollback leave exactly the tables, outcome and events of the declarative AcquireHold |
| InventoryStore.Store.ConfirmHold | services/inventory/inventory/store.go:160-258 | Status checks, loop and rollback leave exactly the tables, outcome and events of the declarative ConfirmHold |
| InventoryStore.Store.ReleaseHold | services/inventory/inventory/store.go:262-287 | Exactly the declarative release; a no-op for a hold that is not HELD |
| InventoryStore.Store.ReleaseBits | services/inventory/inventory/store.go:291-356 | All bits of all items leave the hold mask, the hold is RELEASED or EXPIRED, one event per seat |
| InventoryStore.Store.ReleaseConfirmed | services/inventory/inventory/store.go:365-445 | Exactly the declarative cancellation of a CONFIRMED hold; a no-op otherwise |
| InventoryStore.Store.SelectDue | services/inventory/inventory/store.go:460-480 | Picks distinct, unlocked holds that are HELD with `expires < now`, in deadline order, the earliest first, up to the limit and no fewer than there are |
| InventoryStore.Store.SweepExpired | services/inventory/inventory/store.go:453-493 | Every hold it changes was HELD with `expires < now`, is EXPIRED as a whole and keeps its other columns; every unlocked HELD hold with `expires < now` is expired when the limit leaves room |
| InventoryStore.Store.AllocateQuota | services/inventory/inventory/quota.go:42-108 | Exactly the declarative allocation, with rollback when one seat is taken |
| InventoryStore.Store.ReleaseQuota | services/inventory/inventory/quota.go:111-153 | Exactly the declarative return; seats that are not (or no longer) this counter’s are skipped |
| InventoryStore.Store.SellQuota | services/inventory/inventory/quota.go:163-251 | Exactly the declarative offline sale, with rollback when a seat is not the counter’s |
| InventoryStore.Store.Reassign | services/inventory/inventory/remap.go:27-102 | New seat first, old seat second, rollback in between: exactly the declarative move |
| InventoryStore.Store.WithdrawSeat | services/inventory/inventory/remap.go:107-142 | Blocks every segment of the seat that is not sold |
| InventoryStore.Store.AddSeats | services/inventory/inventory/remap.go:146-188 | Inserts exactly the missing seats and counts them |
| InventoryStore.Store.OpenTrip | services/inventory/inventory/trips.go:26-75 | Opens a trip once, with rollback when a seat key is taken |
| InventoryStore.Store.FreeSeats | services/inventory/inventory/remap.go:192-215 | Lists exactly the free seats for the leg, each once, ordered by their place in the layout |
| InventoryStore.Store.SeatMap | services/inventory/inventory/store.go:507-535 | Every seat of the trip exactly once in seat order; sold, held and blocked each say whether some requested segment is, available says that none is, which is when FreeSeats lists the seat |
| InventoryStore.Store.CountAvailable | services/inventory/inventory/store.go:538-550 | Counts exactly the seats FreeSeats lists |
| StoreLoops.OneMoreSeat | services/inventory/inventory/store.go:83-103 | One guarded UPDATE either extends the moved prefix or shows that the whole request must be refused, also for a seat named twice |
| StoreLoops.SortedRequest | services/inventory/inventory/store.go:67-72 | The sorted request is the ORDER BY of its seats and has a repeat exactly when the request has one |
| Locking.CommitIsStep | services/inventory/inventory/store.go:67-154 | A transaction that has worked off its request under row locks commits exactly the declarative effect on the tables of that moment |
| Locking.RefusalIsStep | services/inventory/inventory/store.go:83-103 | A transaction that finds no row rolls back exactly when its operation would be refused at that moment |
| Locking.RepeatIsRefused | services/inventory/inventory/store.go:83-103 | A seat named twice meets the transaction’s own uncommitted write and is refused |
| Locking.CommitElsewhere | services/inventory/inventory/store.go:189-239 | A commit invalidates no work that another running transaction has done so far |
| Locking.WaitsIff | services/inventory/inventory/store.go:83-103 | A transaction has to wait if and only if another running one has written the seat row, or locked the hold row, that its next statement needs; those on other seats and holds never wait for each other |
| Serializability.EveryScheduleIsSerial | services/inventory/inventory/store.go:67-104 | Any interleaving, UPDATE by UPDATE, of any number of AcquireHold, AllocateQuota, ConfirmHold, ReleaseHold and ReleaseConfirmed transactions leaves the tables and replies of running them one after the other in commit order |
| Serializability.NoDoubleBookingUnderConcurrency | services/inventory/inventory/store.go:67-104 | No interleaving books a segment twice or lets the masks differ from the rows |
| Serializability.NeverStuck | services/inventory/inventory/store.go:67-72 | In every reachable state with unfinished transactions one of them can take its next step: no deadlock |
| Serializability.WaitsUpwards | services/inventory/inventory/store.go:299-338 | Whoever holds the seat row that somebody waits for waits, if at all, for a greater seat |
| Replacement.Console.Replace | services/ops/ops/replacement.go:42-221 | The report lists every passenger once; a REMAPPED one owns the whole leg on a seat of the new bus and the commerce rows follow; a CONFLICT keeps the old seat and on return no seat of the new bus is free for that leg; on return every segment of every seat the new bus lacks is sold or blocked; a failure changes nothing |
| Replacement.Console.RemapAll | services/ops/ops/replacement.go:124-190 | The loop over the passengers keeps what was reported true while it moves the later ones |
| Replacement.Console.RemapAndWithdraw | services/ops/ops/replacement.go:90-198 | Remap loop and withdrawals together: the report is true on return, every passenger owns the leg where the report says, and the counts are those of the rows and the missing seats |
| Replacement.Console.SeatPassenger | services/ops/ops/replacement.go:124-190 | One passenger stays, moves with all commerce rows, or is a conflict; nobody else’s report becomes untrue |
| Replacement.Console.TryCandidates | services/ops/ops/replacement.go:137-155 | Without interference the first seat, by place in the layout, that is free for the leg and exists on the new bus is taken; none is moved only if there is none |
| Replacement.Console.WithdrawMissing | services/ops/ops/replacement.go:233-264 | Withdraws exactly the seats of the trip that the new bus does not sell |
| Replacement.Console.Occupied | services/ops/ops/replacement.go:90-122 | Every passenger of a live booking of the trip exactly once, the oldest booking first and then by seat |
| RemapFacts.MoveSucceeds | services/ops/ops/replacement.go:137-155 | A seat that FreeSeats lists for the leg is always granted to a confirmed hold that has another seat |
| RemapFacts.MoveFreesOnlyTheOld | services/ops/ops/replacement.go:124-190 | A move makes no seat available except the one it leaves, so a conflict stays a conflict |
| RemapFacts.MoveKeepsSeated | services/ops/ops/replacement.go:165-183 | Commerce’s seats and the hold’s items keep agreeing for every booking of the trip |
| RemapFacts.ChairIsOwned | services/ops/ops/replacement.go:90-122 | A booked chair of a confirmed booking owns its whole leg |
| RemapTraffic.ReportUnderTraffic | services/ops/ops/replacement.go:124-190 | With any inventory operations between the console’s steps: no segment gets two owners; every reported passenger whose booking still stands owns the whole leg on the reported seat, REMAPPED ones on the new bus; a CONFLICT means that no seat of the new bus was free throughout that passenger’s turn |
| RemapTraffic.RefusedIsTaken | services/ops/ops/replacement.go:143-155 | A candidate is lost only because the seat is not free any more, as long as the booking stands |
| RemapTraffic.UndisturbedTurn | services/ops/ops/replacement.go:137-163 | If nothing interferes after FreeSeats, the first listed seat of the new bus is granted without a retry, and a conflict means that none was listed |
| RemapTraffic.MomentsAreStates | services/ops/ops/replacement.go:137-155 | The moments a report row refers to are tables that the run went through |
| RemapTraffic.TrafficIsIncluded | services/ops/ops/replacement.go:124-190 | Before every step of the console the inventory can do whatever it can do in a run of its own |
| Ledger.EveryListBalances | services/commerce/commerce/commerce.go:259-302 | Every posting list balances for every total, so the balance assertion never fires |
| Ledger.SaleIsBookedIff | services/commerce/commerce/commerce.go:419-434 | The ledger accepts a sale or reschedule if and only if its totals cover the service fee of 5000 |
| Ledger.JournalIff | services/commerce/commerce/commerce.go:419-434 | A journal is refused if and only if a line is negative or the sides differ; zero lines are skipped |
| Ledger.SaleLines | services/commerce/commerce/channels.go:42-59 | The effect of a web, counter or agent sale on every account |
| Ledger.SaleSplit | services/commerce/commerce/commerce.go:259-270 | The parties share the whole price: the platform its fee and a tenth of the rest rounded down, the gateway one and a half percent rounded down; the worked example of 1200 taka |
| Ledger.RescheduleLines | services/commerce/commerce/commerce.go:279-302 | The effect of one reschedule on every account |
| Ledger.ChainTelescopes | services/commerce/commerce/commerce.go:279-302 | After a sale and any chain of reschedules, operator and platform hold what a direct sale at the last total gives them, and clearing plus fee minus refund payable is that total |
| Ledger.RefundSplit | services/commerce/commerce/cancellation.go:153-191 | The refund splits into two claw-backs that sum to it, are within what the sale credited each party and within one poisha of exact proportion; 100 percent reverses the split exactly |
| Ledger.RefundBounds | services/commerce/commerce/cancellation.go:87-88 | The refund lies between zero and the total, and is the total at 100 percent |
| Ledger.RefundFitsInt64 | services/commerce/commerce/cancellation.go:166-167 | No product overflows int64 up to a total of 3,000,000,000 |
| Ledger.CancelLines | services/commerce/commerce/cancellation.go:158-191 | The cancellation and settlement journals are always accepted, and their effect on every account |
| Ledger.RefundPayableClearsIff | services/commerce/commerce/cancellation.go:150-282 | After sale, reschedules, one cancellation and one settlement of its refund, refund payable is zero if and only if no reschedule was to a cheaper departure; the operator and the platform are never overdrawn |
| Drawer.Till.SettleCashSale | services/commerce/commerce/channels.go:66-126 | Payment row, seats, ticket with journal, and the cash row, each a commit of its own, leave what these steps of the machine leave; it fails for an id that is no shift although the booking is ticketed and posted; without a shift no row is due |
| Drawer.Till.CloseShift | services/commerce/commerce/channels.go:134-216 | Counts against float plus movements, records the variance in the shift row, the cash row and the journal, and refuses a shift that is not open |
| DrawerRuns.DrawerIsConservedIff | services/commerce/commerce/channels.go:66-216 | After any interleaving of cash settlements with webhooks, cancellations, inventory operations, openings, closes and crashes, exactly for every closed shift: float plus movements is the count plus the rows that came late, so they agree if and only if every row was inserted before the close; account 1001 moved by count minus float plus the journals whose row the count missed minus the counted rows without a journal, so it agrees if and only if these two sums do; all three sums are zero if and only if every row has its journal, every journal its row and both lie before the close, which is also exactly when drawer and account agree unless a fault of one kind hides one of the other; a second close changes nothing |
| DrawerRuns.DayBalances | services/commerce/commerce/channels.go:66-216 | In every reachable state, for each shift and over all: account 1001 is what moved in the drawer plus the journals without a row minus the rows without a journal; over all it is the account of the whole ledger |
| DrawerRuns.OneRowPerSale | services/commerce/commerce/channels.go:90-126 | In every reachable state no booking has two cash rows, and no two cash settlements of one booking got past the payment row |
| DrawerRuns.CloseBetweenCommits | services/commerce/commerce/channels.go:110-216 | A shift closed between the journal of a settlement and its cash row ends with a drawer above the count by the gross; if the clerk counted the cash that was taken, it is a variance as well and account 1001 is debited twice |
| DrawerRuns.MayCloseIff | services/commerce/commerce/channels.go:115-216 | Once every settlement that names an open shift has issued its ticket or stopped, closing it keeps the drawer at what was counted in every run that follows if and only if none of them has yet to insert its cash row |
| DrawerWitnesses.ClosedBetweenCommits | services/commerce/commerce/channels.go:110-216 | A run from empty tables with a close between the two commits: count 5000, drawer 10000, account 10000 |
| DrawerWitnesses.ReplayedIntoAClosedShift | services/api/httpapi/counter.go:594-594 | A run from empty tables in which a sale names a shift that is closed: count 0, drawer 5000, account 5000 |
| DrawerWitnesses.WebhookFinalisesFirst | services/commerce/commerce/commerce.go:358-365 | A run from empty tables in which a webhook finalises the booking of a cash settlement under way: count 5000, drawer 5000, account 0 |
| Commerce.Desk.InsertPayment | services/commerce/commerce/commerce.go:196-215 | At most one row per (provider, transaction id): the first one inserts, every other changes nothing |
| Commerce.Desk.Finalise | services/commerce/commerce/commerce.go:350-460 | Guarded status change, one ticket per seat and one journal, all or nothing |
| Commerce.Desk.PostLines | services/commerce/commerce/commerce.go:419-434 | The loop over the postings accepts exactly the lists the ledger accepts |
| Commerce.Desk.IssueTickets | services/commerce/commerce/commerce.go:402-410 | A ticket for every seat of the booking; existing tickets are untouched |
| Settlement.Channels.Settle | services/commerce/commerce/commerce.go:148-243 | Alone, a webhook, counter or agent settlement does exactly the four steps of its process; it reports success if and only if the request passes these checks, is the first of its payment id, the confirm succeeds and the fee is covered, and then the booking is ticketed |
| Settlement.SettlementTicketsIff | services/commerce/commerce/commerce.go:148-243 | Undisturbed, a payment for a pending booking tickets it if and only if the request passes the checks in its own columns (a webhook: signed, in BDT, over the due amount or else the total), no payment row has its key and its amount is positive, the hold is HELD or CONFIRMED, and the amounts cover the fee of 5000; otherwise the booking is as it was, and the payment row is written exactly when the first two hold |
| Payments.AdmitIff | services/commerce/commerce/commerce.go:160-190 | The check before the first write, in the columns of request and booking: signature, currency and amount of a webhook, PAYMENT_PENDING for a counter or an agency, TICKETED and not departed for a cancellation |
| Payments.SaleJournal | services/commerce/commerce/commerce.go:259-302 | The journal of a sale or reschedule is accepted exactly if the amounts cover the fee of 5000, and has exactly the stated effect on every account: fee and a tenth to the platform, the rest to the operator, one and a half percent for the gateway |
| Payments.FinaliseRows | services/commerce/commerce/commerce.go:350-460 | TICKETED, a VALID ticket for each seat that has none, and the journal; nothing else changes |
| Payments.CancellationRows | services/commerce/commerce/cancellation.go:85-235 | For a total from 5000 and a percentage from 0 to 100: one refund row over `r` with 0 ≤ total·pct − 100·r < 100, requested if `r > 0`; the status is then REFUND_PENDING, otherwise CANCELLED; the journal owes `r` to the passenger and takes it from operator and platform in proportion; every ticket is void |
| Payments.SettlementRows | services/commerce/commerce/cancellation.go:240-302 | The refund row is discharged, the booking REFUNDED, account 2201 cleared of exactly its amount from the gateway |
| Payments.RowsAreTraced | services/commerce/commerce/commerce.go:148-243 | In every reachable state: each payment row comes from a request that passed its checks (a webhook: signed, in BDT, over the due amount or else the total), each sale journal has the effect that such a request and its booking give, and each refund row is the stated part of its total, rounded down, for a cancellation before departure |
| Payments.LateSettlementWritesNothing | services/commerce/commerce/channels.go:66-88 | A counter or agent settlement that starts when its booking is not PAYMENT_PENDING any more never writes anything, whatever runs in between |
| Settlement.Channels.CancelBooking | services/commerce/commerce/cancellation.go:98-235 | Alone, a cancellation does exactly the three steps of its process; it succeeds if and only if the booking is TICKETED, its departure has not passed, its hold exists and the tables accept the refund, and then seats and money are those of the cancellation |
| Commerce.Desk.BookCancellation | services/commerce/commerce/cancellation.go:126-233 | Cancellation journal, refund row, status and voided tickets, all or nothing |
| Commerce.Desk.SettleRefund | services/commerce/commerce/cancellation.go:255-302 | Settlement journal, refund row and status, all or nothing |
| SagaRuns.SagaIsSafe | services/commerce/commerce/commerce.go:148-243 | Under any interleaving of duplicated and distinct webhooks, counter and agent settlements, cancellations, refunds, inventory operations and crashes: each booking is ticketed at most once, only after a payment, with one sale journal and exactly one ticket per seat; every journal balances; a TICKETED booking’s hold is CONFIRMED if and only if no cancellation has given its seats back |
| SagaRuns.TrafficIsIncluded | services/commerce/commerce/commerce.go:227-235 | Between any two commits of the saga the inventory can do whatever it can do in a guarded run of its own |
| SagaRuns.TicketedSeatsAreSold | services/commerce/commerce/commerce.go:227-235 | A TICKETED booking that nobody is cancelling owns every segment of its hold |
| SagaRuns.FirstPaymentWins | services/commerce/commerce/commerce.go:196-225 | The first payment of a (provider, transaction id) is never replaced in any later state |
| SagaRuns.DuplicateIsInert | services/commerce/commerce/commerce.go:213-225 | A process whose payment already exists never gets past the payment step, whatever runs in between |
| SagaRuns.RedeliveryNeverTickets | services/commerce/commerce/commerce.go:213-225 | If a process dies after its payment row, no number of redeliveries of that payment tickets the booking |
| SagaRuns.FinishKeeps | services/commerce/commerce/commerce.go:350-460 | Finalise keeps the invariant of the saga at any moment of any interleaving |
| SagaRuns.ReleaseKeeps | services/commerce/commerce/cancellation.go:119-123 | A cancellation’s release takes back only the seats of the booking it cancels |
| RefundRuns.CancellationsRefundOnceIff | services/commerce/commerce/cancellation.go:98-235 | From every reachable state with the booking TICKETED and not refunded: it is refunded at most once in every run, with crashes, if and only if no two cancellations of it are under way that were not refused for departure and whose refund the tables accept |
| RefundRuns.OverlappingCancellationsRefundTwice | services/commerce/commerce/cancellation.go:98-235 | Two such cancellations have a schedule that adds exactly their two refund rows, zero refunds included |
| RefundRuns.SettledOnceIff | services/commerce/commerce/cancellation.go:240-302 | From every reachable state with a REQUESTED refund: it is settled at most once in every run if and only if no two refund callbacks have read its row or can still read it |
| RefundRuns.OverlappingCallbacksSettleTwice | services/commerce/commerce/cancellation.go:240-302 | Two such callbacks have a schedule that discharges the refund twice |
| RefundRuns.RefundPayableOverRuns | services/commerce/commerce/cancellation.go:150-282 | In every reachable state account 2201 of a booking shows the amounts of its refund rows, each as often as it is not settled, and beside that only what a reschedule to a cheaper departure credited |
| RefundRuns.SettledOnceClears | services/commerce/commerce/cancellation.go:240-302 | When every row with an amount was settled, they owe nothing together if and only if none was settled twice; otherwise 2201 is overdrawn |
| SagaWitnesses.SomeBookingIsRefundedTwice | services/commerce/commerce/cancellation.go:98-235 | A run from empty tables (open, hold, book, pay, ticket, two cancellations) ends with two refund rows of one booking |
| SagaWitnesses.SomeRefundIsSettledTwice | services/commerce/commerce/cancellation.go:240-302 | A run from empty tables discharges one refund twice |
| SagaWitnesses.SomeTicketStrands | services/commerce/commerce/cancellation.go:119-123 | A run from empty tables in which a cancellation dies after giving the seat back, the seat is sold again, and moving the still TICKETED booking would strand that sale |
| OfflineReplay.Terminal.ReplayQueue | services/api/httpapi/counter.go:494-565 | The loop leaves the state and the answers of handling the deliveries one by one |
| OfflineReplay.Terminal.ReplayOne | services/api/httpapi/counter.go:567-601 | Seats, booking, payment, ticket with journal, and cash row of one sale, and whether it is reported as done |
| OfflineSales.FlushIsIdempotent | services/api/httpapi/counter.go:508-562 | Any number of flushes, with repeats and partial prefixes, leaves what handling each client_ref once in first-arrival order leaves |
| OfflineSales.SellIsExact | services/inventory/inventory/quota.go:163-251 | SellQuota succeeds if and only if the seats are distinct and all allocated to the counter for the leg; none is allocated afterwards; a refusal changes nothing |
| OfflineSales.ForeignSeatsChangeNothing | services/api/httpapi/counter.go:567-577 | A sale naming a seat or leg that is not the counter’s changes nothing but the row of its reference |
| OfflineSales.FlushRefines | services/api/httpapi/counter.go:508-562 | Replays book no segment twice, with or without crashes |
| OfflineSales.OneSalePerAllocation | services/inventory/inventory/quota.go:196-225 | No allocation of a quota seat is sold twice within any flushes, with or without crashes |
| OfflineSales.RecordedSaleIff | services/api/httpapi/counter.go:508-601 | Whatever else is flushed before or after, as often as one likes: a reference is recorded REPLAYED and stands for a TICKETED booking if and only if the sale got its seats, its total covers the fee, the process did not die between the claim and the ticket, and the shift it names, if any, exists or the process died before it could record otherwise; the row names the booking if and only if, besides, it did not die at all; a sale is recorded REJECTED although it is TICKETED if and only if nothing is wrong with it but its shift |
| OfflineSales.HandleOutcome | services/api/httpapi/counter.go:508-601 | For every point at which the process can die and every shift that a sale may name: the row, the booking and its ticket, the cash row, and whose the seats are |
| OfflineRuns.OverlappingFlushesSellOnce | services/api/httpapi/counter.go:508-601 | When several flushes overlap commit by commit, with crashes, inventory traffic and shifts opened and closed, no reference is given seats twice, no two requests work on one reference, a row that names a booking names a TICKETED one, no booking gets two cash rows, and no segment is booked twice |
| OfflineRuns.AloneIsHandle | services/api/httpapi/counter.go:508-601 | The commits of a request that nobody disturbs, from the claim over the cash row to the record, leave exactly what handling its delivery leaves |
| OfflineRuns.TrafficIsIncluded | services/api/httpapi/counter.go:508-601 | Between any two commits of a flush the inventory can do whatever it can do in a guarded run of its own |
| OfflineRuns.ShiftsAreIncluded | services/commerce/commerce/channels.go:134-216 | Shifts open and are counted between any two commits of a flush, against the float and the rows of that moment |
| OfflineSales.SaleRows | services/api/httpapi/counter.go:567-601 | What the first delivery of a sale writes to the commerce tables, row by row, for every point at which the process can die: booking, payment, tickets and sale journal, each exactly when it is reached and accepted |
| OfflineSales.RepeatIsAnswered | services/api/httpapi/counter.go:508-543 | A reference that is known is answered from its row and nothing is written |
| OfflineSales.SeatsTakenButRejectedIff | services/api/httpapi/counter.go:544-601 | A sale that got its seats is booked if and only if its total covers the service fee and the shift it names, if any, exists; otherwise it is reported rejected although the seats stay sold to it, and it is TICKETED all the same if the total covers the fee |
| OfflineWitnesses.SomeTicketIsRejected | services/api/httpapi/counter.go:544-601 | From a run of two inventory operations: a sale that names an unknown shift is TICKETED and recorded REJECTED, whatever else is flushed |
| OfflineWitnesses.SomeRunRejectsATicket | services/api/httpapi/counter.go:544-601 | The same outcome by a run of single commits |
| Tokens.FamiliesAreChains | services/identity/identity/identity.go:362-448 | Under any interleaving of sign-ins, refreshes, revocations and crashes each family is a chain in which exactly the last token is unused, at most one token of it can refresh, and at most one rotation of a token is uncommitted |
| Tokens.RotationExtends | services/identity/identity/identity.go:410-440 | Only the last token of a chain rotates, and it gets exactly one successor |
| Tokens.ReuseEndsFamilyIff | services/identity/identity/identity.go:378-391 | Reuse handling of which both UPDATEs took effect has ended the family, in every run, if and only if no rotation of the family was between its UPDATE and its commit when the revoking UPDATE took its snapshot |
| Tokens.SuccessorIsMissed | services/identity/identity/identity.go:378-440 | In that case the token it inserts can still refresh after the handling has completed |
| Tokens.SomeReuseIsSurvived | services/identity/identity/identity.go:378-440 | A run from empty tables in which reuse is detected and handled and the family can still refresh |
| Tokens.EndedForGood | services/identity/identity/identity.go:362-448 | Once a family has ended, in every later state no token of it refreshes and none of its sessions authenticates |
| Tokens.DeadStaysDead | services/identity/identity/identity.go:362-448 | No sign-in, refresh, revocation or crash brings a revoked family back |
| Tokens.SignOutEndsFamilyIff | services/identity/identity/identity.go:511-528 | Signing out everywhere has ended a family of the user if and only if no rotation of it was in flight at its second snapshot and every session of it was revoked or seen by its first |
| Tokens.ReadDecides | services/identity/identity/identity.go:362-394 | What the read of a refresh decides, in the columns of the token row |
| Tokens.RefreshAlone | services/identity/identity/identity.go:362-448 | The steps of a refresh that nobody disturbs, some seconds later, leave what one call at that moment leaves, expiry included |
| Tokens.SignOutAlone | services/identity/identity/identity.go:511-528 | The steps of signing out everywhere leave, undisturbed, what one call leaves |
| Tokens.ExpiredNeverRefreshes | services/identity/identity/identity.go:392-394 | Under any interleaving an attempt that reads its token after the expiry never adds a token or a session |
| Tokens.TermsAreKept | services/identity/identity/identity.go:313-448 | In every reachable state no session is good for more than 30 minutes and no refresh token for more than 30 days from now |
| Tokens.LoggedOutForGood | services/identity/identity/identity.go:504-509 | A session that was logged out never authenticates again |
| Identity.Service.SignIn | services/identity/identity/identity.go:313-354 | A session for 30 minutes and the first token of a family for 30 days, or nothing if an id is taken |
| Identity.Service.Refresh | services/identity/identity/identity.go:362-448 | Issues if and only if the row exists, is unused and unrevoked, has `now <= expires`, and the new ids are free: the old token is then used, the new one is good for 30 days and the session for 30 minutes; a used token revokes every token and session of its family and of no other; anything else changes nothing |
| Identity.Service.Authenticate | services/identity/identity/identity.go:451-467 | Resolves exactly the sessions that exist, are unrevoked and have `now < expires`, to their user |
| Identity.Service.SignOutEverywhere | services/identity/identity/identity.go:511-528 | Revokes exactly the sessions and the refresh tokens of the user, whatever their family |
| Backbone.BackboneIsSound | services/events/events/bus.go:91-298 | Over any run with crashes: offsets increase, no event id is in the log twice, every marked outbox row is in the log or rejected, every matching event at or below a checkpoint was handled or dead-lettered, and every fact is that of its event |
| Backbone.PositionNeverFalls | services/events/events/bus.go:264-270 | The checkpoint of a group never falls |
| Backbone.CompletedBatchAdvances | services/events/events/bus.go:236-270 | A completed non-empty batch ends beyond its checkpoint even if every handler call failed |
| Backbone.OneFactPerHandledEvent | services/analytics/analytics/analytics.go:43-57 | However often events are delivered, retried and replayed, and even if handlers act and then fail: exactly one fact per event that a handler acted on, every handled event among them, and no other fact if no handler fails after acting |
| Backbone.RevenueCountsOnce | services/analytics/analytics/analytics.go:41-57 | After any run with crashes, redeliveries, retries and replays the facts of a consumer add up to the amounts of the distinct events of the log that it acted on |
| Backbone.RelayEmptiesTheOutbox | services/events/events/bus.go:115-157 | A relay with room for all rows and no competitor marks every row, and each is then in the log or rejected; which of the two is Backbone.RelayedRow |
| Backbone.RelayedRow | services/events/events/bus.go:131-157 | A malformed event is rejected and enters no log; a sound one enters the log with its topic and fact unless its id is there, and is not rejected; the row is marked |
| Backbone.RegistryDecides | services/events/events/bus.go:115-157 | Over any run with one registry: the log holds only sound events with topic and fact of their outbox row, only malformed events are rejected, and a marked row is in the log exactly if it is sound and rejected exactly if not |
| Backbone.ClaimedIs | services/events/events/bus.go:115-130 | A relay claims exactly the first unpublished rows that nobody has locked, in order, up to the batch size and no fewer than there are |
| Backbone.AppendedIsRelayed | services/events/events/bus.go:91-157 | In every reachable state an appended event is in the log or rejected after the next relay with room |
| Backbone.TrySettles | services/events/events/bus.go:236-260 | Up to three calls and a dead letter settle an event, whatever the handler does |
| Backbone.AfterIsBatch | services/events/events/bus.go:208-229 | A batch is exactly the matching rows between the checkpoint and its last offset |
| Backbone.AfterIsExact | services/events/events/bus.go:208-229 | A batch is exactly the oldest events that wait behind the checkpoint, in order, as many as the limit allows and no fewer than there are |
| Backbone.DeliveryMakesProgress | services/events/events/bus.go:177-271 | One uninterrupted delivery settles every waiting event up to the new checkpoint; the checkpoint moves if and only if something waited, exactly to the last event of the batch, and leaves something waiting only if the batch was full |
| Backbone.DeathRedelivers | services/events/events/bus.go:177-229 | After a consumer died in the middle of a batch the next delivery starts again at the checkpoint, with every event that still waits there |
| Backbone.ReplayedIs | services/events/events/bus.go:276-298 | Replaying an event any number of times adds at most one fact, counts as handled if some call succeeds, and moves no checkpoint |
| Backbone.DeliveryIsARun | services/events/events/bus.go:177-271 | An uninterrupted delivery is a run of the step machine |
| EventBus.Bus.Relay | services/events/events/bus.go:115-157 | Claims, checks, publishes or rejects, and marks the rows of one source, row by row as in Backbone.RelayedRow |
| EventBus.Bus.Handle | services/events/events/bus.go:236-260 | The retry loop: handled exactly if one of the first three calls succeeds, dead-lettered exactly if none does |
| EventBus.Bus.HandleBatch | services/events/events/bus.go:236-260 | Every event of the batch is tried in order and counted as delivered exactly if a call succeeded |
| EventBus.Bus.DeliverOne | services/events/events/bus.go:177-271 | The events after the checkpoint, up to the limit, are handled in order, counted by outcome, and the checkpoint moves to the last one |
| Resp.CommandRoundTrip | services/platform/cache/redis.go:104-108 | Whatever bytes the arguments hold, CR LF included, what is written is read back as the arguments, and nothing of what follows is consumed |
| Resp.ReplyRoundTrip | services/platform/cache/redis.go:122-168 | Every sendable reply tree, followed by anything, is read back exactly, up to exactly its end |
| Resp.AtoiOfFormat | services/platform/cache/redis.go:136-160 | A printed number is parsed back exactly when it fits int64 |
| Resp.LineDecides | services/platform/cache/redis.go:122-168 | What the first line makes of the bytes after it, malformed input included: empty line, error reply, unknown kind, no number, negative length, short bulk |
| Resp.AtoiRejects | services/platform/cache/redis.go:136-160 | A number is an optional sign and at least one decimal digit, and nothing else |
| RedisClient.Connection.ReadFull | services/platform/cache/redis.go:170-180 | Fills the buffer with the next bytes if and only if there are enough, however they arrive |
| RedisClient.Connection.ReadLine | services/platform/cache/redis.go:123-126 | The bytes up to and including the first newline, or an error at the end of the stream |
| RedisClient.Connection.ReadReply | services/platform/cache/redis.go:122-168 | Reads the reply that the byte stream determines and consumes exactly it, for every way the bytes arrive in pieces; the recursion terminates |
| RedisClient.Write | services/platform/cache/redis.go:104-108 | The builder holds the command in wire form |
| Coupons.DiscountBounds | services/promo/promo/promo.go:89-101 | A discount never exceeds the amount or the cap, and is negative exactly when the flat part outweighs the percentage |
| Coupons.DiscountIs | services/promo/promo/promo.go:89-101 | The discount is the flat part plus the percentage rounded down, or the cap or the amount if that is less |
| Coupons.RefusalIs | services/promo/promo/promo.go:103-135 | Each refusal in the columns of campaign and checkout: inactive, outside its window, below the minimum amount, out of scope, and otherwise eligible exactly if the cap is not reached |
| Coupons.ReleaseUndoesClaim | services/promo/promo/promo.go:158-270 | Claiming for a booking and releasing it leaves every campaign, counter and redemption as before |
| Coupons.ClaimCountsIff | services/promo/promo/promo.go:175-206 | A claim keeps the counters equal to the redemption rows if and only if the booking had not redeemed that campaign; a refusal changes nothing |
| Coupons.ClaimLimitedIff | services/promo/promo/promo.go:175-198 | A claim keeps the cap and the allowances unless it is a first use of an open campaign that allows none |
| Coupons.ReleaseCounts | services/promo/promo/promo.go:229-270 | A release deletes exactly the redemptions of the booking, keeps the counters equal to the rows, and repeating it changes nothing |
| Coupons.FloorsNeverBind | services/promo/promo/promo.go:256-268 | The GREATEST(…, 0) floors never bind |
| Coupons.CampaignAddsUp | services/promo/promo/promo.go:175-198 | The per-user counters of a campaign add up to its redemption count |
| Coupons.CouponsAreConserved | services/promo/promo/promo.go:158-270 | After any run of claims and releases with fresh bookings, counters equal rows and stay within cap and allowance |
| Coupons.ExactlyTheCap | services/promo/promo/promo.go:154-206 | However many users race for a capped code, exactly as many redemptions are recorded as the cap has left, or as there are users |
| Coupons.EligibleClaimIff | services/promo/promo/promo.go:106-198 | If nothing changed since the campaign was loaded, a claim that passes the checks is refused only because the user’s allowance is spent |
| PromoStore.Store.Claim | services/promo/promo/promo.go:106-225 | The checks in order on the loaded campaign; claimed if and only if they pass, the allowance is not spent and the campaign row still is active, in its window and under its cap; then both counters grow by one and the row is there, otherwise nothing changes |
| PromoStore.Store.Release | services/promo/promo/promo.go:229-270 | The loop over the deleted rows takes one off each of their two counters |

## Left out

- Locking.CommitIsStep: SweepExpired, ReleaseQuota, SellQuota and Reassign do not follow the lock order and are not part of the interleaving model; they are proved as whole transactions.
- Serializability.NeverStuck: says that some transaction can always go on, not that a given one is ever scheduled.
- Replacement.Console.Replace: no other operation interferes while it runs (RemapTraffic lifts this for the inventory, not for the commerce rows that follow a passenger); the rows of ops.replacements and ops.seat_remaps and the outbox event are not modelled, and a later ReleaseQuota, ReleaseConfirmed or Reassign can reopen a withdrawn segment.
- Replacement.Console.TryCandidates: that a listed seat can be lost before it is tried is in RemapTraffic.
- RemapTraffic.ReportUnderTraffic: nobody else moves the same passengers meanwhile, and the withdrawals after the loop are ordinary operations of the traffic.
- SagaRuns.SagaIsSafe: leaves out SettleReschedule, which tickets without ConfirmHold, the reschedule handler, which gives back the seats of a booking before it changes its status, and the commission journal of agent sales; the cash row of a counter sale is in DrawerRuns.
- Settlement.Channels.Settle: without the commission journal of an agent sale and the cash row of a counter sale; the latter is in Drawer.Till.SettleCashSale.
- Ownership.StepRefines: a Reassign that strands a sale is excluded; so it is in Ownership.RunRefines, Ownership.RefinesReassign, Laws.NoDoubleBooking and Replay.ReplayMatchesLive. Laws.ReassignKeepsOwnershipIff shows that nothing else need be excluded, TwoSeats.SomeRunStrands that it happens.
- DrawerRuns.DrawerIsConservedIff: which journal belongs to which shift is history of the run, as ledger lines name the counter only; PAY_IN, PAY_OUT and REFUND rows, which nothing writes, and the rule of one open shift per counter are not modelled.
- DrawerRuns.MayCloseIff: says nothing about shifts that are closed while a settlement has not issued its ticket yet; what then follows is in DrawerRuns.DrawerIsConservedIff.
- RefundRuns.CancellationsRefundOnceIff: the percentage of a cancellation is an input; the processes are those of the initial state, however many.
- Ledger.SaleLines: party references of the lines are not modelled.
- OfflineSales.FlushIsIdempotent: one request at a time; what overlapping ones keep is in OfflineRuns, without an end state to compare with.
- OfflineReplay.Terminal.ReplayOne: passengers, attribution, the audit row and failures of the database itself are not modelled.
- OfflineRuns.OverlappingFlushesSellOnce: the ids that requests draw are new and drawn once.
- Tokens.SignOutEndsFamilyIff: a sign-in is its commit; one that commits during a sign-out is after it.
- Backbone.BackboneIsSound: resolved_at of dead letters, the delivered and failed counters and the registry that decides which events are malformed are not modelled; the last is an input of each relay.
- Backbone.RegistryDecides: one registry throughout the run; an event that is malformed for one relay and sound for the next may be both rejected and published.
- Resp.CommandRoundTrip: a byte is a character; a length beyond what memory can hold is an ordinary failed read, also one within two of the int64 maximum, where the source overflows and panics (services/platform/cache/redis.go:143).
- Coupons.ClaimCountsIff: a claim without a booking id (a NULL key, which is never released) and changes to a campaign by staff are not modelled.
- Identity.Service.Refresh: hashing, devices and addresses are not modelled.
- Version columns, seat classes, price snapshots, hold channels and the default hold duration, outbox rows of inventory operations: plain data beside the masks.
- LiveMasks, ListQuota, QuoteCancellation's policy lookup, settlements between platform and operators, referrals, listings and dashboards: reads or easy members.
- Web and mobile clients, HTTP plumbing, notification delivery, searching, tracking, reconciliation, risk, staff administration, the connection pool: outside this model.
- Cryptography and randomness: a webhook's signature is a flag, tokens and codes are opaque numbers.
- `Drain` and the reschedule handler's promise to leave the original booking untouched on failure: the code does not guarantee either.
