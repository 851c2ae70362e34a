# Stock-move engine, moving-average valuation and voucher doors: a verified model

This project models the stock estate of an inventory service and proves what it promises over every run.

- **The estate** (`StockTypes`, `Engine`): moves with their chain links, move lines that mirror reservations, quants
  with `quantity` and `reserved`, one bin per item and warehouse over an append-only ledger. A verb is one transaction:
  it commits all its writes or, refused, none.
- **Reservation and lifecycle** (`Reservation`, `Invariants`, `Soundness`, `SoundDone`, `Runs`, `Guarantees`,
  `VerbContracts`, `VerbEffects`, `CancelCascade`): the invariants of every run, what a reservation guarantees, what each verb does.
- **Imperative layer** (`EngineLoops`, `StockService`): the stored rows as fields of a class, every verb and every loop
  proved against the function that specifies it.
- **Valuation** (`Rounding`, `Valuation`, `ValuationLaws`, `MoveGl`, `MoveReposts`): exact rationals with explicit
  rounding; drift bounds, conservation on drain, reversals, and the journal of a move and its repost at any later time.
- **Landed cost** (`LandedCost`, `LandedCostPlan`, `LandedCostBooks`, `LandedCostLoops`): the split, the tie-out, the
  revaluation, and when the journal is accepted.
- **Voucher doors** (`Frames`, `WholeMoves`, `Doors`, `DoorSoundness`, `DoorRuns`, `DoorWalks`, `Vouchers`,
  `LostRecords`, `DeliveryTotals`, `Resume`, `VoucherDoor`): receipts, deliveries and their cancellations as walks over
  engine verbs, with a crash, a retry or other activity between any two.
- **Convergence** (`Coverage`, `DoorVerbs`, `Forecast`, `Progress`, `DeadEnds`, `Convergence`): when a retried voucher
  closes, for each of the four kinds, and when it never does.
- **General-ledger protocol** (`GlProtocol`, `GlService`): submit, repost and cancel against a sink that keeps one
  journal per voucher and posting type.
- **Stock count** (`StockCount`): a staged count and the move that brings the stock to it.

Sums are over sequences and finite sets (`Common`); quantities and money are exact `real`s.

## What the stores answer

The SQL of the move, line and quant repositories enters as contracts (`Runs.Contract`): a created move gets an id never
used before; reservation candidates are quants of the item at exactly the move's source location; the recompute sets a
counter to the sum of the live lines at its dimensions. Row locks make each verb atomic. The status of a move changes only
along the transitions its table declares, so an assign that would lead from partially available back to confirmed is
refused (`migrations/20260929150008_state_transition_check_stock_moves_0adb62e8.up.sql`).

Where a door's own progress is claimed, its assigns are offered every quant of the item at the location with something
free, as the store's query answers (`quant_repository.rs:235-258`). Whether the original's post is on record when a
cancellation begins is read by the call (`Doors.Event`); `GlProtocol` has what puts it there and keeps it.

## Where the code and its documentation differ

The model follows the code in each case.

- Rounding is half away from zero (`inventory_write_service.rs:77-82`); a helper's name calls it half-up. They differ on
  negative ties.
- A cancelled receipt returns the bin's quantity and value, not always its pre-receipt rate
  (`ValuationLaws.ReversalRestores` gives the exact condition, `ReversalNeedNotRestoreTheRate` a run).
- The landed-cost envelope is documented to balance by construction. Unless the document is periodic or revalues nothing,
  it is refused whenever some account's total opposes the document's, after the revaluation was committed, and every
  repost is refused alike (`LandedCostPlan.PlanPosts`, `LandedCostBooks.MixedSignsNeverPost`, `RoundingAloneNeverPosts`).
- A landed cost with nothing to post retires its leg in a transaction of its own, and a repost asks for neither periodic
  valuation nor a zero total. Stopped between the two, it posts a periodic document in real time, and can be refused a
  revaluation of nothing for good (`LandedCostBooks.RepostPostsLikeThePlan`, `LostRetirementIsRefused`).
- The landed-cost repost divides by the done quantity, documented as frozen. It reads it off the target's line, which the
  unreserve verb, having no state guard, zeroes for a done move too; the rebuilt credits then miss what that target was
  revalued by (`LandedCostBooks.ZeroedLinesAreMissing`, `RepostPostsIff`).
- A move's repost is documented to rebuild the done transaction's envelope. It tells the legs apart by the sign of their
  ledger rows, so a leg carried at a negative value comes back as nothing (`MoveGl.RepostRebuildsTheEnvelope`,
  `NegativeIssue`, `RepostOfANegativeDrain`, `MoveReposts.RepostAfterAnyRun`).
- The receipt's document total is documented as identical to the values its moves carried in. That needs positive line
  rates: a zero price carries the bin's average instead (`Vouchers.ReversalUndoesReceiptIff`).
- A delivery is documented to resume after a crash. Its availability pre-check tests the lines that already landed again, so
  its retry is refused while such a line's bin holds less than the line's quantity, although nothing of it is left to ship;
  and a line that drained a bin of negative value, whose cost its row refuses, is never retried but after a restock
  (`Convergence.RetriedDeliveryConverges`, `ShippedLineLocksOut`, `DeadEnds.RowRefuses`). A receipt's cancellation tests only
  the lines not landed.
- A delivery interrupted between a line's done and the write of its cost loses that cost on the row for good, and so does
  one whose line carried a negative cost, which the row refuses
  (`migrations/20260426220002_create_delivery_note_item_table.up.sql:12`; `LostRecords.RecordLostForGood`,
  `ClosedRecordsIff`, `DeliveryTotals.RecordedIffNotNegative`); its cancellation then restores no value, and reverses too
  little in the general ledger by exactly what the lost lines carried (`LostRecords.CancelledDeliveryNetsIff`,
  `DeliveryTotals.DeliveryJournalsNetIff`, `GlProtocol.LostRecordLeavesABalance`).
- A repost does not look at the voucher's status; reposting a draft delivery shadows its later submission
  (`GlProtocol.SubmissionIsWhatIsPosted`, `RepostedDraftShadowsTheSubmission`).
- The unreserve verb leaves the move's state alone. An inbound move unreserved while assigned can then neither be assigned
  again nor done (`Resume.InboundFinishesIff`), and an interrupted shrinking count blocks its own retry
  (`StockCount.RetryIsRefusedIff`).

## Model

| member | source | states |
|---|---|---|
| `Runs.EveryRunIsSound` | src/application/service/inventory_move_engine.rs:172-763 | Over every run of create, confirm, assign, unreserve, done, cancel, revaluation and operator line edits from an empty estate: at every internal quant 0 ≤ mirror ≤ reserved ≤ quantity, with mirror = reserved when no operator shrank a line; chain order; quant/bin agreement; the ledger reconstructs the bins; every done move is posted once; backorders carry exactly the remainder |
| `Guarantees.TriangleOverEveryRun` | src/application/service/inventory_move_engine.rs:317-565 | At any internal quant after any run: 0 ≤ Σ live lines ≤ reserved ≤ quantity, the first equality exact when no operator shrank a line |
| `Guarantees.ChainOrderOverEveryRun` | src/application/service/inventory_move_engine.rs:217-283 | After any run a move confirmed or further has all its existing parents done, and a waiting move still has one that is not |
| `Guarantees.BinsOverEveryRun` | src/application/service/inventory_move_engine.rs:531-570 | After any run a bin’s quantity is its warehouse’s stock and the sum of its ledger rows, its value the sum of theirs, its last row the bin |
| `Runs.StepSound` | src/application/service/inventory_move_engine.rs:317-763 | Each single verb, committed or refused, keeps all of those invariants |
| `Soundness.AssignCoreSound` | src/application/service/inventory_move_engine.rs:317-403 | The assign, which writes the reserved counter by a delta, keeps the triangle that the releasing verbs keep by recomputing |
| `Soundness.UnreserveSound` | src/application/service/inventory_move_engine.rs:413-452 | Zeroing the lines and recomputing the touched counters keeps every invariant, the move state untouched |
| `Soundness.CreateSound` | src/application/service/inventory_move_engine.rs:172-229 | Creating a move with its reverse links on the parents keeps every invariant |
| `Soundness.ConfirmSound` | src/application/service/inventory_move_engine.rs:263-283 | Confirming to confirmed or waiting keeps the chain order in both directions |
| `SoundDone.DoneCoreSound` | src/application/service/inventory_move_engine.rs:497-570 | Done write, counter recompute, stock draw and valuation together keep every invariant but the release of the children |
| `SoundDone.FinishSound` | src/application/service/inventory_move_engine.rs:462-702 | With the backorder split and the release of waiting children every invariant holds again: no release is lost |
| `Runs.CancelAllSound` | src/application/service/inventory_move_engine.rs:711-763 | Cancelling any set of live moves, each freeing what it held, keeps every invariant |
| `Reservation.ReserveKeepsTriangle` | src/application/service/inventory_move_engine.rs:324-360 | Reserving over any candidates keeps mirror, counter and stock ordered at every internal quant and moves no stock |
| `Reservation.UnreserveKeepsTriangle` | src/application/service/inventory_move_engine.rs:428-452 | The recompute after zeroing keeps them ordered too, at touched and untouched quants |
| `Reservation.DoneKeepsTriangle` | src/application/service/inventory_move_engine.rs:511-565 | Dropping the lines from the mirror, recomputing and drawing keeps the triangle, and no draw of a reserved line is refused |
| `Reservation.DrawIsExact` | src/application/service/inventory_move_engine.rs:525-565 | When the sources cover their lines no line is refused and each quant changes by exactly what is drawn from it and what lands on it: a line of its own item, lot and owner, in the result package when it names one and else in its own |
| `Reservation.ReserveTakes` | src/application/service/inventory_move_engine.rs:324-360 | What is taken never exceeds the need, and falls short only when every candidate is exhausted |
| `Reservation.ReserveInOrder` | src/application/service/inventory_move_engine.rs:324-360 | Candidates are used up in the order the store gave them: one is touched only when all before it have nothing free, and a quant off the list never |
| `StockTotals.DrawTotal` | src/application/service/inventory_move_engine.rs:531-570 | The stock of every warehouse shifts by exactly the quantity the ledger legs of the move carry |
| `StockTotals.DrawKeepsLots` | src/application/service/inventory_move_engine.rs:525-565 | The stock of every lot and owner, over all internal locations and packages, is conserved by a draw between two internal locations and rises or falls by exactly the lines of that lot and owner when one end is outside |
| `SoundDone.BinCovers` | src/application/service/inventory_move_engine.rs:911-917 | Once the quant draws succeed the bin-level insufficient-stock branch is unreachable |
| `SoundDone.StandingReservationIsDone` | src/application/service/inventory_move_engine.rs:497-565 | A live move holding a positive reservation at an internal location is never refused by a stock guard |
| `Guarantees.ReservationSurvivesEveryRun` | src/application/service/inventory_move_engine.rs:497-565 | After any run, a standing reservation is done on request with its whole held quantity, every other move keeps its lines, and what another live move holds can still be done after it |
| `Guarantees.PartialValidationSplits` | src/application/service/inventory_move_engine.rs:585-629 | Under Always or Delayed a partial validation announces exactly one open backorder for the remainder, on the parent’s route with its children and price and never its forced value; a whole one none |
| `VerbEffects.BackorderReserves` | src/application/service/inventory_move_engine.rs:585-629 | Under Delayed the backorder is confirmed and holds nothing, every line and quant as the same done leaves it under Never; under Always it has at once taken all it can of its demand, either all of it or every candidate exhausted, its state says how much, and no stock moved |
| `Guarantees.DemandConserved` | src/application/service/inventory_move_engine.rs:585-629 | Along any line of backorders, done quantities plus the last demand equal the original demand, and demands strictly decrease |
| `VerbContracts.AssignTakesAllItCan` | src/application/service/inventory_move_engine.rs:317-403 | After an assign the state says exactly how much is held, and either the demand is met or every candidate is exhausted |
| `VerbContracts.AssignTouchesNothingElse` | src/application/service/inventory_move_engine.rs:317-403 | No other move, no other line and no stock quantity changes in an assign |
| `VerbContracts.UnreserveGivesBack` | src/application/service/inventory_move_engine.rs:413-452 | Every internal counter falls by exactly what the move held there |
| `VerbContracts.UnreserveRefusedIff` | src/application/service/inventory_move_engine.rs:413-420 | An unreserve asks for nothing but that the move exists, whatever its state |
| `VerbContracts.UnreserveUndoesAssign` | src/application/service/inventory_move_engine.rs:339-452 | The delta writer and the recompute writer agree: an unreserve after an assign restores every internal quant |
| `VerbContracts.DoneMovesExactly` | src/application/service/inventory_move_engine.rs:511-565 | A done move draws from each internal source quant what its lines held there, lands at each internal quant the lines of that item, lot, owner and package, and takes exactly its own reservation out of each counter |
| `VerbContracts.DoneKeepsLots` | src/application/service/inventory_move_engine.rs:511-565 | A done conserves the stock of every lot and owner between internal locations, and brings in or takes out exactly its lines of that lot and owner |
| `VerbEffects.CreateIsExact` | src/application/service/inventory_move_engine.rs:172-229 | A create is accepted exactly for a non-negative order between two different existing locations that hold stock; it stores the order as a draft and adds it once to the children of each existing parent, nothing else |
| `VerbEffects.CreateRefusals` | src/application/service/inventory_move_engine.rs:172-201 | A negative order is refused before a move within one location, that before an unknown location, and that before a view |
| `VerbEffects.ConfirmIsExact` | src/application/service/inventory_move_engine.rs:240-283 | A confirm is accepted exactly for a draft, which waits exactly while some existing parent is not done |
| `VerbEffects.AssignRefusedIff` | src/application/service/inventory_move_engine.rs:294-403 | In a sound estate an assign is refused exactly for an unknown move, a state that does not reserve, or a move partially available in name only: it holds nothing and can take nothing |
| `VerbEffects.AssignLines` | src/application/service/inventory_move_engine.rs:339-403 | The old lines restamped, then new positive ones of the move for its destination and into no package, from a candidate of an internal source or the untracked outside |
| `VerbEffects.UnreserveIsExact` | src/application/service/inventory_move_engine.rs:413-452 | Each line of the move is zeroed, the counter of every quant they name restated as what the live lines hold there, no other counter, quantity or move written, in any estate |
| `VerbEffects.DemandLineIsExact` | src/application/service/inventory_transfer.rs:397-463 | A lineless move from outside that wants something gets one untracked line for all of it, and the done then carries that out whole; any other is left alone |
| `VerbEffects.DoneRefusedIff` | src/application/service/inventory_move_engine.rs:470-495 | In a sound estate a done is refused exactly for a move not ready, without lines, or with nothing on them of what it wants |
| `VerbEffects.NegativeLineRefuses` | src/application/service/inventory_move_engine.rs:478-490 | A ready move with a line of negative quantity is refused for it in any estate, sound or not |
| `VerbEffects.FinishRefusedIff` | src/application/service/inventory_move_engine.rs:462-645 | Neither the backorder nor the release refuses what the done write allowed |
| `VerbEffects.DoneWrites` | src/application/service/inventory_move_engine.rs:497-523 | The move is done with what its lines held, its lines marked done, and a counter restated exactly where a positive line of the move stood |
| `VerbEffects.FinishOnOthers` | src/application/service/inventory_move_engine.rs:631-645 | Of any other move a done changes only this: a waiting child whose other parents are all done becomes confirmed; its lines stay |
| `VerbEffects.RevalueIsExact` | src/application/service/inventory_move_engine.rs:1009-1056 | A revaluation puts its value on the bin of the item at the warehouse of the move’s destination and on no other; without such a bin it is refused, landed before or of nothing it changes nothing |
| `CancelCascade.CancelIsExact` | src/application/service/inventory_move_engine.rs:711-763 | A cancel reaches exactly the root and the live moves on chains of propagating live moves: those are cancelled and hold nothing, every other move and line is untouched |
| `CancelCascade.ReachedIffInEveryClosed` | src/application/service/inventory_move_engine.rs:729-750 | A move is reached exactly when it is in every set with the root in it and the live children its live, propagating moves name: what a cancel reaches is the least such set |
| `CancelCascade.CancelOnStock` | src/application/service/inventory_move_engine.rs:716-750 | Lines of reached moves are zeroed and cancelled, the counter of every quant they name restated as what the live lines hold there, and nothing else is written |
| `CancelCascade.CancelRefusedIff` | src/application/service/inventory_move_engine.rs:711-723 | A cancel is refused exactly for a move that is unknown, done or cancelled |
| `CancelCascade.WalkEnds` | src/application/service/inventory_move_engine.rs:729-750 | A breadth-first walk whose frontier is empty has cancelled exactly the reachable set, cycles included |
| `CancelCascade.CancelOneMore` | src/application/service/inventory_move_engine.rs:741-749 | Cancelling one more move after a set is cancelling the larger set: order does not matter |
| `StockService.StockService.CreateMove` | src/application/service/inventory_move_engine.rs:172-229 | The method commits the create or, refused, changes nothing |
| `StockService.StockService.ActionConfirm` | src/application/service/inventory_move_engine.rs:240-283 | Commits the confirm and answers the state reached |
| `StockService.StockService.ActionAssign` | src/application/service/inventory_move_engine.rs:294-403 | Commits the assign and answers the state reached and what the move’s lines then hold, capped at its demand |
| `StockService.StockService.UnreserveMove` | src/application/service/inventory_move_engine.rs:413-452 | Commits the unreserve and answers the sum of the positive lines released |
| `StockService.StockService.MintDemand` | src/application/service/inventory_transfer.rs:397-463 | Commits the demand line of a validated move from outside |
| `StockService.StockService.ActionDone` | src/application/service/inventory_move_engine.rs:462-702 | Commits done, split and release as one transaction; answers the done quantity, the child announced exactly when the demand was not met and the policy splits, and what was carried out |
| `StockService.StockService.ActionCancel` | src/application/service/inventory_move_engine.rs:711-763 | The breadth-first loop terminates on any graph and commits exactly the cancellation of the reachable set |
| `StockService.StockService.AdjustValue` | src/application/service/inventory_move_engine.rs:1009-1056 | Commits the revaluation of one landed-cost line, at most once |
| `StockService.StockService.AssignRows` | src/application/service/inventory_move_engine.rs:317-403 | The assign over rows read in a caller’s transaction is the assign function |
| `StockService.StockService.DoneRows` | src/application/service/inventory_move_engine.rs:497-583 | The done write, the two stock steps and the valuation are the done function |
| `StockService.StockService.SplitRows` | src/application/service/inventory_move_engine.rs:585-629 | The backorder split is the split function, whose outcome BackorderReserves tells policy by policy |
| `StockService.Retain` | src/application/service/inventory_move_engine.rs:732-735 | Retaining by inserting into the visited set keeps each unvisited id once |
| `EngineLoops.LinkAll` | src/application/service/inventory_move_engine.rs:216-222 | The parent loop writes every reverse link, idempotently |
| `EngineLoops.ReserveCandidates` | src/application/service/inventory_move_engine.rs:324-360 | The candidate loop, stopped when nothing more is needed, reserves what the specification says |
| `EngineLoops.ReleaseLines` | src/application/service/inventory_move_engine.rs:428-452 | The release loop zeroes every line, recomputes each distinct quant once and answers what was held |
| `EngineLoops.RecomputeEach` | src/application/service/inventory_move_engine.rs:517-523 | Recomputing listed quants one after the other is the joint recompute |
| `EngineLoops.DrawLines` | src/application/service/inventory_move_engine.rs:525-565 | The draw loop answers the joint draw, whose landing DrawIsExact and DrawKeepsLots spell out, or the refusal of the first line not covered |
| `EngineLoops.ReleaseChildren` | src/application/service/inventory_move_engine.rs:631-645 | Releasing children one after the other is releasing exactly the waiting ones whose parents are all done |
| `EngineLoops.TotalDone` | src/application/service/inventory_move_engine.rs:478-490 | The done quantity is the sum of the lines, a negative line refuses |
| `Valuation.MintReconstructs` | src/application/service/inventory_move_engine.rs:876-975 | Both legs of a move keep every bin equal to the sums of its ledger rows and its last row equal to the bin |
| `Valuation.AdjustReconstructs` | src/application/service/inventory_move_engine.rs:1009-1056 | So do the value-only rows of a landed cost |
| `Valuation.AdjustLandsOnce` | src/application/service/inventory_move_engine.rs:1035-1038 | A landed-cost line that already landed is never minted again |
| `ValuationLaws.RunReconstructs` | src/application/service/inventory_move_engine.rs:876-1056 | Over every run of moves and revaluations the ledger reconstructs every bin |
| `ValuationLaws.DriftOverEveryRun` | src/application/service/inventory_move_engine.rs:919-972 | A stocked bin stays within Q0·½·10⁻⁶ + k·½·10⁻² of quantity times rate, Q0 its quantity at the last reblend and k the average-priced outflows since |
| `ValuationLaws.FlushBound` | src/application/service/inventory_move_engine.rs:926-930 | The value the draining outflow flushes is within that bound of quantity times rate, and the bin is left empty of both |
| `ValuationLaws.BooksDrift` | src/application/service/inventory_move_engine.rs:876-1056 | Every bin of any run of moves and landed costs meets the bound of its own trail |
| `Guarantees.EngineDrift` | src/application/service/inventory_move_engine.rs:876-972 | Every bin of every run of the engine meets it |
| `ValuationLaws.NothingLostOnDrain` | src/application/service/inventory_move_engine.rs:919-943 | In any run of ordinary moves a bin that ends empty carried out exactly the value it took in |
| `Guarantees.EngineLosesNothing` | src/application/service/inventory_move_engine.rs:919-943 | The same for every ordinary run of the whole engine |
| `ValuationLaws.MintPosts` | src/application/service/inventory_move_engine.rs:909-972 | A move posts its quantity and its two leg values on its own voucher and no other |
| `ValuationLaws.MintRefused` | src/application/service/inventory_move_engine.rs:911-917 | A move is refused by valuation exactly when the source bin holds less than the quantity |
| `ValuationLaws.OutflowCarries` | src/application/service/inventory_move_engine.rs:911-943 | What leaves a bin is the forced value, the whole value with the last unit, and else the quantity at the bin’s average to half a cent; the average of what stays is untouched unless a forced value makes it anew |
| `ValuationLaws.InflowCarries` | src/application/service/inventory_move_engine.rs:945-972 | What enters a bin is the forced value, what left an internal source, and from outside the quantity at its price, or without one at the bin’s own average, to half a cent; the average is made anew |
| `ValuationLaws.PricelessReceiptKeepsTheAverage` | src/application/service/inventory_move_engine.rs:950-957 | A receipt without a price leaves the bin’s average where it was, within the bin’s drift, half a cent and the rounding of the rate |
| `ValuationLaws.MintRows` | src/application/service/inventory_move_engine.rs:919-972 | A move appends its out leg, at no incoming rate, then its in leg, at its price, each row showing its bin as left; no other bin is written |
| `ValuationLaws.AdjustIsExact` | src/application/service/inventory_move_engine.rs:1009-1056 | A revaluation is refused exactly when it has a value and no bin; one not landed yet adds its value, makes the average anew and appends one row |
| `ValuationLaws.ReversalRestores` | src/application/service/inventory_move_engine.rs:919-957 | A forced reversal with nothing between restores quantity and value exactly, and the rate exactly when it was the rounded average |
| `ValuationLaws.ReversalNeedNotRestoreTheRate` | src/application/service/inventory_cancellation.rs:68-71 | A concrete run in which cancelling a receipt returns quantity and value but not the pre-receipt rate |
| `ValuationLaws.MintTotal` | src/application/service/inventory_move_engine.rs:876-975 | The value of all bins together changes by what came in less what went out |
| `MoveGl.EnvelopeTiesToBins` | src/application/service/inventory_move_engine.rs:1062-1149 | Whenever a move posts an envelope it balances, and its inventory leg is the net change of all bin values |
| `MoveGl.EnvelopePostsWhen` | src/application/service/inventory_move_engine.rs:1074-1130 | An envelope exists exactly when the posture is real-time, the shape’s accounts are set and there is something to post; each leg is on the account the resolution chain gives |
| `MoveGl.TransferIsValueNeutral` | src/application/service/inventory_move_engine.rs:1062-1149 | A move between two bins or inside one conserves total value and posts nothing, forced or not |
| `MoveGl.RepostRebuildsTheEnvelope` | src/application/service/inventory_move_engine.rs:788-864 | A repost, its leg values read back from the ledger, always posts and balances; it posts the done transaction’s envelope exactly when the move is an adjustment or no leg is negative |
| `MoveGl.ReadBackIff` | src/infrastructure/persistence/stock_ledger_entry_repository.rs:150-170 | Telling the legs apart by the sign of the rows gives back the legs the move minted exactly when neither is negative |
| `MoveGl.NegativeIssue` | src/application/service/inventory_move_engine.rs:919-943 | An ordinary issue carries a negative value out exactly when it drains a bin whose value rounding left below zero |
| `MoveGl.RepostOfANegativeDrain` | src/application/service/inventory_move_engine.rs:788-864 | A concrete receipt and four issues whose last is posted at minus a cent and reposted at nothing |
| `Rounding.MoneyFacts` | src/application/service/inventory_write_service.rs:77-79 | Two-decimal rounding moves a value by at most half a cent, keeps cents and is odd |
| `Rounding.MoneyWithin` | src/application/service/inventory_write_service.rs:77-79 | On cent-valued bounds rounding never leaves the bounds |
| `Rounding.Rate6Near` | src/application/service/inventory_write_service.rs:80-82 | Six-decimal rounding moves a rate by at most half a millionth |
| `Rounding.TiesGoAway` | src/application/service/inventory_write_service.rs:77-82 | A tie goes away from zero on either side, for amounts and for rates |
| `LandedCost.SharesAreTheAmount` | src/application/service/landed_cost_service_custom.rs:428-440 | The shares of a cost line sum exactly to its amount |
| `LandedCost.ShareBound` | src/application/service/landed_cost_service_custom.rs:430-440 | Each share but the last is within half a cent of its proportion, the last within half a cent per other line, for any amount of any sign |
| `LandedCost.SharesFollowTheMethod` | src/application/service/landed_cost_service_custom.rs:409-440 | By value the carried values, by weight done times unit weight, by quantity the done quantities: a cost line can be split exactly when these do not add up to zero, and each share but the last is in proportion to the target’s own, to half a cent |
| `LandedCost.SharesIgnoreTheRest` | src/application/service/landed_cost_service_custom.rs:409-440 | The shares depend on nothing else of the targets: not on what the other methods split by, nor on item, account or stock on hand |
| `LandedCost.DeltaNearPart` | src/application/service/landed_cost_service_custom.rs:441-450 | The revalued part of a share is, to half a cent, the fraction of its goods still on hand, and nothing where nothing was done |
| `LandedCost.DeltaWithinShare` | src/application/service/landed_cost_service_custom.rs:441-450 | For cent amounts and 0 ≤ remaining ≤ done the revalued part never exceeds the share |
| `LandedCost.PushAllTotals` | src/application/service/landed_cost_service_custom.rs:133-141 | Aggregation keeps every account’s total, names each account once and keeps the grand total |
| `LandedCostPlan.TieOut` | src/application/service/landed_cost_service_custom.rs:406-507 | Debits per target, credits per cost line and the revalued total are one amount, and the worksheet adds up to the document |
| `LandedCostPlan.ComputeRefusals` | src/application/service/landed_cost_service_custom.rs:357-427 | A document is refused for no targets, no cost lines, a cost line without account, standard costing or a zero basis, the first of these that applies |
| `LandedCostPlan.PlanInFigures` | src/application/service/landed_cost_service_custom.rs:406-509 | Each target is revalued by the sum of what every cost line gives it; an account is debited what its targets are revalued by and credited what its cost lines revalue |
| `LandedCostPlan.PlanRowIs` | src/application/service/landed_cost_service_custom.rs:451-478 | The worksheet has one row per cost line and target in that order: the share, all shares of the target, and its stock on hand |
| `LandedCostPlan.EnvelopeIffOneSign` | src/application/service/landed_cost_service_custom.rs:604-651 | The journal is accepted exactly when every leg on each side has the sign of the total or is zero, and then balances at its absolute value |
| `LandedCostPlan.JournalMovesAccounts` | src/application/service/landed_cost_service_custom.rs:600-645 | An accepted journal moves every account by what its debit and credit legs plan for it, for either sign of the document |
| `LandedCostPlan.PlanPosts` | src/application/service/landed_cost_service_custom.rs:550-651 | The posting phase retires the leg exactly under periodic valuation or when nothing is revalued; otherwise it posts, balanced, exactly when no account’s total opposes the revaluation |
| `LandedCostBooks.ApplyRevalues` | src/application/service/landed_cost_service_custom.rs:519-542 | Applying a plan changes the value of all bins by exactly the plan’s total and mints one row per non-zero delta |
| `LandedCostBooks.ApplyRefuses` | src/application/service/inventory_move_engine.rs:1018-1034 | The engine refuses a plan exactly when a target with something to revalue lies in no valued bin |
| `LandedCostBooks.RepostRefinesThePlan` | src/application/service/landed_cost_service_custom.rs:286-323 | The journal rebuilt from ledger rows and worksheet has the planned debits and total on every account, and the worksheet’s credits over the quantities the lines show by then: the planned ones where those are the done quantities |
| `LandedCostBooks.RebuiltNearPart` | src/application/service/landed_cost_service_custom.rs:307-317 | What a repost makes of a share is, to half a cent, what was on hand over the quantity its line shows by then, and nothing where the line shows nothing |
| `LandedCostBooks.RepostPostsIff` | src/application/service/landed_cost_service_custom.rs:286-323 | Whatever the lines show, a repost still to be driven posts exactly when no debit opposes the total and the rebuilt credits are worth it; with no credit opposing it, exactly when they still add up to it |
| `LandedCostBooks.ZeroedLinesAreMissing` | src/application/service/landed_cost_service_custom.rs:307-317 | The rebuilt credits miss exactly what the targets whose lines were zeroed since were revalued by |
| `LandedCostBooks.RepostPostsLikeThePlan` | src/application/service/landed_cost_service_custom.rs:250-324 | A repost, whatever the lines show by then, meets the fate of the validation exactly when that was a retirement and was written so, or had something to post and either a debit opposes the total or the planned credits have its sign just when the rebuilt ones are worth it, as they always do while the lines show the done quantities |
| `LandedCostBooks.LostRetirementIsRefused` | src/application/service/landed_cost_service_custom.rs:550-573 | A freight and an equal rebate on separate accounts retire the leg; if the retirement was not written, every repost is refused |
| `LandedCostBooks.MixedSignsNeverPost` | src/application/service/landed_cost_service_custom.rs:604-651 | A freight and a smaller rebate on separate accounts revalue the bins and are never accepted as a journal |
| `LandedCostBooks.RoundingAloneNeverPosts` | src/application/service/landed_cost_service_custom.rs:431-441 | One positive cost is never accepted either when the rounding remainder alone falls on an account of its own |
| `LandedCostLoops.PushAmount` | src/application/service/landed_cost_service_custom.rs:133-141 | The aggregation loop adds to exactly one account |
| `LandedCostLoops.SplitLine` | src/application/service/landed_cost_service_custom.rs:411-458 | The inner loop over targets computes the shares, the deltas by line and their total, and refuses exactly a zero basis |
| `LandedCostLoops.SplitAll` | src/application/service/landed_cost_service_custom.rs:406-470 | The outer loop over cost lines computes rows, tallies and credits, and its worksheet check never fails |
| `LandedCostLoops.WorksheetChecks` | src/application/service/landed_cost_service_custom.rs:459-468 | The internal check that a line’s recorded shares are its amount always passes |
| `LandedCostLoops.Cumulate` | src/application/service/landed_cost_service_custom.rs:471-478 | Each row is stamped with its line’s shares over all cost lines |
| `LandedCostLoops.ComputePlan` | src/application/service/landed_cost_service_custom.rs:375-509 | The whole computation with its refusals, in their order, is the specified plan |
| `LandedCostLoops.ApplyPlan` | src/application/service/landed_cost_service_custom.rs:519-542 | The apply loop is the specified application, rolled back at the first refusal |
| `LandedCostLoops.RebuildDebits` | src/application/service/landed_cost_service_custom.rs:286-306 | The repost’s debit loop aggregates exactly the specified legs |
| `Frames.StepKeeps` | src/application/service/inventory_move_engine.rs:172-763 | No verb changes a move’s order or leaves a final state, and the only way into done is the done verb on that move with the sum of its lines |
| `Frames.StepKeepsVoucher` | src/application/service/inventory_move_engine.rs:876-1056 | Once a move is done no verb adds a row to its voucher |
| `MoveReposts.RepostAfterAnyRun` | src/application/service/inventory_move_engine.rs:788-864 | A move done at any moment of any run and reposted after any later verbs always posts and balances, with the done transaction’s lines exactly when it is an adjustment or no leg was negative |
| `WholeMoves.StepKeepsWhole` | src/application/service/inventory_move_engine.rs:317-763 | A move nobody edited keeps its strict mirror, all or nothing from outside, through every verb on any move and every edit of other moves’ lines |
| `DoorRuns.EveryWorldIsSound` | src/application/service/inventory_write_service.rs:563-608 | Over every run of any number of voucher doors, crashes, retries and other activity: each line has at most one move, done only whole, and every call stands where its landed lines say |
| `Vouchers.ReceiptLegsOk` | src/application/service/inventory_cancellation.rs:136-168 | The submit and cancel legs of a receipt meet what the run theorems ask of doors |
| `Vouchers.DeliveryLegsOk` | src/application/service/inventory_cancellation.rs:244-272 | So do the two legs of a delivery |
| `Vouchers.WhatALineMoves` | src/application/service/inventory_cancellation.rs:136-168 | Which lines of each of the four legs move stock, between which places, at which price or forced value; which legs wait for another voucher and which stock each tests |
| `Vouchers.BeginsIff` | src/application/service/inventory_cancellation.rs:76-134 | A call begins exactly when its voucher is open, every bin it tests holds its line and, for a reversal, the voucher is closed and its post on record; else nothing happens |
| `Vouchers.OnlyStrictReleases` | src/application/service/inventory_receipt.rs:164-196 | A door that does not insist on whole reservations never gives one back, in any run |
| `Vouchers.StrictDecides` | src/application/service/inventory_delivery.rs:176-196 | One that insists goes on to the done exactly from a whole reservation and gives back anything less |
| `Vouchers.CancelledLineStops` | src/application/service/inventory_write_service.rs:563-608 | A line whose move was cancelled ends the call with no verb issued |
| `Vouchers.ClosedMovesEachLineOnce` | src/application/service/inventory_receipt.rs:164-196 | A closed voucher has exactly one done move per line that moves stock, its whole quantity on the ledger once |
| `Vouchers.NeverMovesTwice` | src/application/service/inventory_delivery.rs:151-212 | At every moment a line has at most one move; until it is done nothing is posted for it, then its quantity once |
| `Vouchers.CancelledReceiptNetsToZero` | src/application/service/inventory_cancellation.rs:136-181 | Submit and cancel of a positively priced receipt line net to zero quantity and value on every bin, whatever happened between |
| `Vouchers.ReversalUndoesReceiptIff` | src/application/service/inventory_move_engine.rs:954-955 | A reversal at quantity times price undoes a receipt’s value exactly when the price is positive or the average it carried rounds to nothing |
| `LostRecords.CancelledDeliveryNetsIff` | src/application/service/inventory_cancellation.rs:244-290 | Over every run, a delivery line and its reversal at the row’s cost net to zero on every bin exactly when neither a crash came between the line’s done and its record nor the row refused its negative cost, or it carried no value |
| `Vouchers.DeliveryLegsNet` | src/application/service/inventory_cancellation.rs:244-290 | A delivery and its reversal net to zero on every bin exactly when the reversal carries what the delivery carried out |
| `LostRecords.RecordLostForGood` | src/application/service/inventory_delivery.rs:175-209 | For any line of any door: landed, unrecorded and not being recorded, it stays so after every later event of every run |
| `LostRecords.RecordsOverEveryRun` | src/application/service/inventory_delivery.rs:153-209 | At every moment of every run a landed line is being recorded, is recorded, or missed its record: exactly one of the three. It missed it when a crash came between its done and its record, or the row refused its negative cost |
| `LostRecords.ClosedRecordsIff` | src/application/service/inventory_delivery.rs:175-214 | A closed delivery has a line’s cost on its row exactly when neither such a crash came nor such a refusal |
| `DeliveryTotals.MintCarried` | src/infrastructure/persistence/stock_ledger_entry_repository.rs:114-139 | The negated sum of a move’s rows grows by what the move carries out less what it carries in, and no other move’s does |
| `DeliveryTotals.TotalsOverEveryRun` | src/application/service/inventory_delivery.rs:151-209 | At every place a call can stand its running total is what the lines behind it carried out of the bins, driven by this call or read back from an earlier one |
| `DeliveryTotals.HeaderIsWhatLeft` | src/application/service/inventory_delivery.rs:175-214 | The total on a closed delivery’s header is exactly what its moves carried out, however often it was interrupted |
| `DeliveryTotals.HeaderExceedsRowsByTheLost` | src/application/service/inventory_delivery.rs:197-214 | Header and rows differ by exactly what the lines with lost records carried, so they agree when no record was missed |
| `DeliveryTotals.RecordedIffNotNegative` | src/application/service/inventory_delivery.rs:175-214 | A closed door’s line has its cost on the row exactly when no such crash came and the line carried no negative value out of the bins |
| `DeliveryTotals.DeliveryHeaderAndRows` | src/application/service/inventory_delivery.rs:151-214 | A closed delivery’s header is what its moves carried out and its rows plus the lost lines’; if its door never crashed and no line carried a negative value, every line that moved is recorded and the rows add up to the header |
| `DeliveryTotals.DeliveryJournalsNetIff` | src/application/service/inventory_cancellation.rs:292-312 | A delivery closed by any run and then cancelled nets to zero in the general ledger exactly when the lost lines carried nothing in all |
| `LostRecords.LostRecordReversesNoValue` | src/application/service/inventory_cancellation.rs:250-272 | Cancelling a line at the default cost puts the quantity back and no value, so it nets to zero exactly when the delivery carried none |
| `Vouchers.ReceiptTotalIsWhatTheLedgerShows` | src/application/service/inventory_receipt.rs:199-206 | The document’s debit total is what the closed receipt’s moves brought into the bins, every stock line priced |
| `Vouchers.AlwaysInSequence` | src/application/service/inventory_cancellation.rs:88-93 | A cancellation runs only after its voucher closed, in every run |
| `Resume.InboundFinishesIff` | src/application/service/inventory_move_engine.rs:471-490 | An assigned inbound move is done on request exactly when its line still holds its demand; emptied by an unreserve, it is refused from then on |
| `Resume.ResumeLands` | src/application/service/inventory_write_service.rs:563-608 | From draft, confirmed or assigned, the verbs a resumed walk still issues land the line whole |
| `Convergence.RetriedReceiptConvergesIff` | src/application/service/inventory_receipt.rs:88-206 | A receipt interrupted anywhere, any number of times, among any other activity: left alone it may be closed, and is by every long enough undisturbed sequence of its steps, exactly when no line is stuck |
| `Convergence.RetriedDeliveryCancelConvergesIff` | src/application/service/inventory_cancellation.rs:225-290 | The cancellation of a delivery likewise, exactly when the delivery is closed and no line is stuck |
| `Convergence.RetriedReceiptCancelConverges` | src/application/service/inventory_cancellation.rs:76-181 | The cancellation of a receipt draws from stock: it always closes when the receipt is closed, no line is stuck and the free stock covers what its lines still need, the bin test then passing by itself; it may close only if what no line holds covers it; where no operator edited a line that is exactly when |
| `Convergence.RetriedDeliveryConverges` | src/application/service/inventory_delivery.rs:86-214 | A delivery interrupted anywhere always closes when every line’s bin, landed lines’ too, holds the line’s quantity, no line is stuck, no line is going to carry a negative value out nor the header’s total to be negative, and the free stock covers what is still to be reserved; it may close only if all of that holds of what no line holds; where no operator edited a line that is exactly when |
| `Convergence.ShippedLineLocksOut` | src/application/service/inventory_delivery.rs:121-149 | So a delivery stopped after a line landed is never closed by its door alone while that line’s bin holds less than the line’s quantity |
| `Convergence.VouchersArePositive` | src/application/service/inventory_cancellation.rs:136-168 | The legs of every voucher without negative quantities move positive quantities, as the convergence theorems ask |
| `Progress.AbleCloses` | src/application/service/inventory_write_service.rs:563-608 | A door with nothing in its way closes by every undisturbed sequence of as many steps as its lines and verbs left |
| `DeadEnds.HopelessNeverCloses` | src/application/service/inventory_write_service.rs:563-608 | Once a line is stuck, the stock no line holds falls short, the header’s total or a row’s cost is going to be negative, or no call is let in, nothing the door does alone, however long, closes its voucher |
| `DeadEnds.RowRefuses` | src/application/service/inventory_delivery.rs:186-212 | A cost that is going to be negative is carried by a line that drains its bin, so the row refuses it, the call ends and, every line being tested again, no call is let in |
| `Forecast.FinishTakesFromForecast` | src/application/service/inventory_move_engine.rs:876-957 | What a delivery’s open lines are going to carry out, told from the bins before any of them moves, is what their dones carry, one after the other; what the header is going to be does not change on the way |
| `Forecast.NegativeDrains` | src/application/service/inventory_move_engine.rs:919-943 | A line carries a negative value out only by draining its bin, which then no longer holds the line’s quantity |
| `DoorVerbs.OwnAccount` | src/application/service/inventory_move_engine.rs:317-565 | What a shelf has that no line holds, less what the line still needs of it, never grows by a verb on the line’s outgoing move |
| `Coverage.FreeIsUnheld` | src/application/service/inventory_move_engine.rs:317-452 | At every internal location the free stock of an item is at most what no live line holds there, and equal to it where no operator edited a line |
| `Coverage.AssignReaches` | src/application/service/inventory_move_engine.rs:317-403 | An assign offered every quant with something free reserves the whole demand when that suffices, and uses up exactly what the move still needed, on its shelf alone |
| `Coverage.AssignUnheld` | src/application/service/inventory_move_engine.rs:317-403 | An assign leaves unheld less exactly what the move newly holds |
| `Coverage.UnreserveUnheld` | src/application/service/inventory_move_engine.rs:413-452 | An unreserve gives what the move held back to the shelf it was held on |
| `Coverage.FinishUnheld` | src/application/service/inventory_move_engine.rs:511-565 | A done on its way out of stock takes only what was held: nothing changes in what no line holds |
| `Coverage.DoneFrees` | src/application/service/inventory_move_engine.rs:511-565 | At every internal quant a done leaves at least as much free as before: it draws only what it had reserved |
| `Coverage.FinishCompletes` | src/application/service/inventory_move_engine.rs:462-583 | A reserved, assigned move is always done on request, and frees no less than it takes |
| `Coverage.StockInBin` | src/application/service/inventory_move_engine.rs:531-570 | The stock of one location is part of its warehouse’s bin |
| `DoorWalks.RefusedLineHoldsNothing` | src/application/service/inventory_delivery.rs:184-196 | A strict door’s refusal leaves the move holding nothing and no move, row or bin changed |
| `VoucherDoor.MintLineMove` | src/application/service/inventory_write_service.rs:563-592 | One step of the door machine: past a landed line, on to driving the line’s one move, created only when no move has the name, or refused with the creation’s error or for a cancelled move |
| `VoucherDoor.AdvanceMoveToAssigned` | src/application/service/inventory_write_service.rs:594-608 | From a driven move, at most two steps of the machine, confirm if draft and assign once, to where the state reached decides, or to the assign’s refusal |
| `VoucherDoor.DriveLine` | src/application/service/inventory_cancellation.rs:150-197 | From a line, the machine’s steps of one undisturbed call: to the next line with this one landed, its cost written if the door records, or to the first refused step, the row’s refusal of a negative cost included, whose error it answers |
| `VoucherDoor.DriveLines` | src/application/service/inventory_receipt.rs:164-211 | From the first line, the machine’s steps to the closed voucher, every line landed and a recording door’s total what its lines carried out, or to the first refused step, the voucher open: a header refuses a total below zero |
| `VoucherDoor.ReserveLine` | src/application/service/inventory_cancellation.rs:150-197 | From a driven move, the machine’s steps to the done, or to the refusal of a strict door that gave a short reservation back |
| `VoucherDoor.LandLine` | src/application/service/inventory_delivery.rs:197-214 | The done of a driven line and the write of its cost, its total what the ledger shows under the move |
| `VoucherDoor.RecordLine` | src/application/service/inventory_delivery.rs:203-212 | A cost is written on its row, or refused below zero |
| `VoucherDoor.CarriedBefore` | src/application/service/inventory_delivery.rs:176-182 | A line that landed before adds to the total what the ledger shows under its move |
| `VoucherDoor.TestStock` | src/application/service/inventory_cancellation.rs:103-134 | The loop over the lines finds every tested bin full enough exactly when the guard admits a call: all lines for a delivery, those not landed for a receipt’s cancellation |
| `VoucherDoor.RunCall` | src/application/service/inventory_delivery.rs:86-214 | One whole call: refused with nothing touched when the voucher it reverses is not submitted, its post not on record or a bin too empty, and else the lines driven to the closed voucher or the first refused step |
| `VoucherDoor.FindNamed` | src/application/service/inventory_write_service.rs:568-582 | The lookup by name finds a move under the name or proves there is none |
| `GlProtocol.EveryRunIsSafe` | src/application/service/inventory_write_service.rs:494-541 | Over every run of submits, reposts and cancels with rejections and crashes: recorded ids are the ledger’s, posted implies the original is there, a reversal is of the original on record, no journal is lost or rewritten |
| `GlProtocol.CancelKeepsTheOriginal` | src/application/service/inventory_write_service.rs:530-541 | A cancel, rejected or not, never clobbers the original’s posting state or ids |
| `GlProtocol.NetsToZeroIff` | src/application/service/inventory_cancellation.rs:190-213 | The two journals of a voucher cancel on every account exactly when their amounts agree |
| `GlProtocol.EveryRunIsPriced` | src/application/service/inventory_receipt.rs:264-298 | Over every run, for every voucher: the original carries the stored total, or nothing for a delivery posted while a draft; the reversal the rows’ sum, or the stored total if left to the recovery leg |
| `GlProtocol.OriginalMovesTheAsset` | src/application/service/inventory_receipt.rs:232-244 | In every run a receipt’s original debits its asset account by the stored total, a delivery’s credits it, by nothing if it was posted while a draft |
| `GlProtocol.CancelledReceiptNets` | src/application/service/inventory_cancellation.rs:190-213 | Both journals of a receipt net to zero on every account, in every run |
| `GlProtocol.CancelledVoucherNetsIff` | src/application/service/inventory_cancellation.rs:190-213 | For every voucher in every run they net to zero exactly when it is a receipt or what the original carried is what the reversal carried, each told from the voucher’s own history |
| `GlProtocol.SubmissionIsWhatIsPosted` | src/application/service/inventory_delivery.rs:216-252 | An accepted submission leaves its own cost in the ledger exactly when no journal was under its key or one of that cost |
| `GlProtocol.CancellationNetsIff` | src/application/service/inventory_cancellation.rs:340-368 | An accepted cancellation of an original at the stored total nets to zero exactly when it is the recovery leg or the rows add up to that total |
| `GlProtocol.LostRecordLeavesABalance` | src/application/service/inventory_cancellation.rs:292-312 | A delivery that lost a line’s recorded cost reverses less than it posted |
| `GlProtocol.RepostedDraftShadowsTheSubmission` | src/application/service/inventory_delivery.rs:257-293 | A draft delivery reposted before submission leaves a zero journal that answers the submission’s real cost |
| `GlProtocol.RepostSettles` | src/application/service/inventory_receipt.rs:264-298 | A pending or failed voucher is posted by the next accepted repost, with no second journal |
| `GlProtocol.WhatClosesALeg` | src/application/service/inventory_write_service.rs:508-522 | An open leg is retired only by periodic valuation or a submission with nothing to post, settled only by an accepted post whose mark is written, failed only by a rejection whose mark is; else it stays as it was, and the sink gains the journal exactly when it accepts one |
| `GlProtocol.PostedIdsStay` | src/infrastructure/persistence/gl_voucher_repository.rs:67-93 | No call changes the id recorded for a posted original, whatever the ledger holds |
| `GlProtocol.RejectionIsRedriven` | src/application/service/inventory_write_service.rs:505-519 | A rejected submission or repost leaves the leg open and the ledger as it was, and the next accepted repost posts it |
| `GlProtocol.RetiredOnlyIf` | src/application/service/inventory_receipt.rs:232-249 | Over every run a leg is retired only if some call of its voucher ran under periodic valuation, or its submission had nothing to post |
| `GlProtocol.NoLegIsLost` | src/application/service/inventory_receipt.rs:264-298 | Over every run without periodic valuation, rejections and crashes included, the leg of a submitted voucher with something to post is on record after the next accepted repost |
| `GlProtocol.NothingToDo` | src/application/service/inventory_write_service.rs:491-504 | A submission of a submitted voucher, a repost of a settled leg and a cancel of a draft, without a recorded original or already reversed change nothing |
| `GlProtocol.WhatACancelLeaves` | src/application/service/inventory_cancellation.rs:76-94 | A submitted voucher is cancelled whatever becomes of its reversal, which the ledger gains exactly when the sink accepts it, for the rows’ sum and naming the original, and whose id is recorded exactly when the mark is written |
| `GlProtocol.CancelSettles` | src/application/service/inventory_cancellation.rs:340-368 | A cancelled voucher’s missing reversal is recorded by the next accepted cancel, once |
| `GlService.PostingService.AlreadySettled` | src/application/service/inventory_write_service.rs:494-504 | Settled exactly when posted, with the recorded id, or not applicable |
| `GlService.PostingService.EmitAndReconcile` | src/application/service/inventory_write_service.rs:508-522 | The emit steps through sink and mark as specified under every fate, and answers the journal’s id, the rejection or nothing just as the fate has it |
| `GlService.PostingService.EmitReversalAndReconcile` | src/application/service/inventory_write_service.rs:530-541 | The reversal emit likewise, touching nothing on a rejection |
| `GlService.PostingService.SubmitVoucher` | src/application/service/inventory_receipt.rs:185-249 | The submit’s header and posting writes are the protocol’s submit step; each refusal and answer exactly when it applies |
| `GlService.PostingService.RepostVoucher` | src/application/service/inventory_receipt.rs:264-298 | The repost’s writes are the protocol’s repost step; each answer exactly when it applies |
| `GlService.PostingService.CancelVoucher` | src/application/service/inventory_cancellation.rs:76-94 | The cancel’s writes, recovery leg included, are the protocol’s cancel step; each refusal and answer exactly when it applies |
| `GlService.PostingService.SinkPost` | src/application/service/inventory_receipt.rs:254-262 | A repeated voucher and posting type is answered with the journal already there |
| `StockCount.ApplyReachesTheCount` | src/application/service/inventory_reconciliation.rs:167-330 | Applying a staged difference to an unreserved quant is never refused, keeps the stock at the counted-against level until done and exactly at the count after, and touches no other quant |
| `StockCount.GateReachesTheCount` | src/application/service/inventory_reconciliation.rs:167-215 | Whatever became of the stock since: an adjustment offered brings exactly that stock to the count, the count is consumed exactly at the count, and refused as outdated exactly when the stock is neither there nor where it was staged |
| `StockCount.StagedCountIsNeverStale` | src/application/service/inventory_reconciliation.rs:92-215 | A staged count is only ever applied to the stock it was staged on |
| `StockCount.StageIsExact` | src/application/service/inventory_reconciliation.rs:92-139 | A count is staged exactly when not negative and its quant internal and unreserved, with the distance from the stock found |
| `StockCount.RetryIsRefusedIff` | src/application/service/inventory_reconciliation.rs:348-362 | An interrupted application is offered the same adjustment again, except after its assign, where it is refused exactly when the count shrinks the stock: its own reservation makes the quant uncountable |

## Left out

- SQL, row locks and deadlock order: each verb is one atomic step; the repositories enter as the contracts above.
- Column scale and checks: quantities and values are exact, so the rounding of stored columns and the 28-digit limit of decimal
  division are not modelled.
- LandedCostBooks.ApplyRefuses: the store also checks that no bin and no ledger row has a negative rate
  (`migrations/20260426220008_create_bin_table.up.sql:13`, `migrations/20260426220007_create_stock_ledger_entry_table.up.sql:24`),
  so a negative landed cost that takes a stocked bin's value below zero is refused by it; that check is not modelled.
- The attribution of remaining quantities to moves is an input of the landed-cost split, with 0 ≤ remaining ≤ done where a
  bound needs it; the order of targets is given sorted by line id.
- The landed-cost document's own draft, done and cancelled states, and its posting state but for a retired leg; its
  journal's emit shares the protocol modelled for vouchers.
- Doors.Apart: other activity may do anything but mint under a voucher's names, edit the lines of a voucher's own move, or
  validate a voucher's own outbound move behind the door's back; a move validated partly by hand would count as landed.
- Convergence.RetriedDeliveryConverges: takes it that the rates of the bins the delivery draws from are not negative, as the
  store's check has it (`migrations/20260426220008_create_bin_table.up.sql:13`). After an operator's edit of a line's quantity,
  the window between the free stock and what no line holds is left open, as it is for
  `Convergence.RetriedReceiptCancelConverges`.
- Lookups of headers, posting posture, accounts and locations that refuse a call before it reads its lines; the legacy heal
  that seeds quants from bins.
- A cancelled delivery's short advance, unreachable in the code as in the model, also gives the reservation back here.
- Concurrent calls on one voucher: retries are sequential.
- Picking and batch projections, `validate_picking` as a whole, procurement, availability, scrap, intake, masters, events,
  tenancy, ledger row numbering and dates.
- The move-level posting state armed by the done verb; the move's envelope is modelled, its posting run is not.
- Location account overrides: the account a leg resolves to is an input, the same for a post and its repost or reversal.
- The value-diff envelope of a reconciliation voucher and staging rows for lots, packages and owners.
- StockService.StockService.ActionCancel: answers the quantity released by the root; the cascade's per-child quantities,
  carried by events, are left out.
