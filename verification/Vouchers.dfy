/** Receipts, deliveries and their cancellations as doors, and what their runs promise: a line's
    stock moves once however often the door is interrupted and retried, and a cancellation takes
    back exactly what was moved. */
module Vouchers {
  import opened Common
  import opened Rounding
  import opened StockTypes
  import opened Valuation
  import opened ValuationLaws
  import opened Reservation
  import opened Engine
  import opened Invariants
  import opened Runs
  import opened Frames
  import opened Doors
  import opened DoorRuns

  datatype ItemLine = ItemLine(item: Item, quantity: real, rate: real, landedCost: bool)

  // ---- the legs of the vouchers -----------------------------------------------------------

  function LineMove(name: Name, it: ItemLine, price: real, src: Loc, dst: Loc, forced: Option<real>): Option<NewMove> {
    if it.quantity == 0.0 || it.landedCost then None
    else Some(NewMove(name, it.item, it.quantity, price, src, dst, [], [], false, forced, true))
  }

  /** A skipped line still consumes its index, so names stay aligned with lines. */
  function ReceiptJob(v: Id, items: seq<ItemLine>, supplier: Loc, stock: Loc): Job {
    Job(seq(|items|, i requires 0 <= i < |items| => LineMove(Forward(v, i), items[i], items[i].rate, supplier, stock,
      None)), false, false, Unguarded, None)
  }

  function CancelReceiptJob(v: Id, items: seq<ItemLine>, supplier: Loc, stock: Loc, submit: nat): Job {
    Job(seq(|items|, i requires 0 <= i < |items| =>
              LineMove(Reversal(v, i), items[i], 0.0, stock, supplier, Some(Amount(items[i].quantity, items[i].rate)))),
        true, false, OpenLines, Some(submit))
  }

  function DeliveryJob(v: Id, items: seq<ItemLine>, stock: Loc, customer: Loc): Job {
    Job(seq(|items|, i requires 0 <= i < |items| => LineMove(Forward(v, i), items[i].(landedCost := false), 0.0, stock,
      customer, None)), true, true, EveryLine, None)
  }

  function CancelDeliveryJob(v: Id, items: seq<ItemLine>, cogs: seq<real>, stock: Loc, customer: Loc, submit: nat): Job
    requires |cogs| == |items|
  {
    Job(seq(|items|, i requires 0 <= i < |items| => LineMove(Reversal(v, i), items[i].(landedCost := false), 0.0,
      customer, stock, Some(cogs[i]))),
        true, false, Unguarded, Some(submit))
  }

  /** A line moved as it stands: from one place to the other, at a price or a forced value. */
  predicate MovesLine(nm: NewMove, it: ItemLine, price: real, src: Loc, dst: Loc, forced: Option<real>) {
    && nm.item == it.item && nm.demand == it.quantity && nm.price == price && nm.src == src && nm.dst == dst
    && nm.forced == forced && nm.orig == [] && nm.dest == [] && !nm.isInventory
  }

  /** What becomes of a line on each leg of its voucher. A line without quantity moves nothing, nor does a
      receipt's service line. A receipt brings the line in at its rate and its cancellation takes it back
      at the line amount; a delivery ships it at the average and its cancellation returns it at the cost
      given for it. The reversals alone wait for another voucher's closing, and each leg tests the stock
      it needs: a delivery that of every line, a receipt's cancellation that of the lines still to go. */
  lemma WhatALineMoves(v: Id, items: seq<ItemLine>, cogs: seq<real>, outside: Loc, stock: Loc, submit: nat, i: nat)
    requires |cogs| == |items| && i < |items|
    ensures var it := items[i];
      var receipt, taken := ReceiptJob(v, items, outside, stock), CancelReceiptJob(v, items, outside, stock, submit);
      var shipped, back := DeliveryJob(v, items, stock, outside),
        CancelDeliveryJob(v, items, cogs, stock, outside, submit);
      && |receipt.lines| == |taken.lines| == |shipped.lines| == |back.lines| == |items|
      && (receipt.lines[i].Some? <==> it.quantity != 0.0 && !it.landedCost)
      && (taken.lines[i].Some? <==> it.quantity != 0.0 && !it.landedCost)
      && (shipped.lines[i].Some? <==> it.quantity != 0.0)
      && (back.lines[i].Some? <==> it.quantity != 0.0)
      && (receipt.lines[i].Some? ==>
            && MovesLine(receipt.lines[i].value, it, it.rate, outside, stock, None)
            && MovesLine(taken.lines[i].value, it, 0.0, stock, outside, Some(Money(it.quantity * it.rate))))
      && (shipped.lines[i].Some? ==>
            && MovesLine(shipped.lines[i].value, it, 0.0, stock, outside, None)
            && MovesLine(back.lines[i].value, it, 0.0, outside, stock, Some(cogs[i])))
      && receipt.after.None? && shipped.after.None? && taken.after == back.after == Some(submit)
      && receipt.guard == back.guard == Unguarded && shipped.guard == EveryLine && taken.guard == OpenLines
      && shipped.records && !receipt.records && !taken.records && !back.records
  {
  }

  /** A receipt's two legs, and a delivery's, are doors of the kind the run theorems speak of: every
      line has a name of its own, and only the receipt's, from outside, go without a whole reservation. */
  lemma ReceiptLegsOk(locs: map<Loc, Location>, v: Id, items: seq<ItemLine>, supplier: Loc, stock: Loc)
    requires !IsInternal(locs, supplier)
    ensures JobsOk(locs, [ReceiptJob(v, items, supplier, stock), CancelReceiptJob(v, items, supplier, stock, 0)])
  {
    var jobs := [ReceiptJob(v, items, supplier, stock), CancelReceiptJob(v, items, supplier, stock, 0)];
    forall j: nat, i: nat {:trigger Leg(jobs, j, i)} | Leg(jobs, j, i)
      ensures MoveOf(jobs, j, i).name == (if j == 0 then Forward(v, i) else Reversal(v, i))
        && MoveOf(jobs, j, i).orig == []
      ensures j == 0 ==> MoveOf(jobs, j, i).src == supplier
      ensures jobs[j].strict || j == 0
    {}
  }

  lemma DeliveryLegsOk(locs: map<Loc, Location>, v: Id, items: seq<ItemLine>, cogs: seq<real>, stock: Loc,
      customer: Loc)
    requires |cogs| == |items|
    ensures JobsOk(locs,
      [DeliveryJob(v, items, stock, customer), CancelDeliveryJob(v, items, cogs, stock, customer, 0)])
  {
    var jobs := [DeliveryJob(v, items, stock, customer), CancelDeliveryJob(v, items, cogs, stock, customer, 0)];
    forall j: nat, i: nat {:trigger Leg(jobs, j, i)} | Leg(jobs, j, i)
      ensures MoveOf(jobs, j, i).name == (if j == 0 then Forward(v, i) else Reversal(v, i))
        && MoveOf(jobs, j, i).orig == [] && jobs[j].strict
    {}
  }

  // ---- exactly once -------------------------------------------------------------------------

  /** The line's one move is done with the line's whole quantity, and the ledger shows it once. */
  ghost predicate MovedOnce(s: Estate, nm: NewMove, m: Id) {
    && NamedMove(s.moves, m, nm.name)
    && (forall m' :: NamedMove(s.moves, m', nm.name) ==> m' == m)
    && s.moves[m].state == Done && s.moves[m].quantity == nm.demand
    && SameOrder(DraftOf(nm), s.moves[m])
    && forall k ::
         VoucherQty(s.books.rows, StockEntry(m), k) ==
         LegAt(nm.item, LocAt(s.locs, nm.src), LocAt(s.locs, nm.dst), nm.demand, nm.demand, k)
  }

  lemma LandedMovedOnce(locs: map<Loc, Location>, jobs: seq<Job>, w: World, j: nat, i: nat) returns (m: Id)
    requires WorldInv(locs, jobs, w) && Leg(jobs, j, i) && Landed(w.s.moves, jobs[j].lines[i])
    ensures MovedOnce(w.s, MoveOf(jobs, j, i), m)
  {
    var nm := MoveOf(jobs, j, i);
    assert LineInv(w.s, nm);
    m :| NamedMove(w.s.moves, m, nm.name) && w.s.moves[m].state == Done;
    assert PostedOnce(w.s.locs, w.s.moves[m], w.s.books.rows, StockEntry(m));
  }

  /** A closed voucher, whatever crashes, retries and other activity led to it: every line that
      moves stock has exactly one move, done, its whole quantity on the ledger once. */
  lemma ClosedMovesEachLineOnce(locs: map<Loc, Location>, jobs: seq<Job>, es: seq<Event>, j: nat, i: nat)
    requires JobsOk(locs, jobs) && LegalEvents(locs, jobs, es) && Leg(jobs, j, i)
    requires RunWorld(locs, jobs, es).closed[j]
    ensures exists m :: MovedOnce(RunWorld(locs, jobs, es).s, MoveOf(jobs, j, i), m)
  {
    var w := RunWorld(locs, jobs, es);
    EveryWorldIsSound(locs, jobs, es);
    assert DoorInv(w.s, jobs, j, w.calls[j], w.closed[j], w.recorded[j]);
    hide MovedOnce, Sound;
    var m := LandedMovedOnce(locs, jobs, w, j, i);
  }

  /** At every moment of every run, closed or not, a line has at most one move; until it is done
      nothing is on the ledger for it, and then its whole quantity, once. */
  lemma NeverMovesTwice(locs: map<Loc, Location>, jobs: seq<Job>, es: seq<Event>, j: nat, i: nat, m: Id)
    requires JobsOk(locs, jobs) && LegalEvents(locs, jobs, es) && Leg(jobs, j, i)
    requires NamedMove(RunWorld(locs, jobs, es).s.moves, m, MoveOf(jobs, j, i).name)
    ensures var s := RunWorld(locs, jobs, es).s;
      if s.moves[m].state == Done then MovedOnce(s, MoveOf(jobs, j, i), m) else
        && Unposted(s.books.rows, StockEntry(m))
        && forall m' :: NamedMove(s.moves, m', MoveOf(jobs, j, i).name) ==> m' == m
  {
    var w := RunWorld(locs, jobs, es);
    EveryWorldIsSound(locs, jobs, es);
    assert LineInv(w.s, MoveOf(jobs, j, i));
    if w.s.moves[m].state == Done {
      var n := LandedMovedOnce(locs, jobs, w, j, i);
    } else {
      assert (m in w.s.moves && w.s.moves[m].state == Done) || Unposted(w.s.books.rows, StockEntry(m));
    }
  }

  // ---- a reversal begins only after its voucher closed ----------------------------------------

  ghost predicate InSequence(jobs: seq<Job>, w: World)
    requires |w.calls| == |w.closed| == |jobs|
  {
    forall j :: 0 <= j < |jobs| && jobs[j].after.Some? && (w.closed[j] || w.calls[j] != Idle) ==>
      jobs[j].after.value < |jobs| && w.closed[jobs[j].after.value]
  }

  lemma StepInSequence(jobs: seq<Job>, w: World, e: Event)
    requires |w.calls| == |w.closed| == |w.recorded| == |jobs| && InSequence(jobs, w)
    ensures InSequence(jobs, StepWorld(jobs, w, e))
  {
    hide Step, CmdOf, Exec;
    var w' := StepWorld(jobs, w, e);
    forall j | 0 <= j < |jobs| ensures w.closed[j] ==> w'.closed[j] {}
    forall j | 0 <= j < |jobs| && jobs[j].after.Some? && (w'.closed[j] || w'.calls[j] != Idle)
      ensures jobs[j].after.value < |jobs| && w.closed[jobs[j].after.value]
    {
      if !(w.closed[j] || w.calls[j] != Idle) { assert e.Begin? && e.door == j; }
    }
  }

  /** The bin of a line's source, if it has one, holds the line's quantity. */
  predicate BinHolds(s: Estate, nm: NewMove) {
    var from := LocAt(s.locs, nm.src);
    from.usage == Internal && from.warehouse.Some? ==>
      BinAt(s.books.bins, BinKey(nm.item, from.warehouse.value)).qty >= nm.demand
  }

  /** A call that has not begun begins exactly when its voucher is open, the stock it tests is there and, for a
      reversal, the voucher it reverses is closed with its post on record; else nothing happens. */
  lemma BeginsIff(jobs: seq<Job>, w: World, j: nat, onRecord: bool)
    requires |w.calls| == |w.closed| == |w.recorded| == |jobs| && j < |jobs| && w.calls[j] == Idle
    ensures var w' := StepWorld(jobs, w, Begin(j, onRecord)); var job := jobs[j];
      && (w'.calls[j] == AtLine(0) || w'.calls[j] == Idle)
      && (w'.calls[j] == AtLine(0) <==>
            && !w.closed[j]
            && (job.after.Some? ==> onRecord && job.after.value < |jobs| && w.closed[job.after.value])
            && forall i :: 0 <= i < |job.lines| && job.lines[i].Some? && MustHold(w.s, job, job.lines[i].value) ==>
                 BinHolds(w.s, job.lines[i].value))
      && w' == w.(calls := w.calls[j := w'.calls[j]])
  {
    var job := jobs[j];
    forall i: nat | i < |job.lines| && job.lines[i].Some?
      ensures Tested(w.s.moves, job, i) <==> MustHold(w.s, job, job.lines[i].value)
      ensures Stocked(w.s, job.lines[i].value) <==> BinHolds(w.s, job.lines[i].value)
    {
    }
    assert w.calls[j := w.calls[j]] == w.calls;
    hide Stocked, BinHolds, MustHold;
    if Admits(w.s, job) {
      forall i | 0 <= i < |job.lines| && job.lines[i].Some? && MustHold(w.s, job, job.lines[i].value)
        ensures BinHolds(w.s, job.lines[i].value) {
        assert Tested(w.s.moves, job, i);
      }
    }
  }

  /** Whether a call insists on the stock of a line: of every line, or of those with no done move yet. */
  ghost predicate MustHold(s: Estate, job: Job, nm: NewMove) {
    match job.guard
    case Unguarded => false
    case EveryLine => true
    case OpenLines => !exists m :: m in s.moves && s.moves[m].name == nm.name && s.moves[m].state == Done
  }

  lemma {:induction false} AlwaysInSequence(locs: map<Loc, Location>, jobs: seq<Job>, es: seq<Event>)
    ensures InSequence(jobs, RunWorld(locs, jobs, es))
  {
    hide StepWorld;
    if es != [] {
      var n := |es| - 1;
      AlwaysInSequence(locs, jobs, es[..n]);
      StepInSequence(jobs, RunWorld(locs, jobs, es[..n]), es[n]);
    }
  }

  // ---- what a call never does -----------------------------------------------------------------

  lemma StepReleases(jobs: seq<Job>, w: World, e: Event, j: nat)
    requires |w.calls| == |w.closed| == |w.recorded| == |jobs| && j < |jobs|
    requires !jobs[j].strict && !w.calls[j].Releasing?
    ensures !StepWorld(jobs, w, e).calls[j].Releasing?
  {
    hide Step, CmdOf, Exec, Admits, Closes, MoveNamed;
  }

  /** A door that does not insist on whole reservations never gives one back, in any run. */
  lemma {:induction false} OnlyStrictReleases(locs: map<Loc, Location>, jobs: seq<Job>, es: seq<Event>, j: nat)
    requires j < |jobs| && !jobs[j].strict
    ensures !RunWorld(locs, jobs, es).calls[j].Releasing?
  {
    hide StepWorld;
    if es != [] {
      var n := |es| - 1;
      OnlyStrictReleases(locs, jobs, es[..n], j);
      StepReleases(jobs, RunWorld(locs, jobs, es[..n]), es[n], j);
    }
  }

  /** One that does goes on to the done only from a whole reservation, and gives back anything less. */
  lemma StrictDecides(jobs: seq<Job>, w: World, j: nat, i: nat, m: Id, unseen: Id, cands: seq<Dims>)
    requires |w.calls| == |w.closed| == |w.recorded| == |jobs| && j < |jobs| && jobs[j].strict
    requires w.calls[j] == Drive(i, m) && m in w.s.moves && w.s.moves[m].state != Draft
    ensures var w' := StepWorld(jobs, w, Advance(j, unseen, cands));
      && (w'.calls[j] == Idle || w'.calls[j] == Finishing(i, m) || w'.calls[j] == Releasing(i, m))
      && (w'.calls[j] != Idle ==> m in w'.s.moves && (w'.calls[j].Finishing? <==> w'.s.moves[m].state == Assigned))
  {
    hide AssignCore, Admits, Closes, MoveNamed;
  }

  /** A line whose move was cancelled ends the call there, and no verb is issued. */
  lemma CancelledLineStops(jobs: seq<Job>, w: World, j: nat, i: nat, m: Id, unseen: Id, cands: seq<Dims>)
    requires |w.calls| == |w.closed| == |w.recorded| == |jobs| && Leg(jobs, j, i) && w.calls[j] == AtLine(i)
    requires NamedMove(w.s.moves, m, MoveOf(jobs, j, i).name) && w.s.moves[m].state == Cancelled
    requires forall n :: NamedMove(w.s.moves, n, MoveOf(jobs, j, i).name) ==> n == m
    ensures StepWorld(jobs, w, Advance(j, unseen, cands)) == w.(calls := w.calls[j := Idle])
  {
    assert MoveNamed(w.s.moves, MoveOf(jobs, j, i).name) == Some(m);
    hide Step, Exec, HeaderTakes;
  }

  // ---- cancelling a receipt ------------------------------------------------------------------

  /** The two legs cancel out on every bin, in quantity and in value. */
  ghost predicate NetsToZero(rows: seq<Row>, m: Id, back: Id) {
    forall k :: VoucherQty(rows, StockEntry(m), k) + VoucherQty(rows, StockEntry(back), k) == 0.0
             && VoucherValue(rows, StockEntry(m), k) + VoucherValue(rows, StockEntry(back), k) == 0.0
  }

  lemma ReceiptLegsNet(s: Estate, nm: NewMove, rev: NewMove, m: Id, back: Id)
    requires Sound(s, false) && MovedOnce(s, nm, m) && MovedOnce(s, rev, back)
    requires rev.item == nm.item && rev.src == nm.dst && rev.dst == nm.src && rev.demand == nm.demand
    requires !IsInternal(s.locs, nm.src) && nm.price > 0.0 && nm.forced.None?
      && rev.forced == Some(Amount(nm.demand, nm.price))
    ensures NetsToZero(s.books.rows, m, back)
  {
    assert PostedOnce(s.locs, s.moves[m], s.books.rows, StockEntry(m));
    assert PostedOnce(s.locs, s.moves[back], s.books.rows, StockEntry(back));
    hide Sound, VoucherQty, VoucherValue, Amount;
  }

  /** Submit and cancel of a receipt priced above zero leave every bin's quantity and value where
      they would be without them, line by line, whatever happened in between. */
  lemma CancelledReceiptNetsToZero(locs: map<Loc, Location>, jobs: seq<Job>, es: seq<Event>,
      v: Id, items: seq<ItemLine>, supplier: Loc, stock: Loc, f: nat, r: nat, i: nat)
    requires JobsOk(locs, jobs) && LegalEvents(locs, jobs, es)
    requires f < |jobs| && jobs[f] == ReceiptJob(v, items, supplier, stock)
    requires r < |jobs| && jobs[r] == CancelReceiptJob(v, items, supplier, stock, f)
    requires RunWorld(locs, jobs, es).closed[r]
    requires i < |items| && items[i].quantity != 0.0 && !items[i].landedCost && items[i].rate > 0.0
    ensures var s := RunWorld(locs, jobs, es).s;
      exists m, back :: NamedMove(s.moves, m, Forward(v, i)) && NamedMove(s.moves, back, Reversal(v, i))
        && NetsToZero(s.books.rows, m, back)
  {
    var w := RunWorld(locs, jobs, es);
    EveryWorldIsSound(locs, jobs, es);
    AlwaysInSequence(locs, jobs, es);
    assert w.closed[f];
    assert Leg(jobs, f, i) && Leg(jobs, r, i);
    assert DoorInv(w.s, jobs, f, w.calls[f], w.closed[f], w.recorded[f]);
    assert DoorInv(w.s, jobs, r, w.calls[r], w.closed[r], w.recorded[r]);
    var m := LandedMovedOnce(locs, jobs, w, f, i);
    var back := LandedMovedOnce(locs, jobs, w, r, i);
    hide Sound, NetsToZero;
    ReceiptLegsNet(w.s, MoveOf(jobs, f, i), MoveOf(jobs, r, i), m, back);
  }

  /** The limit of that promise: a receipt at price `p` into a bin is undone in value by a reversal
      worth quantity times `p` exactly when the price is positive or the average it carried
      instead rounds to nothing. */
  lemma ReversalUndoesReceiptIff(books: Books, mv: Move, id: Id, src: Location, dst: Location, qty: real)
    requires mv.forced.None? && mv.price >= 0.0 && src.usage != Internal && KeyOf(mv.item, dst).Some?
    ensures var m := Mint(books, mv, id, src, dst, qty); var avg := BinAt(books.bins, KeyOf(mv.item, dst).value).rate;
      m.Ok? && (m.value.inValue == Amount(qty, mv.price) <==> mv.price > 0.0 || Amount(qty, avg) == 0.0)
  {
    MintReceipt(books, mv, id, src, dst, qty);
    assert qty * 0.0 == 0.0;
  }

  // ---- cancelling a delivery -------------------------------------------------------------------

  lemma DeliveryLegsNet(s: Estate, nm: NewMove, rev: NewMove, m: Id, back: Id, worth: real)
    requires Sound(s, false) && MovedOnce(s, nm, m) && MovedOnce(s, rev, back) && ShippedAs(s, m, worth)
    requires rev.item == nm.item && rev.src == nm.dst && rev.dst == nm.src && rev.demand == nm.demand
      && rev.forced.Some?
    requires IsInternal(s.locs, nm.src) && LocAt(s.locs, nm.src).warehouse.Some? && !IsInternal(s.locs, nm.dst)
    ensures NetsToZero(s.books.rows, m, back) <==> rev.forced.value == worth
  {
    assert PostedOnce(s.locs, s.moves[m], s.books.rows, StockEntry(m));
    assert PostedOnce(s.locs, s.moves[back], s.books.rows, StockEntry(back));
    var key := KeyOf(nm.item, LocAt(s.locs, nm.src)).value;
    hide Sound, VoucherQty, VoucherValue;
    assert VoucherValue(s.books.rows, StockEntry(m), key) == -worth;
    assert VoucherValue(s.books.rows, StockEntry(back), key) == rev.forced.value;
    if NetsToZero(s.books.rows, m, back) {
      assert VoucherQty(s.books.rows, StockEntry(m), key) + VoucherQty(s.books.rows, StockEntry(back), key) == 0.0;
    }
  }

  // ---- the receipt's document total -----------------------------------------------------------------

  /** The document values stock: a landed-cost service line adds nothing. */
  const StockAmount := (it: ItemLine) => if it.landedCost then 0.0 else Amount(it.quantity, it.rate)

  function ReceiptTotal(items: seq<ItemLine>): real { Sum(items, StockAmount) }

  /** What the ledger shows a line's move brought into its destination bin. */
  ghost function BroughtIn(s: Estate, line: Option<NewMove>): real {
    if line.None? then 0.0 else
    match MoveNamed(s.moves, line.value.name)
    case None => 0.0
    case Some(m) =>
      match KeyOf(line.value.item, LocAt(s.locs, line.value.dst))
      case None => 0.0
      case Some(k) => VoucherValue(s.books.rows, StockEntry(m), k)
  }

  ghost function BroughtInW(s: Estate): Option<NewMove> -> real { (line: Option<NewMove>) => BroughtIn(s, line) }

  lemma LineBringsItsAmount(s: Estate, nm: NewMove, m: Id)
    requires Sound(s, false) && MovedOnce(s, nm, m)
    requires nm.forced.None? && nm.price > 0.0 && !IsInternal(s.locs, nm.src)
      && KeyOf(nm.item, LocAt(s.locs, nm.dst)).Some?
    ensures BroughtIn(s, Some(nm)) == Amount(nm.demand, nm.price)
  {
    assert PostedOnce(s.locs, s.moves[m], s.books.rows, StockEntry(m));
    assert MoveNamed(s.moves, nm.name) == Some(m);
    hide Sound, VoucherQty, VoucherValue, Amount;
  }

  lemma AmountOfNothing(rate: real)
    ensures Amount(0.0, rate) == 0.0
  {
    assert 0.0 * rate == 0.0;
  }

  /** The general ledger's debit, computed from the document, is what the closed receipt's moves
      brought into the bins, provided every stock line is priced. */
  lemma ReceiptTotalIsWhatTheLedgerShows(locs: map<Loc, Location>, jobs: seq<Job>, es: seq<Event>,
      v: Id, items: seq<ItemLine>, supplier: Loc, stock: Loc, f: nat)
    requires JobsOk(locs, jobs) && LegalEvents(locs, jobs, es)
    requires f < |jobs| && jobs[f] == ReceiptJob(v, items, supplier, stock) && RunWorld(locs, jobs, es).closed[f]
    requires !IsInternal(locs, supplier) && IsInternal(locs, stock) && LocAt(locs, stock).warehouse.Some?
    requires forall i :: 0 <= i < |items| && items[i].quantity != 0.0 && !items[i].landedCost ==> items[i].rate > 0.0
    ensures Sum(jobs[f].lines, BroughtInW(RunWorld(locs, jobs, es).s)) == ReceiptTotal(items)
  {
    var w := RunWorld(locs, jobs, es);
    EveryWorldIsSound(locs, jobs, es);
    assert DoorInv(w.s, jobs, f, w.calls[f], w.closed[f], w.recorded[f]);
    hide Sound, MovedOnce, Amount, LineInv;
    forall i: nat | i < |items| ensures BroughtIn(w.s, jobs[f].lines[i]) == StockAmount(items[i]) {
      if jobs[f].lines[i].Some? {
        assert Leg(jobs, f, i);
        var m := LandedMovedOnce(locs, jobs, w, f, i);
        LineBringsItsAmount(w.s, MoveOf(jobs, f, i), m);
      } else {
        AmountOfNothing(items[i].rate);
      }
    }
    SumEqual(jobs[f].lines, items, BroughtInW(w.s), StockAmount);
  }
}
