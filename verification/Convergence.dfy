/** Whether a retried voucher can be closed: for each kind of door, interrupted anywhere and then left alone,
    the condition under which every long enough undisturbed sequence of its steps closes it, and without
    which none does. */
module Convergence {
  import opened Common
  import opened StockTypes
  import opened Reservation
  import opened Engine
  import opened Invariants
  import opened Runs
  import opened Coverage
  import opened Doors
  import opened DoorRuns
  import opened DoorWalks
  import opened Vouchers
  import opened LostRecords
  import opened DeliveryTotals
  import opened DoorVerbs
  import opened Forecast
  import opened Progress
  import opened DeadEnds

  // ---- closing alone -----------------------------------------------------------------------

  /** Some sequence of its own events closes the voucher. */
  ghost predicate MayClose(d: Door)
    requires Sized(d) && d.j < |d.jobs|
  {
    exists es :: Reaches(d.jobs, d.w, es, d.j) && RunOn(d.jobs, d.w, es).closed[d.j]
  }

  ghost predicate ClosesWithin(d: Door, n: nat)
    requires Sized(d) && d.j < |d.jobs|
  {
    forall es :: Undisturbed(d, es) && |es| >= n ==> RunOn(d.jobs, d.w, es).closed[d.j]
  }

  /** Every long enough undisturbed sequence of its steps does. */
  ghost predicate AlwaysCloses(d: Door)
    requires Sized(d) && d.j < |d.jobs|
  {
    exists n: nat :: ClosesWithin(d, n)
  }

  /** There are such sequences of any length, so what always closes may. */
  lemma AlwaysIsPossible(d: Door)
    requires WorldInv(d.locs, d.jobs, d.w) && JobsOk(d.locs, d.jobs) && Sized(d) && d.j < |d.jobs| && AlwaysCloses(d)
    ensures MayClose(d)
  {
    hide WorldInv, JobsOk, Undisturbed, Reaches;
    var n: nat :| ClosesWithin(d, n);
    var es := SomeWalk(d, n);
    UndisturbedReaches(d, es);
  }

  lemma AbleAlwaysCloses(d: Door)
    requires Able(d) && Sized(d)
    ensures AlwaysCloses(d)
  {
    hide Able, Undisturbed, Fuel;
    AbleSized(d);
    FuelLeft(d);
    var n: nat := Fuel(d.w.s, d.jobs[d.j], Standing(d));
    forall es | Undisturbed(d, es) && |es| >= n ensures RunOn(d.jobs, d.w, es).closed[d.j] { AbleCloses(d, es); }
    assert ClosesWithin(d, n);
  }

  lemma HopelessMayNot(d: Door)
    requires WorldInv(d.locs, d.jobs, d.w) && JobsOk(d.locs, d.jobs) && Sized(d) && d.j < |d.jobs| && !d.w.closed[d.j]
    requires Hopeless(d.locs, d.jobs, d.w, d.j)
    ensures !MayClose(d)
  {
    hide WorldInv, JobsOk, Reaches, Hopeless;
    forall es | Reaches(d.jobs, d.w, es, d.j) ensures !RunOn(d.jobs, d.w, es).closed[d.j] {
      HopelessNeverCloses(d.locs, d.jobs, d.w, es, d.j);
    }
  }

  // ---- a door between calls --------------------------------------------------------------------

  /** A call is let in, no line is stuck, and nothing a recording door is to write will be refused. */
  ghost predicate Ready(d: Door)
    requires Sized(d) && d.j < |d.jobs|
  {
    var s, job := d.w.s, d.jobs[d.j];
    && AfterClosed(job, d.w.closed) && Admits(s, job) && AllCanLand(s, job)
    && (job.records ==> RowsWillTake(s, job) && HeaderToCome(s, job) >= 0.0)
  }

  /** An open door between calls; a recording one is a delivery's, its bins at rates their column holds. */
  ghost predicate Waits(d: Door) {
    && WorldInv(d.locs, d.jobs, d.w) && JobsOk(d.locs, d.jobs) && Sized(d) && d.j < |d.jobs|
    && Standing(d) == Idle && !d.w.closed[d.j] && Positive(d.jobs[d.j])
    && (d.jobs[d.j].records ==> Delivers(d.locs, d.jobs, d.j) && RatesHeld(d.w.s.books.bins, d.locs, d.jobs[d.j]))
  }

  lemma WaitsWell(d: Door)
    requires Waits(d)
    ensures WorldInv(d.locs, d.jobs, d.w) && JobsOk(d.locs, d.jobs) && Sized(d) && d.j < |d.jobs| && !d.w.closed[d.j]
    ensures d.w.s.locs == d.locs
  {
    SoundOf(d.locs, d.jobs, d.w);
    hide WorldInv, JobsOk, Delivers, RatesHeld;
  }

  /** It closes whenever it is ready and the free stock covers what its lines need. */
  lemma ReadyCloses(d: Door)
    requires Waits(d) && Sized(d) && d.j < |d.jobs| && Ready(d) && Covered(d.w.s, d.jobs[d.j])
    ensures AlwaysCloses(d) && MayClose(d)
  {
    OutboundRecords(d.locs, d.jobs, d.j);
    hide WorldInv, JobsOk, Admits, AllCanLand, RowsWillTake, HeaderToCome, Outbound, Delivers, RatesHeld, Covered,
      AlwaysCloses, MayClose;
    AbleAlwaysCloses(d);
    AlwaysIsPossible(d);
  }

  /** It never does unless it is ready and what no line holds covers what its lines need. */
  lemma ClosesOnlyReady(d: Door)
    requires Waits(d) && Sized(d) && d.j < |d.jobs| && MayClose(d)
    ensures Ready(d) && (GoesOut(d.locs, d.jobs[d.j]) ==> Coverable(d.w.s, d.jobs[d.j]))
  {
    WaitsWell(d);
    OutboundRecords(d.locs, d.jobs, d.j);
    if !(Ready(d) && (GoesOut(d.locs, d.jobs[d.j]) ==> Coverable(d.w.s, d.jobs[d.j]))) {
      assert Hopeless(d.locs, d.jobs, d.w, d.j) by {
        hide WorldInv, JobsOk, Admits, CanLand, HeaderToCome, ToCome, Outbound, RatesHeld, NeedOf, Unheld, GoesOut,
          MayClose;
      }
      HopelessMayNot(d);
    }
  }

  /** Where every counter is its mirror, what is free is what no line holds. */
  lemma ExactlyCovered(s: Estate, job: Job)
    requires Sound(s, true)
    ensures Coverable(s, job) <==> Covered(s, job)
  {
    hide Sound, NeedOf, FreeAt, Unheld;
    forall item, loc | IsInternal(s.locs, loc) ensures FreeAt(s.quants, item, loc) == Unheld(s, item, loc) {
      FreeIsUnheld(s, true, item, loc);
    }
  }

  /** A door that supplies itself from outside needs no stock. */
  lemma OutsideIsCovered(locs: map<Loc, Location>, jobs: seq<Job>, w: World, j: nat)
    requires WorldInv(locs, jobs, w) && j < |jobs|
    requires forall k :: 0 <= k < |jobs[j].lines| && jobs[j].lines[k].Some? ==>
      !IsInternal(locs, jobs[j].lines[k].value.src)
    ensures Covered(w.s, jobs[j])
  {
    SoundOf(locs, jobs, w);
    hide WorldInv, Sound;
    forall item, loc | IsInternal(w.s.locs, loc)
      ensures NeedOf(w.s, jobs[j], item, loc) <= FreeAt(w.s.quants, item, loc) {
      SumZero(jobs[j].lines, NeedW(w.s, item, loc));
      FreeIsUnheld(w.s, false, item, loc);
    }
  }

  /** The guard over the open lines asks for nothing more than free stock that covers them. */
  lemma CoveredIsAdmitted(locs: map<Loc, Location>, jobs: seq<Job>, w: World, j: nat)
    requires WorldInv(locs, jobs, w) && JobsOk(locs, jobs) && j < |jobs| && Positive(jobs[j]) && Covered(w.s, jobs[j])
    requires AllCanLand(w.s, jobs[j]) && jobs[j].guard == OpenLines
    ensures Admits(w.s, jobs[j])
  {
    hide WorldInv, JobsOk, Covered, CanLand, Stocked;
    var s, job := w.s, jobs[j];
    forall i: nat {:trigger Tested(s.moves, job, i)} | i < |job.lines| && Tested(s.moves, job, i)
      ensures Stocked(s, job.lines[i].value)
    {
      assert Leg(jobs, j, i);
      OpenLineStocked(locs, jobs, w, j, i);
    }
  }

  lemma OpenLineStocked(locs: map<Loc, Location>, jobs: seq<Job>, w: World, j: nat, i: nat)
    requires WorldInv(locs, jobs, w) && JobsOk(locs, jobs) && Leg(jobs, j, i) && Positive(jobs[j])
      && Covered(w.s, jobs[j])
    requires CanLand(w.s, MoveOf(jobs, j, i)) && !Landed(w.s.moves, jobs[j].lines[i])
    ensures Stocked(w.s, MoveOf(jobs, j, i))
  {
    hide WorldInv, JobsOk, FreeAt, StockAt, NeedOf, Need, MoveQty, Sound;
    SoundOf(locs, jobs, w);
    var s, nm := w.s, MoveOf(jobs, j, i);
    if SourceKey(locs, nm).Some? {
      NeedWithin(locs, jobs, w, j, i);
      StockInBin(s, nm.item, nm.src);
      FreeInStock(s, nm.item, nm.src);
      if exists m :: NamedMove(s.moves, m, nm.name) {
        var m :| NamedMove(s.moves, m, nm.name);
        NeedIs(locs, jobs, w, j, i, m);
        NeverWaits(locs, jobs, w, j, i, m);
        MoveHeldInStock(s, m);
      } else {
        NeedsAll(s, nm);
      }
    }
  }

  lemma NeedsAll(s: Estate, nm: NewMove)
    requires forall m :: !NamedMove(s.moves, m, nm.name)
    ensures Need(s, nm) == nm.demand
  {
  }

  // ---- after an interruption -------------------------------------------------------------------

  /** The world a crash of door `j` leaves behind a run. */
  ghost function Interrupted(locs: map<Loc, Location>, jobs: seq<Job>, es: seq<Event>, j: nat): (d: Door)
    ensures Sized(d) && d.locs == locs && d.jobs == jobs && d.j == j
  {
    Door(locs, jobs, StepWorld(jobs, RunWorld(locs, jobs, es), Crash(j)), j)
  }

  lemma InterruptedIs(locs: map<Loc, Location>, jobs: seq<Job>, es: seq<Event>, j: nat)
    requires JobsOk(locs, jobs) && LegalEvents(locs, jobs, es) && j < |jobs|
    ensures var d, w := Interrupted(locs, jobs, es, j), RunWorld(locs, jobs, es);
      WorldInv(locs, jobs, d.w) && Standing(d) == Idle && d.w.closed == w.closed && d.w.s == w.s
  {
    EveryWorldIsSound(locs, jobs, es);
    EventKeepsWorld(locs, jobs, RunWorld(locs, jobs, es), Crash(j));
    hide WorldInv, JobsOk;
  }

  /** No operator edited a line's quantity. */
  predicate Unedited(es: seq<Event>) { forall e :: e in es && e.Other? ==> !e.c.ShrinkCmd? }

  lemma {:induction false} UneditedIsExact(locs: map<Loc, Location>, jobs: seq<Job>, es: seq<Event>)
    requires LegalEvents(locs, jobs, es) && Unedited(es)
    ensures Sound(RunWorld(locs, jobs, es).s, true)
  {
    hide StepWorld, EventOk, Sound, Contract;
    if es == [] {
      EmptySound(locs, true);
    } else {
      var n := |es| - 1;
      var w := RunWorld(locs, jobs, es[..n]);
      UneditedIsExact(locs, jobs, es[..n]);
      EventRunsCommand(jobs, w, es[n]);
      var c := CommandOf(jobs, w, es[n]);
      if c.Some? {
        NotAnEdit(jobs, w, es[n]);
        StepSound(w.s, c.value, true);
      }
    }
  }

  lemma NotAnEdit(jobs: seq<Job>, w: World, e: Event)
    requires |w.calls| == |jobs| && (e.Other? ==> !e.c.ShrinkCmd?)
    ensures CommandOf(jobs, w, e).Some? ==> !CommandOf(jobs, w, e).value.ShrinkCmd?
  {
  }

  // ---- the four vouchers -------------------------------------------------------------------------

  /** The lines of every voucher leg move positive quantities, as its rows hold no negative one. */
  lemma VouchersArePositive(v: Id, items: seq<ItemLine>, cogs: seq<real>, a: Loc, b: Loc, submit: nat)
    requires |cogs| == |items| && forall i :: 0 <= i < |items| ==> items[i].quantity >= 0.0
    ensures Positive(ReceiptJob(v, items, a, b)) && Positive(CancelReceiptJob(v, items, a, b, submit))
    ensures Positive(DeliveryJob(v, items, a, b)) && Positive(CancelDeliveryJob(v, items, cogs, a, b, submit))
  {
  }

  predicate NoneBelowZero(items: seq<ItemLine>) { forall i :: 0 <= i < |items| ==> items[i].quantity >= 0.0 }

  /** A receipt interrupted anywhere, any number of times, among any other activity: left alone it is closed
      exactly when none of its lines is stuck, none cancelled, none assigned with its lines emptied,
      none the engine refuses to create a move for; and then by every long enough sequence. */
  lemma RetriedReceiptConvergesIff(locs: map<Loc, Location>, jobs: seq<Job>, es: seq<Event>, v: Id,
      items: seq<ItemLine>, supplier: Loc, stock: Loc, j: nat)
    requires JobsOk(locs, jobs) && LegalEvents(locs, jobs, es) && NoneBelowZero(items) && !IsInternal(locs, supplier)
    requires j < |jobs| && jobs[j] == ReceiptJob(v, items, supplier, stock) && !RunWorld(locs, jobs, es).closed[j]
    ensures var d := Interrupted(locs, jobs, es, j);
      && (MayClose(d) <==> AllCanLand(d.w.s, jobs[j]))
      && (AlwaysCloses(d) <==> AllCanLand(d.w.s, jobs[j]))
  {
    VouchersArePositive(v, items, seq(|items|, i => 0.0), supplier, stock, 0);
    hide JobsOk, LegalEvents, RunWorld, WorldInv, AllCanLand, MayClose, AlwaysCloses, Positive, Interrupted, Covered,
      Delivers, RatesHeld, Coverable, GoesOut;
    var d := Interrupted(locs, jobs, es, j);
    InterruptedIs(locs, jobs, es, j);
    OutsideIsCovered(locs, jobs, d.w, j);
    if AllCanLand(d.w.s, jobs[j]) { ReadyCloses(d); }
    if AlwaysCloses(d) { AlwaysIsPossible(d); }
    if MayClose(d) { ClosesOnlyReady(d); }
  }

  /** The cancellation of a delivery likewise, once the delivery is closed. */
  lemma RetriedDeliveryCancelConvergesIff(locs: map<Loc, Location>, jobs: seq<Job>, es: seq<Event>, v: Id,
      items: seq<ItemLine>, cogs: seq<real>, stock: Loc, customer: Loc, submit: nat, j: nat)
    requires JobsOk(locs, jobs) && LegalEvents(locs, jobs, es) && NoneBelowZero(items) && |cogs| == |items|
    requires j < |jobs| && jobs[j] == CancelDeliveryJob(v, items, cogs, stock, customer, submit)
    requires !RunWorld(locs, jobs, es).closed[j] && !IsInternal(locs, customer)
    ensures var d := Interrupted(locs, jobs, es, j);
      var open := AfterClosed(jobs[j], d.w.closed) && AllCanLand(d.w.s, jobs[j]);
      (MayClose(d) <==> open) && (AlwaysCloses(d) <==> open)
  {
    VouchersArePositive(v, items, cogs, stock, customer, submit);
    hide JobsOk, LegalEvents, RunWorld, WorldInv, AllCanLand, MayClose, AlwaysCloses, Positive, Interrupted, Covered,
      Delivers, RatesHeld, Coverable, GoesOut, AfterClosed;
    var d := Interrupted(locs, jobs, es, j);
    InterruptedIs(locs, jobs, es, j);
    OutsideIsCovered(locs, jobs, d.w, j);
    if AllCanLand(d.w.s, jobs[j]) && AfterClosed(jobs[j], d.w.closed) { ReadyCloses(d); }
    if AlwaysCloses(d) { AlwaysIsPossible(d); }
    if MayClose(d) { ClosesOnlyReady(d); }
  }

  /** The cancellation of a receipt draws from stock: it closes whenever the receipt is closed, no line is
      stuck and the free stock covers what its lines still need, and only if what no line holds does;
      where no operator edited a line that is exactly when. */
  lemma RetriedReceiptCancelConverges(locs: map<Loc, Location>, jobs: seq<Job>, es: seq<Event>, v: Id,
      items: seq<ItemLine>, supplier: Loc, stock: Loc, submit: nat, j: nat)
    requires JobsOk(locs, jobs) && LegalEvents(locs, jobs, es) && NoneBelowZero(items) && !IsInternal(locs, supplier)
    requires j < |jobs| && jobs[j] == CancelReceiptJob(v, items, supplier, stock, submit)
    requires !RunWorld(locs, jobs, es).closed[j]
    ensures var d := Interrupted(locs, jobs, es, j);
      var open := AfterClosed(jobs[j], d.w.closed) && AllCanLand(d.w.s, jobs[j]);
      && (open && Covered(d.w.s, jobs[j]) ==> AlwaysCloses(d) && MayClose(d))
      && (MayClose(d) ==> open && Admits(d.w.s, jobs[j]) && Coverable(d.w.s, jobs[j]))
      && (Unedited(es) ==>
            (MayClose(d) <==> open && Covered(d.w.s, jobs[j]))
              && (AlwaysCloses(d) <==> open && Covered(d.w.s, jobs[j])))
  {
    VouchersArePositive(v, items, seq(|items|, i => 0.0), supplier, stock, submit);
    hide JobsOk, LegalEvents, RunWorld, WorldInv, AllCanLand, MayClose, AlwaysCloses, Positive, Interrupted, Covered,
      Delivers, RatesHeld, Coverable, AfterClosed, Admits, Unedited, Sound;
    var d, job := Interrupted(locs, jobs, es, j), jobs[j];
    InterruptedIs(locs, jobs, es, j);
    if AllCanLand(d.w.s, job) && Covered(d.w.s, job) { CoveredIsAdmitted(locs, jobs, d.w, j); }
    if AllCanLand(d.w.s, job) && Covered(d.w.s, job) && AfterClosed(job, d.w.closed) { ReadyCloses(d); }
    if AlwaysCloses(d) { AlwaysIsPossible(d); }
    if MayClose(d) { ClosesOnlyReady(d); }
    if Unedited(es) {
      UneditedIsExact(locs, jobs, es);
      ExactlyCovered(d.w.s, job);
    }
  }

  /** A delivery tests the bins of all its lines again at every call, those that landed included. It closes
      whenever each bin holds its line's quantity, no line is stuck, no line is going to carry a
      negative value out nor the header's total to be negative, and the free stock covers what is
      still to be reserved; and only if all of that holds, of the stock no line holds instead of the
      free stock. Where no operator edited a line the two are the same. */
  lemma RetriedDeliveryConverges(locs: map<Loc, Location>, jobs: seq<Job>, es: seq<Event>, v: Id,
      items: seq<ItemLine>, stock: Loc, customer: Loc, j: nat)
    requires JobsOk(locs, jobs) && LegalEvents(locs, jobs, es) && NoneBelowZero(items)
    requires j < |jobs| && jobs[j] == DeliveryJob(v, items, stock, customer) && !RunWorld(locs, jobs, es).closed[j]
    requires IsInternal(locs, stock) && !IsInternal(locs, customer)
    requires RatesHeld(RunWorld(locs, jobs, es).s.books.bins, locs, jobs[j])
    ensures var d := Interrupted(locs, jobs, es, j);
      && (Ready(d) && Covered(d.w.s, jobs[j]) ==> AlwaysCloses(d) && MayClose(d))
      && (MayClose(d) ==> Ready(d) && Coverable(d.w.s, jobs[j]))
      && (Unedited(es) ==>
            && (MayClose(d) <==> Ready(d) && Covered(d.w.s, jobs[j]))
            && (AlwaysCloses(d) <==> Ready(d) && Covered(d.w.s, jobs[j])))
  {
    VouchersArePositive(v, items, seq(|items|, i => 0.0), stock, customer, 0);
    DeliveryIsOutbound(locs, jobs, v, items, stock, customer, j);
    DeliveryDelivers(locs, jobs, v, items, stock, customer, j);
    hide JobsOk, LegalEvents, RunWorld, WorldInv, AllCanLand, MayClose, AlwaysCloses, Positive, Interrupted, Covered,
      Delivers, RatesHeld, Coverable, Ready, Unedited, Sound, Outbound, OwnOutbound, DeliveryJob;
    var d, job := Interrupted(locs, jobs, es, j), jobs[j];
    InterruptedIs(locs, jobs, es, j);
    if Ready(d) && Covered(d.w.s, job) { ReadyCloses(d); }
    if AlwaysCloses(d) { AlwaysIsPossible(d); }
    if MayClose(d) { ClosesOnlyReady(d); }
    if Unedited(es) {
      UneditedIsExact(locs, jobs, es);
      ExactlyCovered(d.w.s, job);
    }
  }

  lemma DeliveryDelivers(locs: map<Loc, Location>, jobs: seq<Job>, v: Id, items: seq<ItemLine>, stock: Loc,
      customer: Loc, j: nat)
    requires j < |jobs| && jobs[j] == DeliveryJob(v, items, stock, customer) && Outbound(locs, jobs, j)
    requires NoneBelowZero(items) && !IsInternal(locs, customer)
    ensures Delivers(locs, jobs, j) && GoesOut(locs, jobs[j])
  {
    hide Outbound;
  }

  /** So a delivery stopped after a line landed is not let in again before that line's bin holds the line's
      quantity once more, though nothing of it is left to ship. */
  lemma ShippedLineLocksOut(locs: map<Loc, Location>, jobs: seq<Job>, es: seq<Event>, v: Id, items: seq<ItemLine>,
      stock: Loc, customer: Loc, j: nat, k: nat)
    requires JobsOk(locs, jobs) && LegalEvents(locs, jobs, es) && NoneBelowZero(items)
    requires j < |jobs| && jobs[j] == DeliveryJob(v, items, stock, customer) && !RunWorld(locs, jobs, es).closed[j]
    requires IsInternal(locs, stock) && !IsInternal(locs, customer)
    requires RatesHeld(RunWorld(locs, jobs, es).s.books.bins, locs, jobs[j])
    requires var s := RunWorld(locs, jobs, es).s;
      Leg(jobs, j, k) && Landed(s.moves, jobs[j].lines[k]) && !Stocked(s, MoveOf(jobs, j, k))
    ensures !MayClose(Interrupted(locs, jobs, es, j))
  {
    RetriedDeliveryConverges(locs, jobs, es, v, items, stock, customer, j);
    InterruptedIs(locs, jobs, es, j);
    hide JobsOk, LegalEvents, RunWorld, WorldInv, MayClose, Interrupted, Covered, AlwaysCloses, RatesHeld, Stocked,
      Landed;
    assert Tested(Interrupted(locs, jobs, es, j).w.s.moves, jobs[j], k);
  }
}
