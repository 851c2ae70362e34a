/** The cost a delivery writes on its header: each call starts from zero, adds what every line it
    drives carries out, and reads a line that already landed back from the ledger. */
module DeliveryTotals {
  import opened Common
  import opened StockTypes
  import opened Valuation
  import opened Reservation
  import opened Engine
  import opened Invariants
  import opened Runs
  import opened Frames
  import opened Doors
  import opened DoorSoundness
  import opened DoorRuns
  import opened Vouchers
  import opened LostRecords
  import Gl = GlProtocol

  // ---- what a move's ledger rows add up to ------------------------------------------------------

  lemma PostCarried(books: Books, v: Voucher, k: BinKey, actual: real, incoming: real, after: Bin, diff: real, m: Id)
    ensures CarriedOut(Post(books, v, k, actual, incoming, after, diff).rows, m) ==
            CarriedOut(books.rows, m) + (if v == StockEntry(m) then -diff else 0.0)
  {
    SumAppend(books.rows, Row(v, k, actual, incoming, after, diff), CarriedW(m));
  }

  /** A valued move adds what it carried out less what it carried in, to its own rows only. */
  lemma MintCarried(books: Books, mv: Move, id: Id, src: Location, dst: Location, qty: real, m: Id)
    requires Mint(books, mv, id, src, dst, qty).Ok?
    ensures var minted := Mint(books, mv, id, src, dst, qty).value;
      CarriedOut(minted.books.rows, m) == CarriedOut(books.rows, m) +
        (if m == id then minted.outValue - minted.inValue else 0.0)
  {
    hide CarriedOut, OutValue, StepBin, Carried;
    var ks, kd := KeyOf(mv.item, src), KeyOf(mv.item, dst);
    if ks != kd {
      if ks.Some? {
        var b := BinAt(books.bins, ks.value);
        PostCarried(books, StockEntry(id), ks.value, -qty, 0.0, StepBin(b, OutOp(qty, mv.forced)),
          -OutValue(b, qty, mv.forced), m);
      }
      var out := MintOut(books, mv, id, ks, qty).value;
      if kd.Some? {
        var b := BinAt(out.books.bins, kd.value);
        var c := Carried(mv, src, b, qty, out.outValue);
        PostCarried(out.books, StockEntry(id), kd.value, qty, mv.price, StepBin(b, In(qty, c)), c, m);
      }
    }
  }

  lemma FinishCarried(s: Estate, id: Id, policy: Policy, child: Id, cands: seq<Dims>, m: Id)
    requires Finish(s, id, policy, child, cands).Ok?
    ensures id in s.moves && Ready(s.moves[id].state)
    ensures var mv := s.moves[id]; var src, dst := LocAt(s.locs, mv.src), LocAt(s.locs, mv.dst);
      var minted := Mint(s.books, mv, id, src, dst, Sum(LinesOf(s.lines, id), QtyOf));
      && minted.Ok?
      && CarriedOut(Finish(s, id, policy, child, cands).value.books.rows, m) ==
         CarriedOut(s.books.rows, m) + (if m == id then minted.value.outValue - minted.value.inValue else 0.0)
  {
    hide CarriedOut, Finish, Mint, LinesOf;
    FinishBooks(s, id, policy, child, cands);
    var mv := s.moves[id];
    MintCarried(s.books, mv, id, s.locs[mv.src], s.locs[mv.dst], Sum(LinesOf(s.lines, id), QtyOf), m);
  }

  /** What a done move carried is never added to. */
  lemma StepKeepsCarried(s: Estate, c: Cmd, m: Id)
    requires m in s.moves && s.moves[m].state == Done
    ensures CarriedOut(Step(s, c).books.rows, m) == CarriedOut(s.books.rows, m)
  {
    StepKeepsVoucher(s, c, m, CarriedW(m));
    hide Step;
  }

  /** A move out of the books shows under its voucher what the done verb reports. */
  lemma FinishCarriesWorth(s: Estate, m: Id, child: Id)
    requires Sound(s, false) && Finish(s, m, Never, child, []).Ok?
      && KeyOf(s.moves[m].item, LocAt(s.locs, s.moves[m].dst)).None?
    ensures CarriedOut(Finish(s, m, Never, child, []).value.books.rows, m) == Worth(s, m)
  {
    NotDoneUnposted(s, m, child);
    SumLinesOf(s.lines, m, QtyOf, OfW(m));
    FinishCarried(s, m, Never, child, [], m);
    hide Finish, Sound;
    SumZero(s.books.rows, CarriedW(m));
  }

  // ---- what a line's move carried ----------------------------------------------------------------

  lemma CarriedNext(s: Estate, job: Job, n: nat)
    requires n < |job.lines|
    ensures CarriedTo(s, job, n + 1) == CarriedTo(s, job, n) + LineCarried(s, job.lines[n])
  {
    assert job.lines[..n + 1] == job.lines[..n] + [job.lines[n]];
    SumAppend(job.lines[..n], job.lines[n], LineCarriedW(s));
  }

  lemma TheNamed(locs: map<Loc, Location>, jobs: seq<Job>, w: World, j: nat, i: nat, m: Id)
    requires WorldInv(locs, jobs, w) && Leg(jobs, j, i) && NamedMove(w.s.moves, m, MoveOf(jobs, j, i).name)
    ensures LineCarried(w.s, jobs[j].lines[i]) == CarriedOut(w.s.books.rows, m)
  {
    assert LineInv(w.s, MoveOf(jobs, j, i));
    hide CarriedOut, Sound;
  }

  lemma EventKeepsCarried(locs: map<Loc, Location>, jobs: seq<Job>, w: World, e: Event, j: nat, i: nat)
    requires WorldInv(locs, jobs, w) && WorldInv(locs, jobs, StepWorld(jobs, w, e)) && EventOk(jobs, w, e)
    requires j < |jobs| && i < |jobs[j].lines| && Landed(w.s.moves, jobs[j].lines[i])
    ensures LineCarried(StepWorld(jobs, w, e).s, jobs[j].lines[i]) == LineCarried(w.s, jobs[j].lines[i])
  {
    if jobs[j].lines[i].Some? {
      hide StepWorld, WorldInv, EventOk, Contract, CommandOf, Step, LineCarried, CarriedOut;
      WorldSized(locs, jobs, w);
      assert Leg(jobs, j, i);
      var nm, c := MoveOf(jobs, j, i), CommandOf(jobs, w, e);
      var m :| NamedMove(w.s.moves, m, nm.name) && w.s.moves[m].state == Done;
      EventRunsCommand(jobs, w, e);
      TheNamed(locs, jobs, w, j, i, m);
      if c.Some? {
        StepKeeps(w.s, c.value);
        StepKeepsCarried(w.s, c.value, m);
        assert KeptBy(w.s, Step(w.s, c.value).moves, FinishedBy(c.value), m);
      }
      TheNamed(locs, jobs, StepWorld(jobs, w, e), j, i, m);
    }
  }

  lemma EventKeepsCarriedTo(locs: map<Loc, Location>, jobs: seq<Job>, w: World, e: Event, j: nat, n: nat)
    requires WorldInv(locs, jobs, w) && WorldInv(locs, jobs, StepWorld(jobs, w, e)) && EventOk(jobs, w, e)
    requires j < |jobs| && LandedTo(w.s.moves, jobs[j], n)
    ensures CarriedTo(StepWorld(jobs, w, e).s, jobs[j], n) == CarriedTo(w.s, jobs[j], n)
  {
    hide StepWorld, WorldInv, EventOk, LineCarried, Landed;
    WorldSized(locs, jobs, w);
    var lines, s' := jobs[j].lines[..n], StepWorld(jobs, w, e).s;
    forall i | 0 <= i < n ensures LineCarriedW(s')(lines[i]) == LineCarriedW(w.s)(lines[i]) {
      EventKeepsCarried(locs, jobs, w, e, j, i);
    }
    SumEqual(lines, lines, LineCarriedW(s'), LineCarriedW(w.s));
  }

  // ---- the running total --------------------------------------------------------------------------

  /** The total a door's call has run up. It starts from zero with the call; a line found landed adds
      what the ledger shows under its move, a line just done what its done reported. */
  ghost function RunningTotal(locs: map<Loc, Location>, jobs: seq<Job>, es: seq<Event>, j: nat): real
    requires j < |jobs|
  {
    if es == [] then 0.0 else
    var n := |es| - 1;
    NextTotal(jobs, RunWorld(locs, jobs, es[..n]), es[n], j, RunningTotal(locs, jobs, es[..n], j))
  }

  ghost function NextTotal(jobs: seq<Job>, w: World, e: Event, j: nat, total: real): real
    requires |w.calls| == |w.closed| == |w.recorded| == |jobs| && j < |jobs|
  {
    if e.Begin? && e.door == j && w.calls[j] == Idle then 0.0
    else if !Moves(e, j) then total
    else match w.calls[j]
      case AtLine(i) =>
        if i < |jobs[j].lines| && StepWorld(jobs, w, e).calls[j] == AtLine(i + 1)
        then total + LineCarried(w.s, jobs[j].lines[i]) else total
      case Recording(_, _, worth) => if RowTakes(w.calls[j]) then total + worth else total
      case _ => total
  }

  /** The total written on the header when the voucher closed. */
  ghost function HeaderTotal(locs: map<Loc, Location>, jobs: seq<Job>, es: seq<Event>, j: nat): Option<real>
    requires j < |jobs|
  {
    if es == [] then None else
    var n := |es| - 1;
    var w := RunWorld(locs, jobs, es[..n]);
    if Moves(es[n], j) && Closes(w.s, jobs[j], w.calls[j])
    then Some(RunningTotal(locs, jobs, es[..n], j)) else HeaderTotal(locs, jobs, es[..n], j)
  }

  /** What the total is at each place a call can stand. */
  ghost predicate TotalInv(s: Estate, job: Job, call: Call, total: real) {
    match call
    case Idle => true
    case AtLine(i) => i <= |job.lines| && total == CarriedTo(s, job, i)
    case Recording(i, _, worth) => i < |job.lines| && total == CarriedTo(s, job, i)
      && worth == LineCarried(s, job.lines[i])
    case Drive(i, _) => i <= |job.lines| && total == CarriedTo(s, job, i)
    case Releasing(i, _) => i <= |job.lines| && total == CarriedTo(s, job, i)
    case Finishing(i, _) => i <= |job.lines| && total == CarriedTo(s, job, i)
  }

  ghost predicate RowsCarried(s: Estate, job: Job, recorded: map<nat, real>) {
    forall i: nat :: i in recorded ==> i < |job.lines| && recorded[i] == LineCarried(s, job.lines[i])
  }

  /** A door that records and takes its lines out of the books. */
  ghost predicate Outbound(locs: map<Loc, Location>, jobs: seq<Job>, j: nat) {
    && j < |jobs| && jobs[j].records
    && forall i: nat {:trigger Leg(jobs, j, i)} :: Leg(jobs, j, i) ==>
         KeyOf(MoveOf(jobs, j, i).item, LocAt(locs, MoveOf(jobs, j, i).dst)).None?
  }

  /** The call that finishes a line carries the worth its ledger rows show. */
  lemma RecordingWorth(locs: map<Loc, Location>, jobs: seq<Job>, w: World, e: Event, j: nat, i: nat, m: Id)
    requires WorldInv(locs, jobs, w) && WorldInv(locs, jobs, StepWorld(jobs, w, e)) && Outbound(locs, jobs, j)
    requires Moves(e, j) && w.calls[j] == Finishing(i, m) && StepWorld(jobs, w, e).calls[j] != Idle
    ensures i < |jobs[j].lines|
    ensures var w' := StepWorld(jobs, w, e); w'.calls[j] == Recording(i, m, LineCarried(w'.s, jobs[j].lines[i]))
  {
    hide Sound, Exec, Worth, LineCarried, CarriedOut, LineInv;
    var s, w' := w.s, StepWorld(jobs, w, e);
    assert DoorInv(s, jobs, j, w.calls[j], w.closed[j], w.recorded[j]);
    assert Leg(jobs, j, i) && LineInv(s, MoveOf(jobs, j, i));
    ReadyToFinish(s, m, e.unseen);
    FinishIsStep(s, m, e.unseen);
    FinishMoves(s, m, e.unseen);
    OrderOf(s, MoveOf(jobs, j, i), m);
    FinishCarriesWorth(s, m, e.unseen);
    hide WorldInv, Step, Finish, StepWorld;
    TheNamed(locs, jobs, w', j, i, m);
  }

  lemma FinishIsStep(s: Estate, m: Id, child: Id)
    requires Exec(s, FinishCmd(m, Never, child, [])).Ok?
    ensures Finish(s, m, Never, child, []) == Ok(Step(s, FinishCmd(m, Never, child, [])))
  {
    hide Finish;
  }

  lemma OrderOf(s: Estate, nm: NewMove, m: Id)
    requires LineInv(s, nm) && NamedMove(s.moves, m, nm.name)
    ensures SameOrder(DraftOf(nm), s.moves[m])
  {
  }

  /** The lines a call has behind it. */
  function Behind(call: Call): nat {
    match call
    case Idle => 0
    case AtLine(i) => i
    case Drive(i, _) => i
    case Releasing(i, _) => i
    case Finishing(i, _) => i
    case Recording(i, _, _) => i
  }

  lemma BehindLanded(locs: map<Loc, Location>, jobs: seq<Job>, w: World, j: nat)
    requires WorldInv(locs, jobs, w) && j < |jobs|
    ensures LandedTo(w.s.moves, jobs[j], Behind(w.calls[j]))
    ensures w.calls[j].Recording? ==>
      w.calls[j].line < |jobs[j].lines| && Landed(w.s.moves, jobs[j].lines[w.calls[j].line])
  {
    assert DoorInv(w.s, jobs, j, w.calls[j], w.closed[j], w.recorded[j]);
    hide Sound, Landed;
  }

  /** Where an own step leads, apart from the verb's outcome. */
  lemma OwnStepLeads(jobs: seq<Job>, w: World, e: Event, j: nat)
    requires |w.calls| == |w.closed| == |w.recorded| == |jobs| && j < |jobs| && Moves(e, j)
    ensures var next, call := StepWorld(jobs, w, e).calls[j], w.calls[j];
      match call
      case Idle => next == Idle
      case AtLine(i) => next == Idle
        || (i < |jobs[j].lines|
        && ((next == AtLine(i + 1) && StepWorld(jobs, w, e).s == w.s) || (next.Drive? && next.line == i)))
      case Drive(i, _) => next == Idle || ((next.Drive? || next.Releasing? || next.Finishing?) && next.line == i)
      case Releasing(_, _) => next == Idle
      case Finishing(i, _) => true
      case Recording(i, _, _) =>
        next == (if RowTakes(call) then AtLine(i + 1) else Idle) && StepWorld(jobs, w, e).s == w.s
  {
    hide Step, Exec;
  }

  /** A door's own step keeps its running total what its lines behind it carried. */
  lemma OwnStepKeepsTotal(locs: map<Loc, Location>, jobs: seq<Job>, w: World, e: Event, j: nat, total: real)
    requires WorldInv(locs, jobs, w) && WorldInv(locs, jobs, StepWorld(jobs, w, e)) && EventOk(jobs, w, e)
      && Outbound(locs, jobs, j)
    requires Moves(e, j) && TotalInv(w.s, jobs[j], w.calls[j], total)
    ensures var w' := StepWorld(jobs, w, e); TotalInv(w'.s, jobs[j], w'.calls[j], NextTotal(jobs, w, e, j, total))
  {
    hide WorldInv, StepWorld, EventOk, Outbound, CarriedTo, LineCarried, LandedTo, Landed;
    WorldSized(locs, jobs, w);
    OutboundDoor(locs, jobs, j);
    var job, call := jobs[j], w.calls[j];
    OwnStepLeads(jobs, w, e, j);
    BehindLanded(locs, jobs, w, j);
    EventKeepsCarriedTo(locs, jobs, w, e, j, Behind(call));
    match call
    case AtLine(i) => if i < |job.lines| { CarriedNext(w.s, job, i); }
    case Recording(i, _, _) => CarriedNext(w.s, job, i);
    case Finishing(i, m) => if StepWorld(jobs, w, e).calls[j] != Idle { RecordingWorth(locs, jobs, w, e, j, i, m); }
    case _ =>
  }

  lemma OutboundDoor(locs: map<Loc, Location>, jobs: seq<Job>, j: nat)
    requires Outbound(locs, jobs, j)
    ensures j < |jobs|
  {
  }

  lemma StillCall(jobs: seq<Job>, w: World, e: Event, j: nat)
    requires |w.calls| == |w.closed| == |w.recorded| == |jobs| && j < |jobs| && !Moves(e, j)
    ensures var next := StepWorld(jobs, w, e).calls[j];
      next == w.calls[j] || next == Idle || (next == AtLine(0) && e.Begin? && e.door == j && w.calls[j] == Idle)
  {
    hide Step, CmdOf, Exec;
  }

  lemma StepKeepsTotal(locs: map<Loc, Location>, jobs: seq<Job>, w: World, e: Event, j: nat, total: real)
    requires WorldInv(locs, jobs, w) && WorldInv(locs, jobs, StepWorld(jobs, w, e)) && EventOk(jobs, w, e)
      && Outbound(locs, jobs, j)
    requires TotalInv(w.s, jobs[j], w.calls[j], total)
    ensures var w' := StepWorld(jobs, w, e); TotalInv(w'.s, jobs[j], w'.calls[j], NextTotal(jobs, w, e, j, total))
  {
    hide WorldInv, StepWorld, EventOk, Outbound, CarriedTo, LineCarried, LandedTo, Landed;
    WorldSized(locs, jobs, w);
    OutboundDoor(locs, jobs, j);
    if Moves(e, j) {
      OwnStepKeepsTotal(locs, jobs, w, e, j, total);
    } else {
      StillCall(jobs, w, e, j);
      BehindLanded(locs, jobs, w, j);
      EventKeepsCarriedTo(locs, jobs, w, e, j, Behind(w.calls[j]));
      if w.calls[j].Recording? { EventKeepsCarried(locs, jobs, w, e, j, w.calls[j].line); }
      CarriedNothing(StepWorld(jobs, w, e).s, jobs[j]);
    }
  }

  lemma CarriedNothing(s: Estate, job: Job)
    ensures CarriedTo(s, job, 0) == 0.0
  {
  }

  lemma StepKeepsRows(locs: map<Loc, Location>, jobs: seq<Job>, w: World, e: Event, j: nat, total: real)
    requires WorldInv(locs, jobs, w) && WorldInv(locs, jobs, StepWorld(jobs, w, e)) && EventOk(jobs, w, e)
      && Outbound(locs, jobs, j)
    requires TotalInv(w.s, jobs[j], w.calls[j], total) && RowsCarried(w.s, jobs[j], w.recorded[j])
    ensures var w' := StepWorld(jobs, w, e); RowsCarried(w'.s, jobs[j], w'.recorded[j])
  {
    hide WorldInv, StepWorld, EventOk, Outbound, CarriedTo, LineCarried, LandedTo, Landed, Leg;
    OutboundDoor(locs, jobs, j);
    WorldSized(locs, jobs, w);
    RowsLanded(locs, jobs, w, j);
    RowsAfter(jobs, w, e, j);
    BehindLanded(locs, jobs, w, j);
    var w' := StepWorld(jobs, w, e);
    forall i: nat | i in w'.recorded[j]
      ensures i < |jobs[j].lines| && w'.recorded[j][i] == LineCarried(w'.s, jobs[j].lines[i])
    {
      EventKeepsCarried(locs, jobs, w, e, j, i);
    }
  }

  lemma RowsLanded(locs: map<Loc, Location>, jobs: seq<Job>, w: World, j: nat)
    requires WorldInv(locs, jobs, w) && j < |jobs|
    ensures forall i: nat :: i in w.recorded[j] ==> i < |jobs[j].lines| && Landed(w.s.moves, jobs[j].lines[i])
  {
    assert DoorInv(w.s, jobs, j, w.calls[j], w.closed[j], w.recorded[j]);
    hide Sound, CallInv;
  }

  lemma RowsAfter(jobs: seq<Job>, w: World, e: Event, j: nat)
    requires |w.calls| == |w.closed| == |w.recorded| == |jobs| && j < |jobs|
    ensures var w' := StepWorld(jobs, w, e);
      w'.recorded[j] ==
      if Moves(e, j) && RowTakes(w.calls[j]) then w.recorded[j][w.calls[j].line := w.calls[j].worth]
      else w.recorded[j]
  {
    hide Step, CmdOf, Exec, NextCall;
  }

  // ---- over every run ---------------------------------------------------------------------------

  /** At every moment the running total is what the lines behind the call carried out, driven by this
      call or read back from an earlier one, and each row what its line did. */
  lemma {:induction false} TotalsOverEveryRun(locs: map<Loc, Location>, jobs: seq<Job>, es: seq<Event>, j: nat)
    requires JobsOk(locs, jobs) && LegalEvents(locs, jobs, es) && Outbound(locs, jobs, j)
    ensures j < |jobs|
    ensures var w := RunWorld(locs, jobs, es);
      TotalInv(w.s, jobs[j], w.calls[j], RunningTotal(locs, jobs, es, j)) && RowsCarried(w.s, jobs[j], w.recorded[j])
  {
    hide WorldInv, StepWorld, EventOk, JobsOk, TotalInv, NextTotal;
    OutboundDoor(locs, jobs, j);
    if es == [] {
      NoTotal(locs, jobs, j);
    } else {
      var n := |es| - 1;
      var w := RunWorld(locs, jobs, es[..n]);
      hide Outbound, RowsCarried;
      TotalsOverEveryRun(locs, jobs, es[..n], j);
      EveryWorldIsSound(locs, jobs, es[..n]);
      EveryWorldIsSound(locs, jobs, es);
      var total := RunningTotal(locs, jobs, es[..n], j);
      StepKeepsTotal(locs, jobs, w, es[n], j, total);
      StepKeepsRows(locs, jobs, w, es[n], j, total);
    }
  }

  lemma NoTotal(locs: map<Loc, Location>, jobs: seq<Job>, j: nat)
    requires j < |jobs|
    ensures TotalInv(NewWorld(locs, jobs).s, jobs[j], NewWorld(locs, jobs).calls[j], 0.0)
    ensures NewWorld(locs, jobs).recorded[j] == map[]
  {
  }

  lemma ClosesAtTheEnd(jobs: seq<Job>, w: World, e: Event, j: nat)
    requires |w.calls| == |w.closed| == |w.recorded| == |jobs| && j < |jobs|
    ensures StepWorld(jobs, w, e).closed[j] <==> w.closed[j] || (Moves(e, j) && Closes(w.s, jobs[j], w.calls[j]))
  {
    hide Step, CmdOf, Exec, NextCall;
  }

  /** The header of a closed delivery carries exactly what its moves carried out of the bins, however
      often it was interrupted and whichever call did each line. */
  lemma {:induction false} HeaderIsWhatLeft(locs: map<Loc, Location>, jobs: seq<Job>, es: seq<Event>, j: nat)
    requires JobsOk(locs, jobs) && LegalEvents(locs, jobs, es) && Outbound(locs, jobs, j)
    requires j < |jobs| && RunWorld(locs, jobs, es).closed[j]
    ensures HeaderTotal(locs, jobs, es, j) == Some(CarriedTo(RunWorld(locs, jobs, es).s, jobs[j], |jobs[j].lines|))
  {
    hide WorldInv, StepWorld, EventOk, JobsOk, Outbound, CarriedTo, RunningTotal, RowsCarried, LandedTo;
    if es == [] {
      assert false;
    } else {
      var n := |es| - 1;
      var w, e := RunWorld(locs, jobs, es[..n]), es[n];
      EveryWorldIsSound(locs, jobs, es[..n]);
      EveryWorldIsSound(locs, jobs, es);
      ClosesAtTheEnd(jobs, w, e, j);
      if w.closed[j] {
        ClosedIsIdle(locs, jobs, es[..n], j);
        HeaderIsWhatLeft(locs, jobs, es[..n], j);
        ClosedLanded(locs, jobs, w, j);
      } else {
        TotalsOverEveryRun(locs, jobs, es[..n], j);
        BehindLanded(locs, jobs, w, j);
      }
      EventKeepsCarriedTo(locs, jobs, w, e, j, |jobs[j].lines|);
    }
  }

  lemma ClosedLanded(locs: map<Loc, Location>, jobs: seq<Job>, w: World, j: nat)
    requires WorldInv(locs, jobs, w) && j < |jobs| && w.closed[j]
    ensures LandedTo(w.s.moves, jobs[j], |jobs[j].lines|)
  {
    assert DoorInv(w.s, jobs, j, w.calls[j], w.closed[j], w.recorded[j]);
    hide Sound, Landed;
  }

  // ---- which lines have their cost on the row -------------------------------------------------------

  lemma {:induction false} RowsNonNegative(locs: map<Loc, Location>, jobs: seq<Job>, es: seq<Event>, j: nat)
    requires j < |jobs|
    ensures forall i: nat ::
      i in RunWorld(locs, jobs, es).recorded[j] ==> RunWorld(locs, jobs, es).recorded[j][i] >= 0.0
  {
    hide StepWorld;
    if es != [] {
      var n := |es| - 1;
      RowsNonNegative(locs, jobs, es[..n], j);
      RowsAfter(jobs, RunWorld(locs, jobs, es[..n]), es[n], j);
    }
  }

  /** A line whose cost the row once refused is done and carried a negative value out. */
  lemma {:induction false} RefusedIsNegative(locs: map<Loc, Location>, jobs: seq<Job>, es: seq<Event>, j: nat, i: nat)
    requires JobsOk(locs, jobs) && LegalEvents(locs, jobs, es) && Outbound(locs, jobs, j) && j < |jobs|
    requires i < |jobs[j].lines| && RefusedRecording(locs, jobs, es, j, i)
    ensures var s := RunWorld(locs, jobs, es).s;
      Landed(s.moves, jobs[j].lines[i]) && LineCarried(s, jobs[j].lines[i]) < 0.0
  {
    hide StepWorld, WorldInv, EventOk, JobsOk, Outbound, LineCarried, Landed, RowsCarried, CarriedTo, LandedTo;
    var n := |es| - 1;
    var w := RunWorld(locs, jobs, es[..n]);
    EveryWorldIsSound(locs, jobs, es[..n]);
    EveryWorldIsSound(locs, jobs, es);
    if RefusedRecording(locs, jobs, es[..n], j, i) {
      RefusedIsNegative(locs, jobs, es[..n], j, i);
    } else {
      TotalsOverEveryRun(locs, jobs, es[..n], j);
      BehindLanded(locs, jobs, w, j);
    }
    EventKeepsLanded(jobs, w, es[n], jobs[j].lines[i]);
    EventKeepsCarried(locs, jobs, w, es[n], j, i);
  }

  /** A closed delivery has a line's cost on its row exactly when no crash came between the line's done
      and the record and what the line carried out is not negative. */
  lemma RecordedIffNotNegative(locs: map<Loc, Location>, jobs: seq<Job>, es: seq<Event>, j: nat, i: nat)
    requires JobsOk(locs, jobs) && LegalEvents(locs, jobs, es) && Outbound(locs, jobs, j)
      && OwnOutbound(locs, jobs, j, i)
    requires RunWorld(locs, jobs, es).closed[j]
    ensures var w := RunWorld(locs, jobs, es);
      i in w.recorded[j] <==> !CrashedRecording(locs, jobs, es, j, i) && LineCarried(w.s, jobs[j].lines[i]) >= 0.0
  {
    hide JobsOk, LegalEvents, RunWorld, Outbound, IsInternal, TotalInv, LineCarried, CrashedRecording, RefusedRecording;
    LegIsLine(locs, jobs, j, i);
    ClosedRecordsIff(locs, jobs, es, j, i);
    TotalsOverEveryRun(locs, jobs, es, j);
    RowsNonNegative(locs, jobs, es, j);
    if RefusedRecording(locs, jobs, es, j, i) { RefusedIsNegative(locs, jobs, es, j, i); }
  }

  // ---- the header and the rows ---------------------------------------------------------------------

  function Indices(n: nat): seq<nat> { seq(n, i => i) }

  function RowCostW(recorded: map<nat, real>): nat -> real { (i: nat) => RowCost(recorded, i) }

  /** What an unrecorded line carried. */
  ghost function LostW(s: Estate, job: Job, recorded: map<nat, real>): nat -> real {
    (i: nat) => if i in recorded || i >= |job.lines| then 0.0 else LineCarried(s, job.lines[i])
  }

  /** The costs on the rows, from which a cancellation's journal is computed. */
  function RowTotal(job: Job, recorded: map<nat, real>): real { Sum(Indices(|job.lines|), RowCostW(recorded)) }

  ghost function LostTotal(s: Estate, job: Job, recorded: map<nat, real>): real {
    Sum(Indices(|job.lines|), LostW(s, job, recorded))
  }

  lemma RowsAndLost(s: Estate, job: Job, recorded: map<nat, real>)
    requires RowsCarried(s, job, recorded)
    ensures CarriedTo(s, job, |job.lines|) == RowTotal(job, recorded) + LostTotal(s, job, recorded)
  {
    hide LineCarried;
    var idx := Indices(|job.lines|);
    assert job.lines[..|job.lines|] == job.lines;
    SumAdd(job.lines, idx, idx, LineCarriedW(s), RowCostW(recorded), LostW(s, job, recorded));
  }

  lemma NothingLost(s: Estate, job: Job, recorded: map<nat, real>)
    requires forall i: nat :: i < |job.lines| && job.lines[i].Some? ==> i in recorded
    ensures LostTotal(s, job, recorded) == 0.0
  {
    SumZero(Indices(|job.lines|), LostW(s, job, recorded));
  }

  /** No line of the door missed its record. */
  ghost predicate NoRecordLost(locs: map<Loc, Location>, jobs: seq<Job>, es: seq<Event>, j: nat)
    requires j < |jobs|
  {
    forall i: nat {:trigger Leg(jobs, j, i)} :: Leg(jobs, j, i) ==> !MissedRecord(locs, jobs, es, j, i)
  }

  lemma NoRecordLostRecordsAll(locs: map<Loc, Location>, jobs: seq<Job>, es: seq<Event>, j: nat)
    requires JobsOk(locs, jobs) && LegalEvents(locs, jobs, es) && j < |jobs| && RunWorld(locs, jobs, es).closed[j]
    requires forall i: nat {:trigger Leg(jobs, j, i)} :: Leg(jobs, j, i) ==> OwnOutbound(locs, jobs, j, i)
    requires NoRecordLost(locs, jobs, es, j)
    ensures forall i: nat :: i < |jobs[j].lines| && jobs[j].lines[i].Some? ==> i in RunWorld(locs, jobs, es).recorded[j]
  {
    hide JobsOk, LegalEvents, RunWorld, MissedRecord, OwnOutbound;
    forall i: nat | i < |jobs[j].lines| && jobs[j].lines[i].Some? ensures i in RunWorld(locs, jobs, es).recorded[j] {
      assert Leg(jobs, j, i);
      ClosedRecordsIff(locs, jobs, es, j, i);
    }
  }

  /** The header and the rows of a closed delivery differ by exactly what the lost lines carried, and
      agree when no line missed its record. */
  lemma HeaderExceedsRowsByTheLost(locs: map<Loc, Location>, jobs: seq<Job>, es: seq<Event>, j: nat)
    requires JobsOk(locs, jobs) && LegalEvents(locs, jobs, es) && Outbound(locs, jobs, j)
    requires forall i: nat {:trigger Leg(jobs, j, i)} :: Leg(jobs, j, i) ==> OwnOutbound(locs, jobs, j, i)
    requires j < |jobs| && RunWorld(locs, jobs, es).closed[j]
    ensures var w := RunWorld(locs, jobs, es);
      && HeaderTotal(locs, jobs, es, j) ==
         Some(RowTotal(jobs[j], w.recorded[j]) + LostTotal(w.s, jobs[j], w.recorded[j]))
      && (NoRecordLost(locs, jobs, es, j) ==> HeaderTotal(locs, jobs, es, j) == Some(RowTotal(jobs[j], w.recorded[j])))
  {
    hide JobsOk, LegalEvents, RunWorld, Outbound, OwnOutbound, HeaderTotal, NoRecordLost, TotalInv, RowsCarried,
      RunningTotal;
    hide CarriedTo, RowTotal, LostTotal;
    var w := RunWorld(locs, jobs, es);
    HeaderIsWhatLeft(locs, jobs, es, j);
    TotalsOverEveryRun(locs, jobs, es, j);
    RowsAndLost(w.s, jobs[j], w.recorded[j]);
    if NoRecordLost(locs, jobs, es, j) {
      NoRecordLostRecordsAll(locs, jobs, es, j);
      NothingLost(w.s, jobs[j], w.recorded[j]);
    }
  }

  /** A delivery's door is such a door. */
  lemma DeliveryIsOutbound(locs: map<Loc, Location>, jobs: seq<Job>, v: Id, items: seq<ItemLine>, stock: Loc,
      customer: Loc, j: nat)
    requires j < |jobs| && jobs[j] == DeliveryJob(v, items, stock, customer) && IsInternal(locs, stock)
      && !IsInternal(locs, customer)
    ensures Outbound(locs, jobs, j) && |jobs[j].lines| == |items|
    ensures forall i: nat {:trigger Leg(jobs, j, i)} :: Leg(jobs, j, i) ==> OwnOutbound(locs, jobs, j, i)
  {
  }

  /** No line of the door carried a negative value out. */
  ghost predicate NoneNegative(s: Estate, job: Job) {
    forall i :: 0 <= i < |job.lines| ==> LineCarried(s, job.lines[i]) >= 0.0
  }

  /** A closed door that never crashed and carried no negative value has every line recorded. */
  lemma UncrashedRecordsAll(locs: map<Loc, Location>, jobs: seq<Job>, es: seq<Event>, j: nat)
    requires JobsOk(locs, jobs) && LegalEvents(locs, jobs, es) && Outbound(locs, jobs, j)
    requires forall i: nat {:trigger Leg(jobs, j, i)} :: Leg(jobs, j, i) ==> OwnOutbound(locs, jobs, j, i)
    requires j < |jobs| && RunWorld(locs, jobs, es).closed[j]
    requires Crash(j) !in es && NoneNegative(RunWorld(locs, jobs, es).s, jobs[j])
    ensures forall i: nat :: i < |jobs[j].lines| && jobs[j].lines[i].Some? ==> i in RunWorld(locs, jobs, es).recorded[j]
  {
    hide JobsOk, LegalEvents, RunWorld, Outbound, OwnOutbound, LineCarried, CrashedRecording;
    forall i: nat | i < |jobs[j].lines| && jobs[j].lines[i].Some? ensures i in RunWorld(locs, jobs, es).recorded[j] {
      assert Leg(jobs, j, i);
      UncrashedRecords(locs, jobs, es, j, i);
      RecordedIffNotNegative(locs, jobs, es, j, i);
    }
  }

  /** A delivery, closed after any run: its header carries what its moves carried out, its rows all of it
      but the lost lines'; and if its door never crashed and no line carried a negative value,
      every line that moved is recorded and the rows add up to the header. */
  lemma DeliveryHeaderAndRows(locs: map<Loc, Location>, jobs: seq<Job>, es: seq<Event>, v: Id, items: seq<ItemLine>,
      stock: Loc, customer: Loc, j: nat)
    requires JobsOk(locs, jobs) && LegalEvents(locs, jobs, es)
    requires j < |jobs| && jobs[j] == DeliveryJob(v, items, stock, customer) && RunWorld(locs, jobs, es).closed[j]
    requires IsInternal(locs, stock) && !IsInternal(locs, customer)
    ensures var w, job := RunWorld(locs, jobs, es), jobs[j];
      var header, rows := HeaderTotal(locs, jobs, es, j), RowTotal(job, w.recorded[j]);
      && header == Some(CarriedTo(w.s, job, |job.lines|)) == Some(rows + LostTotal(w.s, job, w.recorded[j]))
      && (Crash(j) !in es && NoneNegative(w.s, job) ==>
            header == Some(rows) && forall i: nat :: i < |items| && job.lines[i].Some? ==> i in w.recorded[j])
  {
    hide JobsOk, LegalEvents, RunWorld, Outbound, OwnOutbound, HeaderTotal, NoRecordLost, CarriedTo, RowTotal,
      LostTotal, NoneNegative, DeliveryJob, Leg;
    DeliveryIsOutbound(locs, jobs, v, items, stock, customer, j);
    HeaderIsWhatLeft(locs, jobs, es, j);
    HeaderExceedsRowsByTheLost(locs, jobs, es, j);
    var w := RunWorld(locs, jobs, es);
    if Crash(j) !in es && NoneNegative(w.s, jobs[j]) {
      UncrashedRecordsAll(locs, jobs, es, j);
      NothingLost(w.s, jobs[j], w.recorded[j]);
    }
  }

  // ---- the journals ---------------------------------------------------------------------------------

  /** A draft delivery with goods on it and no journal yet. */
  ghost predicate DraftDelivery(s: Gl.Books, v: Id) {
    && Gl.Safe(s) && v in s.docs && (v, Gl.OriginalPost) !in s.ledger
    && var d := s.docs[v];
    && d.kind == Gl.Delivery && d.status == Gl.Draft && d.posting == Gl.Pending
    && d.asset != d.contra && d.quantity != 0.0
  }

  /** Submitted with this cost on the header and on the rows, and then cancelled, both accepted. */
  function SubmitThenCancel(s: Gl.Books, v: Id, header: real, rows: real, post: Id, back: Id, marked: bool): Gl.Books {
    Gl.Step(Gl.Step(s, Gl.Submit(v, header, rows, false, Gl.Accepted(post, true))),
            Gl.Cancel(v, Gl.Accepted(back, marked)))
  }

  ghost predicate JournalsNet(s: Gl.Books, v: Id) {
    && Gl.BothPosted(s, v)
    && forall a :: Gl.At(s.ledger[(v, Gl.OriginalPost)], a) + Gl.At(s.ledger[(v, Gl.ReversalPost)], a) == 0.0
  }

  /** Hence in the general ledger: a delivery closed by any run, its header and rows as that run wrote
      them, submitted and then cancelled with both journals accepted, nets every account to zero
      exactly when the lines whose records were lost had carried nothing in all. */
  lemma DeliveryJournalsNetIff(locs: map<Loc, Location>, jobs: seq<Job>, es: seq<Event>, j: nat,
      s: Gl.Books, v: Id, post: Id, back: Id, marked: bool)
    requires JobsOk(locs, jobs) && LegalEvents(locs, jobs, es) && Outbound(locs, jobs, j)
    requires forall i: nat {:trigger Leg(jobs, j, i)} :: Leg(jobs, j, i) ==> OwnOutbound(locs, jobs, j, i)
    requires j < |jobs| && RunWorld(locs, jobs, es).closed[j] && DraftDelivery(s, v)
    ensures var w := RunWorld(locs, jobs, es);
      var header, rows := HeaderTotal(locs, jobs, es, j), RowTotal(jobs[j], w.recorded[j]);
      && header.Some?
      && var s' := SubmitThenCancel(s, v, header.value, rows, post, back, marked);
      && Gl.BothPosted(s', v)
      && (JournalsNet(s', v) <==> LostTotal(w.s, jobs[j], w.recorded[j]) == 0.0)
  {
    hide JobsOk, LegalEvents, RunWorld, Outbound, OwnOutbound, HeaderTotal, RowTotal, LostTotal, NoRecordLost;
    hide DraftDelivery, SubmitThenCancel, JournalsNet;
    HeaderExceedsRowsByTheLost(locs, jobs, es, j);
    var rows := RowTotal(jobs[j], RunWorld(locs, jobs, es).recorded[j]);
    SubmittedAndCancelled(s, v, HeaderTotal(locs, jobs, es, j).value, rows, post, back, marked);
  }

  lemma SubmittedAndCancelled(s: Gl.Books, v: Id, header: real, rows: real, post: Id, back: Id, marked: bool)
    requires DraftDelivery(s, v)
    ensures var s' := SubmitThenCancel(s, v, header, rows, post, back, marked);
      Gl.BothPosted(s', v) && (JournalsNet(s', v) <==> rows == header)
  {
    assert Gl.Settled(s, v, s.docs[v]);
    var submit := Gl.Submit(v, header, rows, false, Gl.Accepted(post, true));
    Gl.StepSafe(s, submit);
    Gl.CancellationNetsIff(Gl.Step(s, submit), v, back, marked);
    hide Gl.At;
  }
}
