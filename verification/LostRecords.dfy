/** What a delivery writes on its rows: a line's cost, recorded by the step after its done. A crash
    between the two loses it for good, and so does the row's refusal of a negative cost; nothing
    else does. A cancellation is exact accordingly. */
module LostRecords {
  import opened Common
  import opened StockTypes
  import opened ValuationLaws
  import opened Reservation
  import opened Engine
  import opened Invariants
  import opened Runs
  import opened Frames
  import opened Doors
  import opened DoorSoundness
  import opened DoorRuns
  import opened Vouchers

  // ---- lost for good ------------------------------------------------------------------------

  /** Door `j` takes its next step. */
  predicate Moves(e: Event, j: nat) { e.Advance? && e.door == j }

  predicate RecordingAt(call: Call, i: nat) { call.Recording? && call.line == i }

  /** The line is done, its cost is not on the row, and no step is about to write it. */
  ghost predicate Lost(jobs: seq<Job>, w: World, j: nat, i: nat)
    requires |w.calls| == |w.recorded| == |jobs| && Leg(jobs, j, i)
  {
    Landed(w.s.moves, jobs[j].lines[i]) && i !in w.recorded[j] && !RecordingAt(w.calls[j], i)
  }

  /** A call comes to record a line only by doing it: it had not landed. */
  lemma RecordingIsNew(locs: map<Loc, Location>, jobs: seq<Job>, w: World, e: Event, j: nat, i: nat)
    requires WorldInv(locs, jobs, w) && Leg(jobs, j, i)
    requires RecordingAt(StepWorld(jobs, w, e).calls[j], i) && !RecordingAt(w.calls[j], i)
    ensures !Landed(w.s.moves, jobs[j].lines[i])
  {
    hide WorldInv, StepWorld, Sound, Step, Finish, Exec, LandedTo, Worth;
    WorldSized(locs, jobs, w);
    ComesByFinishing(jobs, w, e, j, i);
    DoorHolds(locs, jobs, w, j, i);
    ReadyToFinish(w.s, w.calls[j].mv, e.unseen);
  }

  lemma ComesByFinishing(jobs: seq<Job>, w: World, e: Event, j: nat, i: nat)
    requires |w.calls| == |w.closed| == |w.recorded| == |jobs| && j < |jobs|
    requires RecordingAt(StepWorld(jobs, w, e).calls[j], i) && !RecordingAt(w.calls[j], i)
    ensures e.Advance? && e.door == j && w.calls[j].Finishing? && w.calls[j].line == i && w.calls[j].mv in w.s.moves
    ensures Exec(w.s, FinishCmd(w.calls[j].mv, Never, e.unseen, [])).Ok?
  {
    hide Step, Exec, Worth;
    assert e.Advance? && e.door == j;
    assert w.calls[j].Finishing?;
  }

  /** Where a call stands at a door, and what holds of a line. */
  lemma DoorHolds(locs: map<Loc, Location>, jobs: seq<Job>, w: World, a: nat, i: nat)
    requires WorldInv(locs, jobs, w) && a < |jobs|
    ensures CallInv(w.s, jobs[a], w.calls[a]) && (Leg(jobs, a, i) ==> LineInv(w.s, MoveOf(jobs, a, i)))
  {
    assert DoorInv(w.s, jobs, a, w.calls[a], w.closed[a], w.recorded[a]);
    hide CallInv, LineInv, Sound;
  }

  lemma EventKeepsLanded(jobs: seq<Job>, w: World, e: Event, line: Option<NewMove>)
    requires |w.calls| == |w.closed| == |w.recorded| == |jobs| && EventOk(jobs, w, e) && Landed(w.s.moves, line)
    ensures Landed(StepWorld(jobs, w, e).s.moves, line)
  {
    EventRunsCommand(jobs, w, e);
    hide Landed, Step, Contract, StepWorld, EventOk;
    var c := CommandOf(jobs, w, e);
    if c.Some? { StepKeepsLanded(w.s, c.value, line); }
  }

  /** No event brings a lost record back. */
  lemma StepKeepsLost(locs: map<Loc, Location>, jobs: seq<Job>, w: World, e: Event, j: nat, i: nat)
    requires WorldInv(locs, jobs, w) && EventOk(jobs, w, e) && Leg(jobs, j, i) && Lost(jobs, w, j, i)
    ensures Lost(jobs, StepWorld(jobs, w, e), j, i)
  {
    EventKeepsLanded(jobs, w, e, jobs[j].lines[i]);
    if RecordingAt(StepWorld(jobs, w, e).calls[j], i) { RecordingIsNew(locs, jobs, w, e, j, i); }
    hide WorldInv, Landed, Step, CmdOf, Exec, NextCall, EventOk;
  }

  /** Over every run: a record lost at any moment is lost at every later one. */
  lemma {:induction false} RecordLostForGood(locs: map<Loc, Location>, jobs: seq<Job>, es: seq<Event>, k: nat, j: nat,
      i: nat)
    requires JobsOk(locs, jobs) && LegalEvents(locs, jobs, es) && k <= |es| && Leg(jobs, j, i)
    requires Lost(jobs, RunWorld(locs, jobs, es[..k]), j, i)
    ensures Lost(jobs, RunWorld(locs, jobs, es), j, i)
  {
    hide Lost, StepWorld, EventOk, WorldInv, JobsOk;
    if k == |es| {
      assert es[..k] == es;
    } else {
      var n := |es| - 1;
      assert es[..n][..k] == es[..k];
      RecordLostForGood(locs, jobs, es[..n], k, j, i);
      EveryWorldIsSound(locs, jobs, es[..n]);
      StepKeepsLost(locs, jobs, RunWorld(locs, jobs, es[..n]), es[n], j, i);
    }
  }

  // ---- lost by a crash or a refusal, and by nothing else ------------------------------------------

  /** A recording door's line out of stock that only the door may validate. */
  predicate OwnOutbound(locs: map<Loc, Location>, jobs: seq<Job>, j: nat, i: nat) {
    Leg(jobs, j, i) && jobs[j].records && IsInternal(locs, MoveOf(jobs, j, i).src)
  }

  /** At some moment of the run the door crashed between the line's done and its record. */
  ghost predicate CrashedRecording(locs: map<Loc, Location>, jobs: seq<Job>, es: seq<Event>, j: nat, i: nat)
    requires j < |jobs|
  {
    es != [] && (var n := |es| - 1;
                 CrashedRecording(locs, jobs, es[..n], j, i)
                   || CrashRecords(RunWorld(locs, jobs, es[..n]), es[n], j, i))
  }

  predicate CrashRecords(w: World, e: Event, j: nat, i: nat)
    requires j < |w.calls|
  {
    e == Crash(j) && RecordingAt(w.calls[j], i)
  }

  /** At some moment of the run the row refused the line's cost. */
  ghost predicate RefusedRecording(locs: map<Loc, Location>, jobs: seq<Job>, es: seq<Event>, j: nat, i: nat)
    requires j < |jobs|
  {
    es != [] && (var n := |es| - 1;
                 RefusedRecording(locs, jobs, es[..n], j, i)
                   || RefusesRecord(RunWorld(locs, jobs, es[..n]), es[n], j, i))
  }

  predicate RefusesRecord(w: World, e: Event, j: nat, i: nat)
    requires j < |w.calls|
  {
    Moves(e, j) && RecordingAt(w.calls[j], i) && !RowTakes(w.calls[j])
  }

  lemma {:induction false} UncrashedRecords(locs: map<Loc, Location>, jobs: seq<Job>, es: seq<Event>, j: nat, i: nat)
    requires j < |jobs| && Crash(j) !in es
    ensures !CrashedRecording(locs, jobs, es, j, i)
  {
    if es != [] { UncrashedRecords(locs, jobs, es[..|es| - 1], j, i); }
  }

  /** A landed line is being recorded, recorded or its record missed: one of the three. */
  ghost predicate RecordInv(jobs: seq<Job>, w: World, j: nat, i: nat, missed: bool)
    requires |w.calls| == |w.recorded| == |jobs| && Leg(jobs, j, i)
  {
    var recording, written := RecordingAt(w.calls[j], i), i in w.recorded[j];
    if Landed(w.s.moves, jobs[j].lines[i]) && !recording then written <==> !missed
    else !written && !missed && (recording ==> Landed(w.s.moves, jobs[j].lines[i]))
  }

  /** Other activity never validates such a line's move. */
  lemma NotByOthers(locs: map<Loc, Location>, jobs: seq<Job>, w: World, c: Cmd, j: nat, i: nat, m: Id)
    requires WorldInv(locs, jobs, w) && EventOk(jobs, w, Other(c)) && OwnOutbound(locs, jobs, j, i)
    requires NamedMove(w.s.moves, m, MoveOf(jobs, j, i).name)
    ensures !(c.FinishCmd? && c.id == m)
  {
    assert LineInv(w.s, MoveOf(jobs, j, i)) && Claims(jobs, MoveOf(jobs, j, i).name);
    hide Sound, Whole, Contract;
  }

  /** Another line's done does not validate it either. */
  lemma ByItsDoor(locs: map<Loc, Location>, jobs: seq<Job>, w: World, e: Event, cmd: Cmd, j: nat, i: nat, m: Id)
    requires WorldInv(locs, jobs, w) && JobsOk(locs, jobs) && OwnOutbound(locs, jobs, j, i)
    requires NamedMove(w.s.moves, m, MoveOf(jobs, j, i).name)
    requires e.Advance? && e.door < |jobs| && CmdOf(w.s, jobs[e.door], w.calls[e.door], e.unseen, e.cands) == Some(cmd)
    requires cmd.FinishCmd? && cmd.id == m && Exec(w.s, cmd).Ok?
    ensures RecordingAt(StepWorld(jobs, w, e).calls[j], i)
  {
    var a := e.door;
    hide WorldInv, Exec, Step, StepWorld, LineInv, LandedTo, Worth, NextCall;
    WorldSized(locs, jobs, w);
    DoorHolds(locs, jobs, w, a, w.calls[a].line);
    assert Leg(jobs, a, w.calls[a].line);
    RecordsNext(jobs, w, e, m);
  }

  lemma RecordsNext(jobs: seq<Job>, w: World, e: Event, m: Id)
    requires |w.calls| == |w.closed| == |w.recorded| == |jobs| && e.Advance? && e.door < |jobs|
    requires var call := w.calls[e.door]; call.Finishing? && call.mv == m && m in w.s.moves && jobs[e.door].records
    requires Exec(w.s, FinishCmd(m, Never, e.unseen, [])).Ok?
    ensures RecordingAt(StepWorld(jobs, w, e).calls[e.door], w.calls[e.door].line)
  {
    hide Step, Exec, Worth;
  }

  /** Only its own door's done lands such a line. */
  lemma LandsByItsDoor(locs: map<Loc, Location>, jobs: seq<Job>, w: World, e: Event, j: nat, i: nat)
    requires WorldInv(locs, jobs, w) && JobsOk(locs, jobs) && EventOk(jobs, w, e) && OwnOutbound(locs, jobs, j, i)
    requires !Landed(w.s.moves, jobs[j].lines[i]) && Landed(StepWorld(jobs, w, e).s.moves, jobs[j].lines[i])
    ensures RecordingAt(StepWorld(jobs, w, e).calls[j], i)
  {
    hide StepWorld, WorldInv, JobsOk, Step, Exec, Contract, EventOk, CmdOf, CommandOf, NextCall, MoveOf, Leg, Apart,
      LineInv, DoorInv;
    WorldSized(locs, jobs, w);
    LegIsLine(locs, jobs, j, i);
    var c := CommandOf(jobs, w, e);
    EventRunsCommand(jobs, w, e);
    var m :| NamedMove(StepWorld(jobs, w, e).s.moves, m, MoveOf(jobs, j, i).name)
      && StepWorld(jobs, w, e).s.moves[m].state == Done;
    DoneByFinish(w.s, c.value, m, MoveOf(jobs, j, i));
    CommandIsOf(jobs, w, e, c.value);
    if e.Other? { NotByOthers(locs, jobs, w, e.c, j, i, m); } else { ByItsDoor(locs, jobs, w, e, c.value, j, i, m); }
  }

  lemma WorldSized(locs: map<Loc, Location>, jobs: seq<Job>, w: World)
    requires WorldInv(locs, jobs, w)
    ensures |w.calls| == |w.closed| == |w.recorded| == |jobs|
  {
  }

  lemma CommandIsOf(jobs: seq<Job>, w: World, e: Event, c: Cmd)
    requires |w.calls| == |jobs| && CommandOf(jobs, w, e) == Some(c)
    ensures if e.Other? then e.c == c else
              && e.Advance? && e.door < |jobs|
              && CmdOf(w.s, jobs[e.door], w.calls[e.door], e.unseen, e.cands) == Some(c)
  {
    hide CmdOf;
  }

  lemma LegIsLine(locs: map<Loc, Location>, jobs: seq<Job>, j: nat, i: nat)
    requires OwnOutbound(locs, jobs, j, i)
    ensures Leg(jobs, j, i) && j < |jobs| && i < |jobs[j].lines| && jobs[j].lines[i] == Some(MoveOf(jobs, j, i))
  {
  }

  /** The engine verb of an event, if any. */
  ghost function CommandOf(jobs: seq<Job>, w: World, e: Event): Option<Cmd>
    requires |w.calls| == |jobs|
  {
    match e
    case Other(c) => Some(c)
    case Advance(j, unseen, cands) => if j < |jobs| then CmdOf(w.s, jobs[j], w.calls[j], unseen, cands) else None
    case _ => None
  }

  lemma EventRunsCommand(jobs: seq<Job>, w: World, e: Event)
    requires |w.calls| == |w.closed| == |w.recorded| == |jobs| && EventOk(jobs, w, e)
    ensures var c := CommandOf(jobs, w, e);
      StepWorld(jobs, w, e).s == (if c.Some? then Step(w.s, c.value) else w.s) && (c.Some? ==> Contract(w.s, c.value))
  {
    hide Step, Exec, NextCall, CmdOf, Contract, Apart;
  }

  /** A line lands only by a done verb on its move that succeeds. */
  lemma DoneByFinish(s: Estate, c: Cmd, m: Id, nm: NewMove)
    requires Contract(s, c) && NamedMove(Step(s, c).moves, m, nm.name) && Step(s, c).moves[m].state == Done
      && !Landed(s.moves, Some(nm))
    ensures NamedMove(s.moves, m, nm.name) && c.FinishCmd? && c.id == m && Exec(s, c).Ok?
  {
    StepKeeps(s, c);
    assert Exec(s, c).Err? ==> Step(s, c) == s;
    hide Step, Exec;
    if m in s.moves { assert KeptBy(s, Step(s, c).moves, FinishedBy(c), m); } else { assert false; }
  }

  /** What an event does to a door's record of a line. */
  lemma EventOnRecord(jobs: seq<Job>, w: World, e: Event, j: nat, i: nat)
    requires |w.calls| == |w.closed| == |w.recorded| == |jobs| && j < |jobs|
    ensures var w' := StepWorld(jobs, w, e);
      && (i in w'.recorded[j] <==>
            i in w.recorded[j] || (Moves(e, j) && RecordingAt(w.calls[j], i) && RowTakes(w.calls[j])))
      && (RecordingAt(w.calls[j], i) ==> (RecordingAt(w'.calls[j], i) <==> !Moves(e, j) && e != Crash(j)))
  {
    hide Step, CmdOf, Exec;
  }

  lemma RecordingHasLanded(locs: map<Loc, Location>, jobs: seq<Job>, w: World, j: nat, i: nat)
    requires WorldInv(locs, jobs, w) && Leg(jobs, j, i) && RecordingAt(w.calls[j], i)
    ensures Landed(w.s.moves, jobs[j].lines[i])
  {
    assert DoorInv(w.s, jobs, j, w.calls[j], w.closed[j], w.recorded[j]);
    hide Sound, Landed;
  }

  lemma StepKeepsRecord(locs: map<Loc, Location>, jobs: seq<Job>, w: World, e: Event, j: nat, i: nat, missed: bool)
    requires WorldInv(locs, jobs, w) && JobsOk(locs, jobs) && EventOk(jobs, w, e) && OwnOutbound(locs, jobs, j, i)
    requires RecordInv(jobs, w, j, i, missed)
    ensures RecordInv(jobs, StepWorld(jobs, w, e), j, i, missed || CrashRecords(w, e, j, i)
      || RefusesRecord(w, e, j, i))
  {
    hide WorldInv, JobsOk, EventOk, StepWorld, Landed, IsInternal, Step;
    WorldSized(locs, jobs, w);
    LegIsLine(locs, jobs, j, i);
    var w' := StepWorld(jobs, w, e);
    EventOnRecord(jobs, w, e, j, i);
    if Landed(w.s.moves, jobs[j].lines[i]) {
      EventKeepsLanded(jobs, w, e, jobs[j].lines[i]);
      if RecordingAt(w'.calls[j], i) && !RecordingAt(w.calls[j], i) { RecordingIsNew(locs, jobs, w, e, j, i); }
    } else if Landed(w'.s.moves, jobs[j].lines[i]) {
      LandsByItsDoor(locs, jobs, w, e, j, i);
    } else if RecordingAt(w'.calls[j], i) {
      EventKeepsWorld(locs, jobs, w, e);
      RecordingHasLanded(locs, jobs, w', j, i);
    }
  }

  ghost predicate MissedRecord(locs: map<Loc, Location>, jobs: seq<Job>, es: seq<Event>, j: nat, i: nat)
    requires j < |jobs|
  {
    CrashedRecording(locs, jobs, es, j, i) || RefusedRecording(locs, jobs, es, j, i)
  }

  /** Over every run, the record of a line that has landed is missing, once its door is past it,
      exactly when a crash came between its done and the record or the row refused its cost. */
  lemma {:induction false} RecordsOverEveryRun(locs: map<Loc, Location>, jobs: seq<Job>, es: seq<Event>, j: nat, i: nat)
    requires JobsOk(locs, jobs) && LegalEvents(locs, jobs, es) && OwnOutbound(locs, jobs, j, i)
    ensures RecordInv(jobs, RunWorld(locs, jobs, es), j, i, MissedRecord(locs, jobs, es, j, i))
  {
    hide StepWorld, EventOk, WorldInv, JobsOk, RecordInv, IsInternal, CrashRecords, RefusesRecord;
    LegIsLine(locs, jobs, j, i);
    if es == [] {
      NothingRecorded(locs, jobs, j, i);
    } else {
      var n := |es| - 1;
      RecordsOverEveryRun(locs, jobs, es[..n], j, i);
      EveryWorldIsSound(locs, jobs, es[..n]);
      StepKeepsRecord(locs, jobs, RunWorld(locs, jobs, es[..n]), es[n], j, i,
        MissedRecord(locs, jobs, es[..n], j, i));
    }
  }

  lemma NothingRecorded(locs: map<Loc, Location>, jobs: seq<Job>, j: nat, i: nat)
    requires Leg(jobs, j, i)
    ensures RecordInv(jobs, NewWorld(locs, jobs), j, i, false)
  {
  }

  // ---- the closed voucher -----------------------------------------------------------------------

  lemma {:induction false} ClosedIsIdle(locs: map<Loc, Location>, jobs: seq<Job>, es: seq<Event>, j: nat)
    requires j < |jobs|
    ensures RunWorld(locs, jobs, es).closed[j] ==> RunWorld(locs, jobs, es).calls[j] == Idle
  {
    hide Step, CmdOf, Exec;
    if es != [] { ClosedIsIdle(locs, jobs, es[..|es| - 1], j); }
  }

  /** A closed delivery has a line's cost on the row exactly when no crash came between the line's
      done and the record and the row did not refuse it. */
  lemma ClosedRecordsIff(locs: map<Loc, Location>, jobs: seq<Job>, es: seq<Event>, j: nat, i: nat)
    requires JobsOk(locs, jobs) && LegalEvents(locs, jobs, es) && OwnOutbound(locs, jobs, j, i)
    requires RunWorld(locs, jobs, es).closed[j]
    ensures i in RunWorld(locs, jobs, es).recorded[j] <==> !MissedRecord(locs, jobs, es, j, i)
  {
    var w := RunWorld(locs, jobs, es);
    RecordsOverEveryRun(locs, jobs, es, j, i);
    EveryWorldIsSound(locs, jobs, es);
    ClosedIsIdle(locs, jobs, es, j);
    assert DoorInv(w.s, jobs, j, w.calls[j], w.closed[j], w.recorded[j]);
    hide WorldInv, JobsOk, Landed, RunWorld;
  }

  // ---- cancelling a delivery ----------------------------------------------------------------------

  /** A reversal at the row's default cost puts the quantity back and no value. */
  lemma LostRecordReversesNoValue(s: Estate, nm: NewMove, rev: NewMove, m: Id, back: Id)
    requires Sound(s, false) && MovedOnce(s, nm, m) && MovedOnce(s, rev, back)
    requires rev.item == nm.item && rev.src == nm.dst && rev.dst == nm.src && rev.demand == nm.demand
      && rev.forced == Some(0.0)
    ensures NetsToZero(s.books.rows, m, back) <==> forall k :: VoucherValue(s.books.rows, StockEntry(m), k) == 0.0
  {
    assert PostedOnce(s.locs, s.moves[back], s.books.rows, StockEntry(back));
    hide Sound, VoucherQty, VoucherValue;
    forall k ensures VoucherValue(s.books.rows, StockEntry(back), k) == 0.0 {}
    if NetsToZero(s.books.rows, m, back) {
      forall k ensures VoucherValue(s.books.rows, StockEntry(m), k) == 0.0 {
        assert VoucherQty(s.books.rows, StockEntry(m), k) + VoucherQty(s.books.rows, StockEntry(back), k) == 0.0;
      }
    }
  }

  /** The cost on a delivery's row: what was recorded, else the column's default. */
  function RowCost(recorded: map<nat, real>, i: nat): real { if i in recorded then recorded[i] else 0.0 }

  /** Submit and cancel of a delivery, the cancellation carrying the rows' costs, whatever crashes,
      retries and other activity came between: a line's two legs net to zero on every bin exactly
      when its record was not missed, or it had carried no value out. */
  lemma CancelledDeliveryNetsIff(locs: map<Loc, Location>, jobs: seq<Job>, es: seq<Event>,
      v: Id, items: seq<ItemLine>, cogs: seq<real>, stock: Loc, customer: Loc, f: nat, r: nat, i: nat)
        returns (m: Id, back: Id)
    requires JobsOk(locs, jobs) && LegalEvents(locs, jobs, es) && |cogs| == |items|
    requires f < |jobs| && jobs[f] == DeliveryJob(v, items, stock, customer)
    requires r < |jobs| && jobs[r] == CancelDeliveryJob(v, items, cogs, stock, customer, f)
    requires IsInternal(locs, stock) && LocAt(locs, stock).warehouse.Some? && !IsInternal(locs, customer)
    requires RunWorld(locs, jobs, es).closed[r]
    requires i < |items| && items[i].quantity != 0.0 && cogs[i] == RowCost(RunWorld(locs, jobs, es).recorded[f], i)
    ensures var s := RunWorld(locs, jobs, es).s;
      && Leg(jobs, f, i) && MovedOnce(s, MoveOf(jobs, f, i), m)
      && Leg(jobs, r, i) && MovedOnce(s, MoveOf(jobs, r, i), back)
      && (NetsToZero(s.books.rows, m, back) <==>
          !MissedRecord(locs, jobs, es, f, i) || forall k :: VoucherValue(s.books.rows, StockEntry(m), k) == 0.0)
  {
    var w := RunWorld(locs, jobs, es);
    EveryWorldIsSound(locs, jobs, es);
    AlwaysInSequence(locs, jobs, es);
    assert w.closed[f];
    assert Leg(jobs, f, i) && Leg(jobs, r, i);
    var nm, rev := MoveOf(jobs, f, i), MoveOf(jobs, r, i);
    m := ClosedLineMoved(locs, jobs, w, f, i);
    back := ClosedLineMoved(locs, jobs, w, r, i);
    ClosedRecordsIff(locs, jobs, es, f, i);
    hide JobsOk, RunWorld, LegalEvents, MissedRecord, MovedOnce, NetsToZero, VoucherValue;
    if i in w.recorded[f] {
      RecordedIsShipped(locs, jobs, w, f, i, m);
      DeliveryLegsNet(w.s, nm, rev, m, back, cogs[i]);
    } else {
      LostRecordReversesNoValue(w.s, nm, rev, m, back);
    }
  }

  lemma ClosedLineMoved(locs: map<Loc, Location>, jobs: seq<Job>, w: World, j: nat, i: nat) returns (m: Id)
    requires WorldInv(locs, jobs, w) && Leg(jobs, j, i) && w.closed[j]
    ensures MovedOnce(w.s, MoveOf(jobs, j, i), m)
  {
    assert DoorInv(w.s, jobs, j, w.calls[j], w.closed[j], w.recorded[j]);
    hide Sound, MovedOnce;
    m := LandedMovedOnce(locs, jobs, w, j, i);
  }

  lemma RecordedIsShipped(locs: map<Loc, Location>, jobs: seq<Job>, w: World, j: nat, i: nat, m: Id)
    requires WorldInv(locs, jobs, w) && Leg(jobs, j, i) && i in w.recorded[j] && MovedOnce(w.s, MoveOf(jobs, j, i), m)
    ensures ShippedAs(w.s, m, w.recorded[j][i])
  {
    assert DoorInv(w.s, jobs, j, w.calls[j], w.closed[j], w.recorded[j]);
    var nm, worth := MoveOf(jobs, j, i), w.recorded[j][i];
    assert ShipsFor(w.s, nm, worth);
    hide ShippedAs, WorldInv;
    var shipped :| NamedMove(w.s.moves, shipped, nm.name) && w.s.moves[shipped].state == Done
      && ShippedAs(w.s, shipped, worth);
  }
}
