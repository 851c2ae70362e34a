/** Where a door left alone never closes its voucher: a line is stuck, the stock no line holds falls short,
    the header's total is going to be negative, a row is going to refuse its cost, or no call is let in. */
module DeadEnds {
  import opened Common
  import opened StockTypes
  import opened Valuation
  import opened Reservation
  import opened Engine
  import opened Invariants
  import opened Runs
  import opened Coverage
  import opened Doors
  import opened DoorSoundness
  import opened DoorRuns
  import opened DoorWalks
  import opened DeliveryTotals
  import opened DoorVerbs
  import opened Forecast
  import opened Progress

  // ---- what an own event does -----------------------------------------------------------------

  predicate Own(e: Event, j: nat) { (e.Advance? || e.Begin?) && e.door == j }

  /** The engine verb an own event issues, and the line it is about. */
  ghost predicate Issues(jobs: seq<Job>, w: World, e: Event, j: nat, i: nat, c: Cmd)
    requires |w.calls| == |jobs|
  {
    && e.Advance? && e.door == j < |jobs| && ActsOn(jobs, j, i, w.s, c) && w.calls[j] != Idle && w.calls[j].line == i
    && CmdOf(w.s, jobs[j], w.calls[j], e.unseen, e.cands) == Some(c) && LandedTo(w.s.moves, jobs[j], i)
  }

  /** Either it leaves the estate alone, or it is a verb on the line the call is at, all lines before landed. */
  lemma OwnEvent(locs: map<Loc, Location>, jobs: seq<Job>, w: World, e: Event, j: nat) returns (i: nat, c: Option<Cmd>)
    requires WorldInv(locs, jobs, w) && JobsOk(locs, jobs) && EventOk(jobs, w, e) && Own(e, j) && j < |jobs|
    ensures |w.calls| == |w.closed| == |w.recorded| == |jobs| && WorldInv(locs, jobs, StepWorld(jobs, w, e))
    ensures c.Some? ==> Issues(jobs, w, e, j, i, c.value) && StepWorld(jobs, w, e).s == Step(w.s, c.value)
    ensures c.None? ==> StepWorld(jobs, w, e).s == w.s
    ensures c.None? && e.Advance? ==> CmdOf(w.s, jobs[j], w.calls[j], e.unseen, e.cands).None?
  {
    hide WorldInv, JobsOk, EventOk, StepWorld, Step, Exec, Contract, MoveOf, ActsOn, LandedTo;
    SoundOf(locs, jobs, w);
    EventKeepsWorld(locs, jobs, w, e);
    StepsBy(jobs, w, e);
    i, c := 0, None;
    if e.Advance? && CmdOf(w.s, jobs[j], w.calls[j], e.unseen, e.cands).Some? {
      c := CmdOf(w.s, jobs[j], w.calls[j], e.unseen, e.cands);
      OwnActs(locs, jobs, w, e, j, c.value);
      i := w.calls[j].line;
    }
  }

  lemma StepsBy(jobs: seq<Job>, w: World, e: Event)
    requires |w.calls| == |w.closed| == |w.recorded| == |jobs| && (e.Advance? || e.Begin?) && e.door < |jobs|
    ensures StepWorld(jobs, w, e).s ==
      if e.Advance? && CmdOf(w.s, jobs[e.door], w.calls[e.door], e.unseen, e.cands).Some?
      then Step(w.s, CmdOf(w.s, jobs[e.door], w.calls[e.door], e.unseen, e.cands).value) else w.s
  {
    hide Step, Exec, CmdOf, NextCall;
  }

  lemma OwnActs(locs: map<Loc, Location>, jobs: seq<Job>, w: World, e: Event, j: nat, c: Cmd)
    requires WorldInv(locs, jobs, w) && JobsOk(locs, jobs) && EventOk(jobs, w, e) && e.Advance? && e.door == j < |jobs|
    requires CmdOf(w.s, jobs[j], w.calls[j], e.unseen, e.cands) == Some(c)
    ensures w.calls[j] != Idle && !w.calls[j].Recording? && ActsOn(jobs, j, w.calls[j].line, w.s, c)
    ensures LandedTo(w.s.moves, jobs[j], w.calls[j].line)
  {
    assert DoorInv(w.s, jobs, j, w.calls[j], w.closed[j], w.recorded[j]);
    hide Sound, Landed, Contract;
    assert Leg(jobs, j, w.calls[j].line);
  }

  /** A voucher closes only off its last line, every line landed and the header taking the total. */
  lemma ClosesWhen(locs: map<Loc, Location>, jobs: seq<Job>, w: World, e: Event, j: nat)
    requires WorldInv(locs, jobs, w) && j < |jobs| && Own(e, j)
    ensures |w.calls| == |w.closed| == |w.recorded| == |jobs|
    ensures !w.closed[j] && StepWorld(jobs, w, e).closed[j] ==>
      && w.calls[j].AtLine? && LandedTo(w.s.moves, jobs[j], |jobs[j].lines|) && HeaderTakes(w.s, jobs[j])
  {
    ClosesAtTheEnd(jobs, w, e, j);
    assert DoorInv(w.s, jobs, j, w.calls[j], w.closed[j], w.recorded[j]);
    hide Sound, Landed, StepWorld, HeaderTakes, ShipsFor;
  }

  // ---- a stuck line ---------------------------------------------------------------------------------

  ghost predicate Stuck(s: Estate, job: Job) { Positive(job) && !AllCanLand(s, job) }

  /** A door verb leaves a stuck move stuck. */
  lemma StuckVerb(s: Estate, c: Cmd, m: Id)
    requires Sound(s, false) && DoorCmd(c) && !c.CreateCmd? && Actor(c) == m && m in s.moves && s.moves[m].demand > 0.0
    requires s.moves[m].state == Cancelled || (s.moves[m].state == Assigned && MoveQty(s.lines, m) <= 0.0)
    ensures m in Step(s, c).moves && Step(s, c).moves[m] == s.moves[m]
      && MoveQty(Step(s, c).lines, m) <= MoveQty(s.lines, m)
  {
    match c
    case FinishCmd(_, policy, child, cands) => StuckFinish(s, m, policy, child, cands);
    case UnreserveCmd(_) => MoveQtyZero(s.lines, m, m); HeldHere(s, m);
    case _ =>
  }

  lemma StuckFinish(s: Estate, m: Id, policy: Policy, child: Id, cands: seq<Dims>)
    requires m in s.moves && s.moves[m].demand > 0.0
    requires s.moves[m].state == Cancelled || (s.moves[m].state == Assigned && MoveQty(s.lines, m) <= 0.0)
    ensures Finish(s, m, policy, child, cands).Err?
  {
    SumLinesOf(s.lines, m, QtyOf, OfW(m));
    assert DoneCore(s, m).Err? by { hide Mint, DrawAll, Recompute; }
  }

  lemma HeldHere(s: Estate, m: Id)
    requires Sound(s, false) && m in s.moves
    ensures MoveQty(s.lines, m) >= 0.0
  {
    assert MoveMirror(s.moves[m], IsInternal(s.locs, s.moves[m].src), MoveQty(s.lines, m), false);
  }

  lemma StuckOwn(locs: map<Loc, Location>, jobs: seq<Job>, w: World, j: nat, k: nat, c: Cmd)
    requires WorldInv(locs, jobs, w) && JobsOk(locs, jobs) && Leg(jobs, j, k) && ActsOn(jobs, j, k, w.s, c)
    requires MoveOf(jobs, j, k).demand > 0.0 && !CanLand(w.s, MoveOf(jobs, j, k))
    ensures !CanLand(Step(w.s, c), MoveOf(jobs, j, k))
  {
    var nm := MoveOf(jobs, j, k);
    SoundOf(locs, jobs, w);
    StepKeepsLocs(w.s, c);
    if c.CreateCmd? {
      RefusedCreate(w.s, c.id, nm);
      hide WorldInv, JobsOk, Step;
    } else {
      var m := Actor(c);
      TheOneMove(locs, jobs, w, j, k, m);
      NeverWaits(locs, jobs, w, j, k, m);
      hide WorldInv, JobsOk, Sound, Step, Exec, MoveQty, Contract;
      StuckVerb(w.s, c, m);
      assert NamedMove(Step(w.s, c).moves, m, nm.name);
    }
  }

  lemma RefusedCreate(s: Estate, id: Id, nm: NewMove)
    requires !Acceptable(s.locs, nm) && nm.demand > 0.0
    ensures Step(s, CreateCmd(id, nm)) == s
  {
  }

  /** Nothing its door does brings a stuck line on. */
  lemma StuckStays(locs: map<Loc, Location>, jobs: seq<Job>, w: World, e: Event, j: nat)
    requires WorldInv(locs, jobs, w) && JobsOk(locs, jobs) && EventOk(jobs, w, e) && Own(e, j) && j < |jobs|
    requires Stuck(w.s, jobs[j])
    ensures |w.calls| == |w.closed| == |w.recorded| == |jobs| && Stuck(StepWorld(jobs, w, e).s, jobs[j])
  {
    hide WorldInv, JobsOk, EventOk, StepWorld, CanLand, Step, Exec, ActsOn, CmdOf, LandedTo;
    var i, c := OwnEvent(locs, jobs, w, e, j);
    var k: nat :| k < |jobs[j].lines| && jobs[j].lines[k].Some? && !CanLand(w.s, jobs[j].lines[k].value);
    assert Leg(jobs, j, k);
    if c.Some? {
      if i == k {
        StuckOwn(locs, jobs, w, j, k, c.value);
      } else {
        OtherLineSame(locs, jobs, w, j, i, c.value, k);
        SameLanding(locs, jobs, w, Step(w.s, c.value), j, k);
      }
    }
  }

  lemma LandedCanLand(locs: map<Loc, Location>, jobs: seq<Job>, w: World, j: nat)
    requires WorldInv(locs, jobs, w) && j < |jobs| && LandedTo(w.s.moves, jobs[j], |jobs[j].lines|)
    ensures AllCanLand(w.s, jobs[j])
  {
    hide WorldInv, CanLand;
    var lines := jobs[j].lines;
    forall k: nat | k < |lines| && lines[k].Some? ensures CanLand(w.s, lines[k].value) {
      assert Leg(jobs, j, k) && Landed(w.s.moves, lines[k]);
      var m :| NamedMove(w.s.moves, m, lines[k].value.name) && w.s.moves[m].state == Done;
      MovedCanLand(locs, jobs, w, j, k, m);
    }
  }

  // ---- stock that falls short --------------------------------------------------------------------------

  /** Lines that go out of stock need more of some shelf than no line holds there. */
  ghost predicate Short(locs: map<Loc, Location>, s: Estate, job: Job) {
    && GoesOut(locs, job)
    && exists item, loc :: IsInternal(locs, loc) && NeedOf(s, job, item, loc) > Unheld(s, item, loc)
  }

  /** Nothing its door does makes up for it. */
  lemma ShortStays(locs: map<Loc, Location>, jobs: seq<Job>, w: World, e: Event, j: nat)
    requires WorldInv(locs, jobs, w) && JobsOk(locs, jobs) && EventOk(jobs, w, e) && Own(e, j) && j < |jobs|
    requires Short(locs, w.s, jobs[j])
    ensures |w.calls| == |w.closed| == |w.recorded| == |jobs| && Short(locs, StepWorld(jobs, w, e).s, jobs[j])
  {
    hide WorldInv, JobsOk, EventOk, StepWorld, Step, Exec, ActsOn, CmdOf, LandedTo, NeedOf, NeedW, Unheld;
    var i, c := OwnEvent(locs, jobs, w, e, j);
    if c.Some? {
      var item, loc :| IsInternal(locs, loc) && NeedOf(w.s, jobs[j], item, loc) > Unheld(w.s, item, loc);
      OthersNeed(locs, jobs, w, j, i, c.value, item, loc);
      OwnAccount(locs, jobs, w, StepWorld(jobs, w, e), j, i, c.value, item, loc);
      assert NeedOf(StepWorld(jobs, w, e).s, jobs[j], item, loc) > Unheld(StepWorld(jobs, w, e).s, item, loc);
    }
  }

  /** Once every line has landed nothing is needed. */
  lemma LandedNeedsNothing(locs: map<Loc, Location>, jobs: seq<Job>, w: World, j: nat)
    requires WorldInv(locs, jobs, w) && JobsOk(locs, jobs) && j < |jobs|
    requires LandedTo(w.s.moves, jobs[j], |jobs[j].lines|)
    ensures !Short(locs, w.s, jobs[j])
  {
    hide WorldInv, JobsOk, Unheld, Need;
    SoundOf(locs, jobs, w);
    var lines := jobs[j].lines;
    forall k: nat | k < |lines| && lines[k].Some? ensures Need(w.s, lines[k].value) == 0.0 {
      assert Leg(jobs, j, k) && Landed(w.s.moves, lines[k]);
      var m :| NamedMove(w.s.moves, m, lines[k].value.name) && w.s.moves[m].state == Done;
      NeedIs(locs, jobs, w, j, k, m);
    }
    forall item, loc | IsInternal(locs, loc) ensures NeedOf(w.s, jobs[j], item, loc) <= Unheld(w.s, item, loc) {
      SumZero(lines, NeedW(w.s, item, loc));
      FreeIsUnheld(w.s, false, item, loc);
    }
  }

  // ---- what the header is going to refuse ---------------------------------------------------------------

  ghost predicate HeaderWillRefuse(locs: map<Loc, Location>, jobs: seq<Job>, j: nat, s: Estate) {
    Outbound(locs, jobs, j) && HeaderToCome(s, jobs[j]) < 0.0
  }

  /** What is to come of its header is settled before its lines move. */
  lemma HeaderStays(locs: map<Loc, Location>, jobs: seq<Job>, w: World, e: Event, j: nat)
    requires WorldInv(locs, jobs, w) && JobsOk(locs, jobs) && EventOk(jobs, w, e) && Own(e, j) && j < |jobs|
    requires Outbound(locs, jobs, j)
    ensures |w.calls| == |w.closed| == |w.recorded| == |jobs|
    ensures HeaderToCome(StepWorld(jobs, w, e).s, jobs[j]) == HeaderToCome(w.s, jobs[j])
  {
    hide WorldInv, JobsOk, EventOk, StepWorld, Step, Exec, ActsOn, CmdOf, LandedTo, HeaderToCome, Outbound, Finishes;
    var i, c := OwnEvent(locs, jobs, w, e, j);
    if c.Some? {
      if Finishes(w.s, c.value) {
        FinishesPlainly(jobs, j, i, w.s, c.value);
        FinishTakesFromForecast(locs, jobs, w, StepWorld(jobs, w, e), j, i, c.value.id, c.value.child);
      } else {
        VerbKeepsForecast(locs, jobs, w, StepWorld(jobs, w, e), j, i, c.value);
      }
    }
  }

  // ---- what a row is going to refuse --------------------------------------------------------------------

  /** A recording door that tests every line, its moves valued at the bins' averages. */
  ghost predicate Delivers(locs: map<Loc, Location>, jobs: seq<Job>, j: nat) {
    && Outbound(locs, jobs, j) && jobs[j].guard == EveryLine && Positive(jobs[j])
    && forall k :: 0 <= k < |jobs[j].lines| && jobs[j].lines[k].Some? ==> jobs[j].lines[k].value.forced.None?
  }

  /** A line's cost is going to be below zero, or just was and its bin is empty. */
  ghost predicate RowWillRefuse(locs: map<Loc, Location>, jobs: seq<Job>, j: nat, s: Estate, call: Call) {
    && Delivers(locs, jobs, j) && RatesHeld(s.books.bins, locs, jobs[j])
    && (!RowsWillTake(s, jobs[j])
        || (call.Recording? && call.worth < 0.0 && Leg(jobs, j, call.line) && !Stocked(s, MoveOf(jobs, j, call.line))))
  }

  /** No call of the door is let in. */
  ghost predicate LockedOut(s: Estate, job: Job, call: Call, closed: seq<bool>) {
    call == Idle && !(Admits(s, job) && AfterClosed(job, closed))
  }

  /** A row that is going to refuse its cost does; and then its bin is empty, so no call is let in again. */
  lemma RowRefuses(locs: map<Loc, Location>, jobs: seq<Job>, w: World, e: Event, j: nat)
    requires WorldInv(locs, jobs, w) && JobsOk(locs, jobs) && EventOk(jobs, w, e) && Own(e, j) && j < |jobs|
    requires |w.calls| == |w.closed| == |w.recorded| == |jobs|
    requires RowWillRefuse(locs, jobs, j, w.s, w.calls[j])
    ensures var w' := StepWorld(jobs, w, e);
      RowWillRefuse(locs, jobs, j, w'.s, w'.calls[j]) || LockedOut(w'.s, jobs[j], w'.calls[j], w'.closed)
  {
    hide WorldInv, JobsOk, EventOk, StepWorld, Step, Exec, ActsOn, CmdOf, LandedTo, Finishes, ToCome, Outbound, Stocked,
      RatesHeld, Worth;
    var i, c := OwnEvent(locs, jobs, w, e, j);
    var w' := StepWorld(jobs, w, e);
    if !RowsWillTake(w.s, jobs[j]) {
      if c.Some? && Finishes(w.s, c.value) {
        FinishIssued(jobs, w, e, j, i, c.value);
        FinishRefuses(locs, jobs, w, e, j, i, c.value.id);
      } else if c.Some? {
        VerbKeepsForecast(locs, jobs, w, w', j, i, c.value);
        SoundOf(locs, jobs, w);
      }
    } else {
      RefusedRecordLocks(jobs, w, e, j);
    }
  }

  lemma RefusedRecordLocks(jobs: seq<Job>, w: World, e: Event, j: nat)
    requires |w.calls| == |w.closed| == |w.recorded| == |jobs| && Own(e, j) && j < |jobs|
    requires var call := w.calls[j];
      call.Recording? && call.worth < 0.0 && Leg(jobs, j, call.line) && !Stocked(w.s, MoveOf(jobs, j, call.line))
    requires jobs[j].guard == EveryLine
    ensures var w' := StepWorld(jobs, w, e);
      w'.s == w.s && (w'.calls[j] == w.calls[j] || LockedOut(w'.s, jobs[j], w'.calls[j], w'.closed))
  {
    hide Stocked, Closes;
    assert Tested(w.s.moves, jobs[j], w.calls[j].line);
  }

  lemma FinishIssued(jobs: seq<Job>, w: World, e: Event, j: nat, i: nat, c: Cmd)
    requires |w.calls| == |jobs| && Issues(jobs, w, e, j, i, c) && Finishes(w.s, c)
    ensures c == FinishCmd(c.id, Never, e.unseen, []) && w.calls[j] == Finishing(i, c.id)
  {
    hide Exec, ActsOn, LandedTo;
  }

  lemma FinishRefuses(locs: map<Loc, Location>, jobs: seq<Job>, w: World, e: Event, j: nat, i: nat, m: Id)
    requires WorldInv(locs, jobs, w) && WorldInv(locs, jobs, StepWorld(jobs, w, e)) && JobsOk(locs, jobs)
    requires |w.calls| == |w.closed| == |w.recorded| == |jobs| && e.Advance?
    requires Issues(jobs, w, e, j, i, FinishCmd(m, Never, e.unseen, []))
    requires Finishes(w.s, FinishCmd(m, Never, e.unseen, []))
    requires StepWorld(jobs, w, e).s == Step(w.s, FinishCmd(m, Never, e.unseen, []))
    requires Delivers(locs, jobs, j) && RatesHeld(w.s.books.bins, locs, jobs[j]) && !RowsWillTake(w.s, jobs[j])
    ensures var w' := StepWorld(jobs, w, e); RowWillRefuse(locs, jobs, j, w'.s, w'.calls[j])
  {
    var w', c := StepWorld(jobs, w, e), FinishCmd(m, Never, e.unseen, []);
    FinishIssued(jobs, w, e, j, i, c);
    hide WorldInv, JobsOk, StepWorld, Step, Exec, ActsOn, CmdOf, LandedTo, ToCome, Stocked, RatesHeld, Worth, LineWorth,
      BinsAfter, RowsWillTake, Outbound, MoveOf, Leg, Finish;
    ActorIs(jobs, j, i, w.s, m, e.unseen);
    FinishExec(w.s, m, e.unseen);
    SoundOf(locs, jobs, w);
    SoundOf(locs, jobs, w');
    FinishTakesFromForecast(locs, jobs, w, w', j, i, m, e.unseen);
    DoneIsForecast(locs, jobs, w, w', j, i, m, e.unseen);
    LegLine(jobs, j, i);
    NegativeDrains(w'.s, w.s.books.bins, jobs[j], i);
    RecordsWorth(jobs, w, e, j, i, m);
    NegativeAhead(w.s, w'.s, jobs[j], Worth(w.s, m));
  }

  lemma LegLine(jobs: seq<Job>, j: nat, i: nat)
    requires Leg(jobs, j, i)
    ensures j < |jobs| && i < |jobs[j].lines| && jobs[j].lines[i] == Some(MoveOf(jobs, j, i))
  {
  }

  lemma NegativeAhead(s: Estate, s': Estate, job: Job, worth: real)
    requires ToCome(s, job) == [worth] + ToCome(s', job) && !RowsWillTake(s, job)
    ensures worth < 0.0 || !RowsWillTake(s', job)
  {
    hide ToCome;
    var x :| x in ToCome(s, job) && x < 0.0;
    assert x == worth || x in ToCome(s', job);
  }

  lemma ActorIs(jobs: seq<Job>, j: nat, i: nat, s: Estate, m: Id, x: Id)
    requires ActsOn(jobs, j, i, s, FinishCmd(m, Never, x, []))
    ensures Leg(jobs, j, i) && NamedMove(s.moves, m, MoveOf(jobs, j, i).name)
  {
  }

  lemma RecordsWorth(jobs: seq<Job>, w: World, e: Event, j: nat, i: nat, m: Id)
    requires |w.calls| == |w.closed| == |w.recorded| == |jobs| && e.Advance? && e.door == j < |jobs|
    requires CmdOf(w.s, jobs[j], w.calls[j], e.unseen, e.cands) == Some(FinishCmd(m, Never, e.unseen, []))
    requires w.calls[j] != Idle && w.calls[j].line == i && m in w.s.moves && jobs[j].records
    requires Exec(w.s, FinishCmd(m, Never, e.unseen, [])).Ok?
    ensures StepWorld(jobs, w, e).calls[j] == Recording(i, m, Worth(w.s, m))
  {
    hide Step, Exec, Worth, Closes;
  }

  lemma LockedStays(jobs: seq<Job>, w: World, e: Event, j: nat)
    requires |w.calls| == |w.closed| == |w.recorded| == |jobs| && Own(e, j) && j < |jobs|
    requires LockedOut(w.s, jobs[j], w.calls[j], w.closed)
    ensures StepWorld(jobs, w, e).s == w.s && StepWorld(jobs, w, e).calls == w.calls
      && StepWorld(jobs, w, e).closed == w.closed
  {
    hide Admits;
  }

  // ---- never -----------------------------------------------------------------------------------------------

  ghost predicate Hopeless(locs: map<Loc, Location>, jobs: seq<Job>, w: World, j: nat)
    requires |w.calls| == |w.closed| == |w.recorded| == |jobs| && j < |jobs|
  {
    || Stuck(w.s, jobs[j]) || Short(locs, w.s, jobs[j]) || HeaderWillRefuse(locs, jobs, j, w.s)
    || RowWillRefuse(locs, jobs, j, w.s, w.calls[j]) || LockedOut(w.s, jobs[j], w.calls[j], w.closed)
  }

  lemma HopelessIsOpen(locs: map<Loc, Location>, jobs: seq<Job>, w: World, e: Event, j: nat)
    requires WorldInv(locs, jobs, w) && JobsOk(locs, jobs) && Own(e, j) && j < |jobs|
    requires |w.calls| == |w.closed| == |w.recorded| == |jobs| && !w.closed[j] && Hopeless(locs, jobs, w, j)
    ensures !StepWorld(jobs, w, e).closed[j]
  {
    hide WorldInv, JobsOk, StepWorld, LandedTo, AllCanLand, Short, ToCome, Positive, CarriedTo, Outbound, Delivers,
      RatesHeld, Stocked;
    if StepWorld(jobs, w, e).closed[j] {
      ClosesWhen(locs, jobs, w, e, j);
      LandedCanLand(locs, jobs, w, j);
      LandedNeedsNothing(locs, jobs, w, j);
      NothingToCome(w.s, jobs[j]);
      OutboundRecords(locs, jobs, j);
    }
  }

  lemma OutboundRecords(locs: map<Loc, Location>, jobs: seq<Job>, j: nat)
    requires j < |jobs|
    ensures Outbound(locs, jobs, j) ==> jobs[j].records
    ensures Delivers(locs, jobs, j) ==> Outbound(locs, jobs, j)
  {
  }

  lemma HopelessStays(locs: map<Loc, Location>, jobs: seq<Job>, w: World, e: Event, j: nat)
    requires WorldInv(locs, jobs, w) && JobsOk(locs, jobs) && EventOk(jobs, w, e) && Own(e, j) && j < |jobs|
    requires |w.calls| == |w.closed| == |w.recorded| == |jobs| && Hopeless(locs, jobs, w, j)
    ensures Hopeless(locs, jobs, StepWorld(jobs, w, e), j)
  {
    hide WorldInv, JobsOk, EventOk, StepWorld, Stuck, Short, HeaderToCome, Outbound, RowWillRefuse, LockedOut;
    if Stuck(w.s, jobs[j]) {
      StuckStays(locs, jobs, w, e, j);
    } else if Short(locs, w.s, jobs[j]) {
      ShortStays(locs, jobs, w, e, j);
    } else if HeaderWillRefuse(locs, jobs, j, w.s) {
      HeaderStays(locs, jobs, w, e, j);
    } else if RowWillRefuse(locs, jobs, j, w.s, w.calls[j]) {
      RowRefuses(locs, jobs, w, e, j);
    } else {
      LockedStays(jobs, w, e, j);
    }
  }

  /** Then nothing the door does alone, however long, closes the voucher. */
  lemma {:induction false} HopelessNeverCloses(locs: map<Loc, Location>, jobs: seq<Job>, w: World, es: seq<Event>,
      j: nat)
    requires WorldInv(locs, jobs, w) && JobsOk(locs, jobs) && j < |jobs|
    requires |w.calls| == |w.closed| == |w.recorded| == |jobs| && !w.closed[j] && Hopeless(locs, jobs, w, j)
    requires Reaches(jobs, w, es, j)
    ensures !RunOn(jobs, w, es).closed[j]
    decreases |es|
  {
    hide WorldInv, JobsOk, EventOk, StepWorld, Hopeless;
    if es != [] {
      assert es[0] in es;
      EventKeepsWorld(locs, jobs, w, es[0]);
      HopelessIsOpen(locs, jobs, w, es[0], j);
      HopelessStays(locs, jobs, w, es[0], j);
      HopelessNeverCloses(locs, jobs, StepWorld(jobs, w, es[0]), es[1..], j);
    }
  }
}
