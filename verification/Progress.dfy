/** A door left alone, with nothing in its way: every step it takes brings it nearer to closing its voucher,
    so every long enough undisturbed sequence of its steps closes it. */
module Progress {
  import opened Common
  import opened StockTypes
  import opened Reservation
  import opened Engine
  import opened Invariants
  import opened Soundness
  import opened Runs
  import opened Coverage
  import opened Doors
  import opened DoorSoundness
  import opened DoorRuns
  import opened DoorWalks
  import opened DeliveryTotals
  import opened DoorVerbs
  import opened Forecast

  // ---- a step of a door left alone -----------------------------------------------------------

  ghost function Stepped(d: Door, e: Event): (d': Door)
    requires Sized(d)
    ensures Sized(d')
  {
    d.(w := StepWorld(d.jobs, d.w, e))
  }

  function Standing(d: Door): Call
    requires Sized(d) && d.j < |d.jobs|
  {
    d.w.calls[d.j]
  }

  /** An assign is offered all that is free. */
  ghost predicate Offered(s: Estate, call: Call, cands: seq<Dims>) {
    call.Drive? && call.mv in s.moves ==> Complete(s.quants, s.moves[call.mv].item, s.moves[call.mv].src, cands)
  }

  /** The next event of a door nobody disturbs: its call's next step, or a new call when none is on its
      way, the original's post being on record. */
  ghost predicate Turn(d: Door, e: Event)
    requires Sized(d) && d.j < |d.jobs|
  {
    && EventOk(d.jobs, d.w, e)
    && if Standing(d) == Idle then e == Begin(d.j, true)
       else e.Advance? && e.door == d.j && Offered(d.w.s, Standing(d), e.cands)
  }

  ghost predicate Undisturbed(d: Door, es: seq<Event>)
    requires Sized(d) && d.j < |d.jobs|
    decreases |es|
  {
    es == [] || (Turn(d, es[0]) && Undisturbed(Stepped(d, es[0]), es[1..]))
  }

  // ---- a door with nothing in its way -----------------------------------------------------------

  /** No line is stuck, the free stock covers what the lines need, and neither a row nor the header is going
      to refuse what a recording door writes. */
  ghost predicate Fit(locs: map<Loc, Location>, jobs: seq<Job>, j: nat, s: Estate)
    requires j < |jobs|
  {
    && Positive(jobs[j]) && AllCanLand(s, jobs[j]) && Covered(s, jobs[j])
    && (jobs[j].records ==> Outbound(locs, jobs, j) && RowsWillTake(s, jobs[j]) && HeaderToCome(s, jobs[j]) >= 0.0)
  }

  /** The call stands where its next step is not refused. */
  ghost predicate OnItsWay(s: Estate, job: Job, call: Call) {
    match call
    case Idle => Admits(s, job)
    case AtLine(_) => true
    case Drive(_, m) => m in s.moves && Drivable(s, m)
    case Releasing(_, _) => false
    case Finishing(_, m) => m in s.moves && s.moves[m].state == Assigned && MoveQty(s.lines, m) > 0.0
    case Recording(_, _, worth) => worth >= 0.0
  }

  ghost predicate Able(d: Door) {
    && WorldInv(d.locs, d.jobs, d.w) && JobsOk(d.locs, d.jobs) && d.j < |d.jobs| && !d.w.closed[d.j]
    && AfterClosed(d.jobs[d.j], d.w.closed) && Fit(d.locs, d.jobs, d.j, d.w.s)
    && OnItsWay(d.w.s, d.jobs[d.j], Standing(d))
  }

  /** The lines a call has still to pass. */
  function Ahead(job: Job, call: Call): int {
    match call
    case Idle => |job.lines| + 1
    case AtLine(i) => |job.lines| - i
    case Drive(i, _) => |job.lines| - i
    case Releasing(i, _) => |job.lines| - i
    case Finishing(i, _) => |job.lines| - i
    case Recording(i, _, _) => |job.lines| - i
  }

  /** The verbs it has still to issue for the one it is at. */
  function Phase(s: Estate, call: Call): nat {
    match call
    case AtLine(_) => 5
    case Drive(_, m) =>
      if m !in s.moves then 2
        else if s.moves[m].state == Draft then 4 else if Unreserved(s.moves[m].state) then 3 else 2
    case Finishing(_, _) => 1
    case _ => 0
  }

  /** Steps that are enough. */
  function Fuel(s: Estate, job: Job, call: Call): int { 6 * Ahead(job, call) + Phase(s, call) }

  ghost predicate Further(s: Estate, s': Estate, job: Job, call: Call, next: Call) {
    OnItsWay(s', job, next) && Fuel(s', job, next) < Fuel(s, job, call)
  }

  ghost predicate Onward(d: Door, d': Door)
    requires Sized(d) && Sized(d') && d.j < |d.jobs| && d'.j == d.j && d'.jobs == d.jobs
  {
    d'.w.closed[d.j] || (Able(d') && Fuel(d'.w.s, d.jobs[d.j], Standing(d')) < Fuel(d.w.s, d.jobs[d.j], Standing(d)))
  }

  lemma AbleSized(d: Door)
    requires Able(d)
    ensures Sized(d) && d.j < |d.jobs|
  {
    hide Fit, OnItsWay;
  }

  lemma StaysClosed(jobs: seq<Job>, w: World, e: Event)
    requires |w.calls| == |w.closed| == |w.recorded| == |jobs|
    ensures forall k :: 0 <= k < |jobs| && w.closed[k] ==> StepWorld(jobs, w, e).closed[k]
  {
    hide Step, CmdOf, Exec, NextCall, Closes;
  }

  /** What an advance keeps whatever the call, and where it leads. */
  lemma Advanced(d: Door, e: Event)
    requires Able(d) && Sized(d) && Turn(d, e) && Standing(d) != Idle
    ensures var d' := Stepped(d, e);
      && e.Advance? && WorldInv(d.locs, d.jobs, d'.w) && AfterClosed(d.jobs[d.j], d'.w.closed)
      && PlaceOf(d'.w, d.j) == NextPlace(d.jobs[d.j], PlaceOf(d.w, d.j), e.unseen, e.cands)
  {
    EventKeepsWorld(d.locs, d.jobs, d.w, e);
    AdvanceMoves(d.jobs, d.w, d.j, e.unseen, e.cands);
    StaysClosed(d.jobs, d.w, e);
    hide WorldInv, JobsOk, StepWorld, NextPlace, EventOk, Fit, OnItsWay;
  }

  /** A step that issues no verb. */
  lemma StillOnward(d: Door, e: Event)
    requires Able(d) && Sized(d) && Turn(d, e) && Standing(d) != Idle
    requires CmdOf(d.w.s, d.jobs[d.j], Standing(d), e.unseen, e.cands).None?
    requires Closes(d.w.s, d.jobs[d.j], Standing(d)) ||
      Further(d.w.s, d.w.s, d.jobs[d.j], Standing(d),
        NextCall(d.w.s, d.jobs[d.j], Standing(d), e.unseen, Ok(d.w.s)))
    ensures Onward(d, Stepped(d, e))
  {
    Advanced(d, e);
    hide WorldInv, JobsOk, StepWorld, EventOk, NextCall, CmdOf, Offered, OnItsWay, Fuel, Closes, Fit;
  }

  /** The verb's own line can still land, and its change of need is met by its shelf's. */
  ghost predicate LineMet(job: Job, i: nat, s: Estate, s': Estate)
    requires i < |job.lines| && job.lines[i].Some?
  {
    && CanLand(s', job.lines[i].value)
    && forall item, loc :: IsInternal(s.locs, loc) ==>
         NeedW(s', item, loc)(job.lines[i]) - NeedW(s, item, loc)(job.lines[i]) <=
         FreeAt(s'.quants, item, loc) - FreeAt(s.quants, item, loc)
  }

  lemma VerbKeepsCovered(locs: map<Loc, Location>, jobs: seq<Job>, w: World, j: nat, i: nat, c: Cmd)
    requires WorldInv(locs, jobs, w) && JobsOk(locs, jobs) && ActsOn(jobs, j, i, w.s, c) && Covered(w.s, jobs[j])
    requires Leg(jobs, j, i) && LineMet(jobs[j], i, w.s, Step(w.s, c))
    ensures Covered(Step(w.s, c), jobs[j])
  {
    hide WorldInv, JobsOk, ActsOn, Step, CanLand, NeedOf, NeedW, FreeAt;
    var s, s' := w.s, Step(w.s, c);
    StepKeepsLocs(s, c);
    forall item, loc | IsInternal(s'.locs, loc) ensures NeedOf(s', jobs[j], item, loc) <= FreeAt(s'.quants, item, loc) {
      OthersNeed(locs, jobs, w, j, i, c, item, loc);
      assert NeedOf(s, jobs[j], item, loc) <= FreeAt(s.quants, item, loc);
    }
  }

  /** A verb of the door's keeps the door fit when its own line is met. */
  lemma VerbKeepsFit(locs: map<Loc, Location>, jobs: seq<Job>, w: World, w': World, j: nat, i: nat, c: Cmd)
    requires WorldInv(locs, jobs, w) && WorldInv(locs, jobs, w') && JobsOk(locs, jobs) && ActsOn(jobs, j, i, w.s, c)
    requires j < |jobs| && Fit(locs, jobs, j, w.s) && w'.s == Step(w.s, c)
    requires Leg(jobs, j, i) && LineMet(jobs[j], i, w.s, w'.s) && LandedTo(w.s.moves, jobs[j], i)
    ensures Fit(locs, jobs, j, w'.s)
    ensures jobs[j].records && Finishes(w.s, c) ==> c.id in w.s.moves && Worth(w.s, c.id) >= 0.0
  {
    hide WorldInv, JobsOk, ActsOn, Step, Exec, CanLand, Covered, ToCome, HeaderToCome, LandedTo, Outbound, Worth;
    AllOthersLand(locs, jobs, w, j, i, c);
    VerbKeepsCovered(locs, jobs, w, j, i, c);
    if jobs[j].records {
      if Finishes(w.s, c) {
        FinishesPlainly(jobs, j, i, w.s, c);
        FinishTakesFromForecast(locs, jobs, w, w', j, i, c.id, c.child);
        assert Worth(w.s, c.id) in ToCome(w.s, jobs[j]);
        forall x | x in ToCome(w'.s, jobs[j]) ensures x >= 0.0 { assert x in ToCome(w.s, jobs[j]); }
      } else {
        VerbKeepsForecast(locs, jobs, w, w', j, i, c);
      }
    }
  }

  lemma FinishesPlainly(jobs: seq<Job>, j: nat, i: nat, s: Estate, c: Cmd)
    requires ActsOn(jobs, j, i, s, c) && Finishes(s, c)
    ensures c == FinishCmd(c.id, Never, c.child, []) && Exec(s, FinishCmd(c.id, Never, c.child, [])).Ok?
  {
    hide Exec;
  }

  /** The world an own verb leads to. */
  lemma VerbWorld(d: Door, e: Event, c: Cmd)
    requires Able(d) && Sized(d) && Turn(d, e) && Standing(d) != Idle
    requires e.Advance? && CmdOf(d.w.s, d.jobs[d.j], Standing(d), e.unseen, e.cands) == Some(c)
    ensures WorldInv(d.locs, d.jobs, Stepped(d, e).w) && Stepped(d, e).w.s == Step(d.w.s, c)
  {
    Advanced(d, e);
    hide Able, WorldInv, JobsOk, StepWorld, EventOk, NextCall, CmdOf, Step, Exec, Turn, Closes;
  }

  lemma TurnDraws(d: Door, e: Event)
    requires Sized(d) && d.j < |d.jobs| && Turn(d, e) && Standing(d) != Idle
    ensures e.Advance? && e.door == d.j && Fresh(d.w.s.moves, e.unseen) && Offered(d.w.s, Standing(d), e.cands)
  {
    hide Fresh, Offered;
  }

  /** A verb that meets its line and brings the call further. */
  lemma VerbOnward(d: Door, e: Event, i: nat, c: Cmd)
    requires Able(d) && Sized(d) && Turn(d, e) && Standing(d) != Idle && LandedTo(d.w.s.moves, d.jobs[d.j], i)
    requires CmdOf(d.w.s, d.jobs[d.j], Standing(d), e.unseen, e.cands) == Some(c)
    requires Leg(d.jobs, d.j, i) && ActsOn(d.jobs, d.j, i, d.w.s, c) && LineMet(d.jobs[d.j], i, d.w.s, Step(d.w.s, c))
    requires (d.jobs[d.j].records && Finishes(d.w.s, c) ==> c.id in d.w.s.moves && Worth(d.w.s, c.id) >= 0.0) ==>
      Further(d.w.s, Step(d.w.s, c), d.jobs[d.j], Standing(d),
        NextCall(d.w.s, d.jobs[d.j], Standing(d), e.unseen, Exec(d.w.s, c)))
    ensures Onward(d, Stepped(d, e))
  {
    hide Able, WorldInv, JobsOk, StepWorld, EventOk, NextCall, CmdOf, Offered, OnItsWay, Fuel, Closes, Fit, Step, Exec,
      Finishes, Worth, ActsOn, LineMet, LandedTo, Onward, NextPlace, AfterClosed, Turn, Leg;
    AbleFit(d);
    TurnDraws(d, e);
    VerbWorld(d, e, c);
    VerbKeepsFit(d.locs, d.jobs, d.w, Stepped(d, e).w, d.j, i, c);
    VerbLeads(d, e, c);
    BackAble(d, Stepped(d, e));
  }

  lemma AbleFit(d: Door)
    requires Able(d) && Sized(d)
    ensures WorldInv(d.locs, d.jobs, d.w) && JobsOk(d.locs, d.jobs) && d.j < |d.jobs| && Fit(d.locs, d.jobs, d.j, d.w.s)
  {
    hide WorldInv, JobsOk, Fit, OnItsWay;
  }

  /** Where an own verb leads, the voucher it comes after still closed. */
  lemma VerbLeads(d: Door, e: Event, c: Cmd)
    requires Able(d) && Sized(d) && Turn(d, e) && Standing(d) != Idle && e.Advance?
    requires CmdOf(d.w.s, d.jobs[d.j], Standing(d), e.unseen, e.cands) == Some(c)
    ensures Stepped(d, e).w.s == Step(d.w.s, c) && AfterClosed(d.jobs[d.j], Stepped(d, e).w.closed)
    ensures Standing(Stepped(d, e)) == NextCall(d.w.s, d.jobs[d.j], Standing(d), e.unseen, Exec(d.w.s, c))
  {
    Advanced(d, e);
    hide Able, WorldInv, JobsOk, StepWorld, EventOk, NextCall, CmdOf, Step, Exec, Turn, Closes, AfterClosed;
  }

  lemma BackAble(d: Door, d': Door)
    requires Sized(d) && Sized(d') && d.j < |d.jobs| && d'.j == d.j && d'.jobs == d.jobs && d'.locs == d.locs
    requires WorldInv(d'.locs, d'.jobs, d'.w) && JobsOk(d'.locs, d'.jobs) && AfterClosed(d'.jobs[d'.j], d'.w.closed)
    requires Fit(d'.locs, d'.jobs, d'.j, d'.w.s)
    requires Further(d.w.s, d'.w.s, d.jobs[d.j], Standing(d), Standing(d'))
    ensures Onward(d, d')
  {
    hide WorldInv, JobsOk, Fit, OnItsWay, Fuel, AfterClosed;
  }

  // ---- the verbs meet their lines --------------------------------------------------------------------

  lemma MovedCanLand(locs: map<Loc, Location>, jobs: seq<Job>, w: World, j: nat, i: nat, m: Id)
    requires WorldInv(locs, jobs, w) && Leg(jobs, j, i) && NamedMove(w.s.moves, m, MoveOf(jobs, j, i).name)
    requires w.s.moves[m].state == Done || Drivable(w.s, m)
    ensures CanLand(w.s, MoveOf(jobs, j, i))
  {
    TheOneMove(locs, jobs, w, j, i, m);
    hide WorldInv, MoveQty;
  }

  lemma CreateMet(locs: map<Loc, Location>, jobs: seq<Job>, w: World, w': World, j: nat, i: nat, x: Id)
    requires WorldInv(locs, jobs, w) && WorldInv(locs, jobs, w') && JobsOk(locs, jobs) && Leg(jobs, j, i)
    requires forall m :: !NamedMove(w.s.moves, m, MoveOf(jobs, j, i).name)
    requires MoveOf(jobs, j, i).demand > 0.0 && CanLand(w.s, MoveOf(jobs, j, i)) && Fresh(w.s.moves, x)
    requires w'.s == Step(w.s, CreateCmd(x, MoveOf(jobs, j, i)))
    ensures var nm := MoveOf(jobs, j, i); var c := CreateCmd(x, nm);
      && Exec(w.s, c).Ok? && NamedMove(w'.s.moves, x, nm.name) && w'.s.moves[x].state == Draft
      && ActsOn(jobs, j, i, w.s, c) && LineMet(jobs[j], i, w.s, w'.s)
  {
    var nm := MoveOf(jobs, j, i);
    Creates(w.s, x, nm);
    CreateAdds(w.s, x, nm);
    LegIsPlain(locs, jobs, j, i);
    hide WorldInv, JobsOk, FreeAt, Step, Exec, Need;
    MovedCanLand(locs, jobs, w', j, i, x);
    forall item, loc ensures NeedW(w'.s, item, loc)(jobs[j].lines[i]) == NeedW(w.s, item, loc)(jobs[j].lines[i]) {
      CreateAccount(locs, jobs, w, w', j, i, x, item, loc);
    }
  }

  lemma LegIsPlain(locs: map<Loc, Location>, jobs: seq<Job>, j: nat, i: nat)
    requires JobsOk(locs, jobs) && Leg(jobs, j, i)
    ensures MoveOf(jobs, j, i).orig == []
  {
  }

  lemma Creates(s: Estate, x: Id, nm: NewMove)
    requires Acceptable(s.locs, nm) && nm.demand > 0.0
    ensures Exec(s, CreateCmd(x, nm)).Ok?
  {
  }

  lemma ConfirmMet(locs: map<Loc, Location>, jobs: seq<Job>, w: World, w': World, j: nat, i: nat, m: Id)
    requires WorldInv(locs, jobs, w) && WorldInv(locs, jobs, w') && JobsOk(locs, jobs) && Leg(jobs, j, i)
    requires NamedMove(w.s.moves, m, MoveOf(jobs, j, i).name) && w.s.moves[m].state == Draft
    requires w'.s == Step(w.s, ConfirmCmd(m))
    ensures Exec(w.s, ConfirmCmd(m)).Ok? && m in w'.s.moves && w'.s.moves[m].state == Confirmed
    ensures ActsOn(jobs, j, i, w.s, ConfirmCmd(m)) && LineMet(jobs[j], i, w.s, w'.s)
  {
    hide WorldInv, JobsOk, FreeAt, Step, Exec, Sound, MoveQty, Need;
    NeverWaits(locs, jobs, w, j, i, m);
    ConfirmsPlain(w.s, m);
    MovedCanLand(locs, jobs, w', j, i, m);
    forall item, loc ensures NeedW(w'.s, item, loc)(jobs[j].lines[i]) == NeedW(w.s, item, loc)(jobs[j].lines[i]) {
      ConfirmAccount(locs, jobs, w, w', j, i, m, item, loc);
    }
  }

  lemma ConfirmsPlain(s: Estate, m: Id)
    requires m in s.moves && s.moves[m].state == Draft && s.moves[m].orig == []
    ensures var c := ConfirmCmd(m); var s' := Step(s, c);
      Exec(s, c).Ok? && s' == s.(moves := s.moves[m := s.moves[m].(state := Confirmed)])
  {
  }

  lemma AssignMet(locs: map<Loc, Location>, jobs: seq<Job>, w: World, w': World, j: nat, i: nat, m: Id,
      cands: seq<Dims>)
    requires WorldInv(locs, jobs, w) && WorldInv(locs, jobs, w') && JobsOk(locs, jobs) && Leg(jobs, j, i)
    requires NamedMove(w.s.moves, m, MoveOf(jobs, j, i).name) && Positive(jobs[j]) && Covered(w.s, jobs[j])
    requires w.s.moves[m].state == Confirmed || w.s.moves[m].state == PartiallyAvailable
    requires Complete(w.s.quants, w.s.moves[m].item, w.s.moves[m].src, cands) && w'.s == Step(w.s, AssignCmd(m, cands))
    ensures Exec(w.s, AssignCmd(m, cands)).Ok? && ActsOn(jobs, j, i, w.s, AssignCmd(m, cands))
    ensures m in w'.s.moves && w'.s.moves[m].state == Assigned && MoveQty(w'.s.lines, m) > 0.0
    ensures LineMet(jobs[j], i, w.s, w'.s)
  {
    hide WorldInv, JobsOk, Sound, Need, FreeAt, CanLand, Covered, Suffices, ActsOn, Step, Exec, Assign, MoveQty,
      Complete;
    SoundOf(locs, jobs, w);
    NeverWaits(locs, jobs, w, j, i, m);
    AssignSuffices(locs, jobs, w, j, i, m);
    AssignReaches(w.s, m, cands);
    AssignExec(w.s, m, cands);
    AssignActs(jobs, j, i, w.s, m, cands);
    NeedIs(locs, jobs, w, j, i, m);
    NeedIs(locs, jobs, w', j, i, m);
    MovedCanLand(locs, jobs, w', j, i, m);
  }

  /** The shelf of a line's move has enough for it. */
  lemma AssignSuffices(locs: map<Loc, Location>, jobs: seq<Job>, w: World, j: nat, i: nat, m: Id)
    requires WorldInv(locs, jobs, w) && JobsOk(locs, jobs) && Leg(jobs, j, i) && Positive(jobs[j])
    requires NamedMove(w.s.moves, m, MoveOf(jobs, j, i).name) && w.s.moves[m].state != Done && Covered(w.s, jobs[j])
    ensures MoveOf(jobs, j, i).demand > 0.0 && Suffices(w.s, m)
  {
    hide WorldInv, JobsOk, FreeAt, MoveQty, Need, NeedOf;
    SoundOf(locs, jobs, w);
    NeverWaits(locs, jobs, w, j, i, m);
    NeedIs(locs, jobs, w, j, i, m);
    NeedWithin(locs, jobs, w, j, i);
  }

  /** What one line needs is part of what all lines do. */
  lemma NeedWithin(locs: map<Loc, Location>, jobs: seq<Job>, w: World, j: nat, i: nat)
    requires WorldInv(locs, jobs, w) && JobsOk(locs, jobs) && Leg(jobs, j, i) && Positive(jobs[j])
    ensures var nm := MoveOf(jobs, j, i); Need(w.s, nm) <= NeedOf(w.s, jobs[j], nm.item, nm.src)
  {
    var nm, lines := MoveOf(jobs, j, i), jobs[j].lines;
    var u := NeedW(w.s, nm.item, nm.src);
    forall k | 0 <= k < |lines| ensures u(lines[k]) >= 0.0 {
      if lines[k].Some? { NeedNonNegative(locs, jobs, w, j, k); }
    }
    SumNonNegative(lines, u);
    assert u(lines[i]) <= NeedOf(w.s, jobs[j], nm.item, nm.src);
    hide WorldInv, JobsOk;
  }

  lemma NeedNonNegative(locs: map<Loc, Location>, jobs: seq<Job>, w: World, j: nat, k: nat)
    requires WorldInv(locs, jobs, w) && JobsOk(locs, jobs) && Leg(jobs, j, k) && Positive(jobs[j])
    ensures Need(w.s, MoveOf(jobs, j, k)) >= 0.0
  {
    var nm := MoveOf(jobs, j, k);
    if exists m :: NamedMove(w.s.moves, m, nm.name) {
      var m :| NamedMove(w.s.moves, m, nm.name);
      NeedIs(locs, jobs, w, j, k, m);
      HeldWithin(locs, jobs, w, m);
    }
  }

  lemma AssignActs(jobs: seq<Job>, j: nat, i: nat, s: Estate, m: Id, cands: seq<Dims>)
    requires Leg(jobs, j, i) && NamedMove(s.moves, m, MoveOf(jobs, j, i).name)
    requires Complete(s.quants, s.moves[m].item, s.moves[m].src, cands)
    ensures ActsOn(jobs, j, i, s, AssignCmd(m, cands))
  {
  }

  lemma FinishMet(locs: map<Loc, Location>, jobs: seq<Job>, w: World, w': World, j: nat, i: nat, m: Id, x: Id)
    requires WorldInv(locs, jobs, w) && WorldInv(locs, jobs, w') && JobsOk(locs, jobs) && Leg(jobs, j, i)
    requires NamedMove(w.s.moves, m, MoveOf(jobs, j, i).name) && Fresh(w.s.moves, x)
    requires w.s.moves[m].state == Assigned && MoveQty(w.s.lines, m) > 0.0
    requires w'.s == Step(w.s, FinishCmd(m, Never, x, []))
    ensures var c := FinishCmd(m, Never, x, []); Exec(w.s, c).Ok? && ActsOn(jobs, j, i, w.s, c)
    ensures LineMet(jobs[j], i, w.s, w'.s)
  {
    hide WorldInv, JobsOk, Sound, Need, FreeAt, Step, Exec, Fresh, Finish;
    SoundOf(locs, jobs, w);
    FinishCompletes(w.s, m, x);
    FinishExec(w.s, m, x);
    FinishActs(jobs, j, i, w.s, m, x);
    NeedIs(locs, jobs, w, j, i, m);
    NameKept(w.s, FinishCmd(m, Never, x, []), m);
    NeedIs(locs, jobs, w', j, i, m);
    HeldWithin(locs, jobs, w, m);
    MovedCanLand(locs, jobs, w', j, i, m);
  }

  lemma FinishActs(jobs: seq<Job>, j: nat, i: nat, s: Estate, m: Id, x: Id)
    requires Leg(jobs, j, i) && NamedMove(s.moves, m, MoveOf(jobs, j, i).name) && Fresh(s.moves, x)
    ensures ActsOn(jobs, j, i, s, FinishCmd(m, Never, x, []))
  {
  }

  // ---- every turn brings the door onward ------------------------------------------------------------

  /** What being able means at a line. */
  lemma LineAble(d: Door, i: nat)
    requires Able(d) && Sized(d) && Leg(d.jobs, d.j, i)
    ensures WorldInv(d.locs, d.jobs, d.w) && JobsOk(d.locs, d.jobs) && Positive(d.jobs[d.j])
      && Covered(d.w.s, d.jobs[d.j])
    ensures CanLand(d.w.s, MoveOf(d.jobs, d.j, i)) && MoveOf(d.jobs, d.j, i).demand > 0.0
  {
    hide WorldInv, JobsOk, Covered, CanLand, OnItsWay;
  }

  /** Where the call stands, the lines before have landed, and a driven move is its line's. */
  lemma StandsWell(d: Door)
    requires Able(d) && Sized(d)
    ensures OnItsWay(d.w.s, d.jobs[d.j], Standing(d))
    ensures var call := Standing(d);
      && (call.AtLine? ==> LandedTo(d.w.s.moves, d.jobs[d.j], call.line))
      && (call.Recording? ==> call.line < |d.jobs[d.j].lines|)
      && (call.Drive? || call.Finishing? ==>
            && LandedTo(d.w.s.moves, d.jobs[d.j], call.line) && Leg(d.jobs, d.j, call.line)
            && NamedMove(d.w.s.moves, call.mv, MoveOf(d.jobs, d.j, call.line).name))
  {
    assert DoorInv(d.w.s, d.jobs, d.j, d.w.calls[d.j], d.w.closed[d.j], d.w.recorded[d.j]);
    hide Sound, JobsOk, Fit, Landed, ShipsFor;
  }

  lemma LineTurn(d: Door, e: Event, i: nat)
    requires Able(d) && Sized(d) && Turn(d, e) && Standing(d) == AtLine(i)
    ensures Onward(d, Stepped(d, e))
  {
    StandsWell(d);
    hide Able, WorldInv, JobsOk, CanLand, Positive, Covered, Fresh, Landed, Onward, Further, StepWorld, NextCall, CmdOf,
      Drivable, MoveNamed, EventOk, Closes;
    var job, s := d.jobs[d.j], d.w.s;
    if i == |job.lines| {
      HeaderHolds(d);
      OffTheEnd(s, job, e);
      StillOnward(d, e);
    } else if job.lines[i].None? {
      SkipsFurther(s, job, i, e);
      StillOnward(d, e);
    } else {
      assert Leg(d.jobs, d.j, i);
      var nm := MoveOf(d.jobs, d.j, i);
      LineAble(d, i);
      if exists m :: NamedMove(s.moves, m, nm.name) {
        var m :| NamedMove(s.moves, m, nm.name);
        TheOneMove(d.locs, d.jobs, d.w, d.j, i, m);
        ResumesFurther(s, job, i, e, m);
        StillOnward(d, e);
      } else {
        OpensLine(d, e, i);
      }
    }
  }

  /** The header takes what a door with every line landed carried. */
  lemma HeaderHolds(d: Door)
    requires Able(d) && Sized(d) && Standing(d) == AtLine(|d.jobs[d.j].lines|)
    requires LandedTo(d.w.s.moves, d.jobs[d.j], |d.jobs[d.j].lines|)
    ensures Closes(d.w.s, d.jobs[d.j], Standing(d))
  {
    hide WorldInv, JobsOk, LandedTo, OnItsWay, Covered, AllCanLand, CarriedTo;
    NothingToCome(d.w.s, d.jobs[d.j]);
  }

  lemma OffTheEnd(s: Estate, job: Job, e: Event)
    requires e.Advance?
    ensures CmdOf(s, job, AtLine(|job.lines|), e.unseen, e.cands).None?
  {
  }

  lemma SkipsFurther(s: Estate, job: Job, i: nat, e: Event)
    requires i < |job.lines| && job.lines[i].None? && e.Advance?
    ensures CmdOf(s, job, AtLine(i), e.unseen, e.cands).None?
    ensures Further(s, s, job, AtLine(i), NextCall(s, job, AtLine(i), e.unseen, Ok(s)))
  {
  }

  lemma ResumesFurther(s: Estate, job: Job, i: nat, e: Event, m: Id)
    requires i < |job.lines| && job.lines[i].Some? && NamedMove(s.moves, m, job.lines[i].value.name) && e.Advance?
    requires MoveNamed(s.moves, job.lines[i].value.name) == Some(m) && CanLand(s, job.lines[i].value)
    ensures CmdOf(s, job, AtLine(i), e.unseen, e.cands).None?
    ensures Further(s, s, job, AtLine(i), NextCall(s, job, AtLine(i), e.unseen, Ok(s)))
  {
    hide MoveNamed, MoveQty;
  }

  lemma OpensLine(d: Door, e: Event, i: nat)
    requires Able(d) && Sized(d) && Turn(d, e) && Standing(d) == AtLine(i) && Leg(d.jobs, d.j, i)
    requires forall m :: !NamedMove(d.w.s.moves, m, MoveOf(d.jobs, d.j, i).name)
    requires LandedTo(d.w.s.moves, d.jobs[d.j], i)
    ensures Onward(d, Stepped(d, e))
  {
    TurnDraws(d, e);
    LineAble(d, i);
    hide Able, WorldInv, JobsOk, CanLand, StepWorld, Step, Exec, ActsOn, LineMet, Further, Onward, CmdOf,
      NextCall, Fresh,
      Turn, Offered, Finishes, LandedTo, Positive, Covered;
    var nm, s := MoveOf(d.jobs, d.j, i), d.w.s;
    var c := CreateCmd(e.unseen, nm);
    CreateNext(s, d.jobs[d.j], i, e);
    VerbWorld(d, e, c);
    CreateMet(d.locs, d.jobs, d.w, Stepped(d, e).w, d.j, i, e.unseen);
    CreateFurther(s, d.jobs[d.j], i, e);
    VerbOnward(d, e, i, c);
  }

  lemma CreateNext(s: Estate, job: Job, i: nat, e: Event)
    requires i < |job.lines| && job.lines[i].Some? && forall m :: !NamedMove(s.moves, m, job.lines[i].value.name)
    requires e.Advance?
    ensures CmdOf(s, job, AtLine(i), e.unseen, e.cands) == Some(CreateCmd(e.unseen, job.lines[i].value))
    ensures forall done: Outcome<Estate> ::
      done.Ok? ==> NextCall(s, job, AtLine(i), e.unseen, done) == Drive(i, e.unseen)
  {
  }

  lemma CreateFurther(s: Estate, job: Job, i: nat, e: Event)
    requires i < |job.lines| && job.lines[i].Some? && forall m :: !NamedMove(s.moves, m, job.lines[i].value.name)
    requires e.Advance?
    requires var c := CreateCmd(e.unseen, job.lines[i].value); var moves := Step(s, c).moves;
      Exec(s, c).Ok? && e.unseen in moves && moves[e.unseen].state == Draft
    ensures var c := CreateCmd(e.unseen, job.lines[i].value);
      Further(s, Step(s, c), job, AtLine(i), NextCall(s, job, AtLine(i), e.unseen, Exec(s, c)))
  {
    CreateNext(s, job, i, e);
    hide Step, Exec, NextCall;
  }

  lemma DriveTurn(d: Door, e: Event, i: nat, m: Id)
    requires Able(d) && Sized(d) && Turn(d, e) && Standing(d) == Drive(i, m)
    ensures Onward(d, Stepped(d, e))
  {
    StandsWell(d);
    TurnDraws(d, e);
    hide Able, WorldInv, Fresh, MoveOf, Onward, Further, Offered, CmdOf, NextCall, Leg, MoveQty, Turn, LandedTo;
    var s, job := d.w.s, d.jobs[d.j];
    if s.moves[m].state == Assigned {
      AssignedFurther(s, job, i, m, e);
      StillOnward(d, e);
    } else if s.moves[m].state == Draft {
      ConfirmsOnward(d, e, i, m);
    } else {
      AssignsOnward(d, e, i, m);
    }
  }

  lemma AssignedFurther(s: Estate, job: Job, i: nat, m: Id, e: Event)
    requires m in s.moves && s.moves[m].state == Assigned && Drivable(s, m) && e.Advance?
    ensures CmdOf(s, job, Drive(i, m), e.unseen, e.cands).None?
    ensures Further(s, s, job, Drive(i, m), NextCall(s, job, Drive(i, m), e.unseen, Ok(s)))
  {
    hide MoveQty;
  }

  lemma ConfirmsOnward(d: Door, e: Event, i: nat, m: Id)
    requires Able(d) && Sized(d) && Turn(d, e) && Standing(d) == Drive(i, m) && Leg(d.jobs, d.j, i) && e.Advance?
    requires NamedMove(d.w.s.moves, m, MoveOf(d.jobs, d.j, i).name) && d.w.s.moves[m].state == Draft
    requires LandedTo(d.w.s.moves, d.jobs[d.j], i)
    ensures Onward(d, Stepped(d, e))
  {
    var c, job := ConfirmCmd(m), d.jobs[d.j];
    LineAble(d, i);
    hide Able, WorldInv, JobsOk, CanLand, StepWorld, Step, Exec, ActsOn, LineMet, Further, Onward, CmdOf,
      NextCall, Fresh,
      Turn, Offered, Finishes, LandedTo, Positive, Covered;
    ConfirmNext(d.w.s, job, i, m, e);
    VerbWorld(d, e, c);
    ConfirmMet(d.locs, d.jobs, d.w, Stepped(d, e).w, d.j, i, m);
    ConfirmFurther(d.w.s, job, i, m, e);
    VerbOnward(d, e, i, c);
  }

  lemma ConfirmNext(s: Estate, job: Job, i: nat, m: Id, e: Event)
    requires m in s.moves && s.moves[m].state == Draft && e.Advance?
    ensures CmdOf(s, job, Drive(i, m), e.unseen, e.cands) == Some(ConfirmCmd(m))
    ensures forall done: Outcome<Estate> :: done.Ok? ==> NextCall(s, job, Drive(i, m), e.unseen, done) == Drive(i, m)
  {
  }

  lemma ConfirmFurther(s: Estate, job: Job, i: nat, m: Id, e: Event)
    requires m in s.moves && s.moves[m].state == Draft && e.Advance?
    requires var c := ConfirmCmd(m); var moves := Step(s, c).moves;
      Exec(s, c).Ok? && m in moves && moves[m].state == Confirmed
    ensures var c := ConfirmCmd(m);
      Further(s, Step(s, c), job, Drive(i, m), NextCall(s, job, Drive(i, m), e.unseen, Exec(s, c)))
  {
    ConfirmNext(s, job, i, m, e);
    hide Step, Exec, NextCall;
  }

  lemma AssignsOnward(d: Door, e: Event, i: nat, m: Id)
    requires Able(d) && Sized(d) && Turn(d, e) && Standing(d) == Drive(i, m) && Leg(d.jobs, d.j, i)
    requires NamedMove(d.w.s.moves, m, MoveOf(d.jobs, d.j, i).name) && LandedTo(d.w.s.moves, d.jobs[d.j], i)
    requires d.w.s.moves[m].state == Confirmed || d.w.s.moves[m].state == PartiallyAvailable
    ensures Onward(d, Stepped(d, e))
  {
    TurnDraws(d, e);
    LineAble(d, i);
    OfferIs(d.w.s, i, m, e.cands);
    hide Able, WorldInv, JobsOk, CanLand, StepWorld, Step, Exec, ActsOn, LineMet, Further, Onward, CmdOf,
      NextCall, Fresh,
      Turn, Offered, Finishes, LandedTo, Positive, Covered, MoveQty, Complete;
    var c, job := AssignCmd(m, e.cands), d.jobs[d.j];
    AssignNext(d.w.s, job, i, m, e);
    VerbWorld(d, e, c);
    AssignMet(d.locs, d.jobs, d.w, Stepped(d, e).w, d.j, i, m, e.cands);
    AssignFurther(d.w.s, job, i, m, e);
    VerbOnward(d, e, i, c);
  }

  lemma OfferIs(s: Estate, i: nat, m: Id, cands: seq<Dims>)
    requires Offered(s, Drive(i, m), cands) && m in s.moves
    ensures Complete(s.quants, s.moves[m].item, s.moves[m].src, cands)
  {
    hide Complete;
  }

  lemma AssignNext(s: Estate, job: Job, i: nat, m: Id, e: Event)
    requires m in s.moves && (s.moves[m].state == Confirmed || s.moves[m].state == PartiallyAvailable) && e.Advance?
    ensures CmdOf(s, job, Drive(i, m), e.unseen, e.cands) == Some(AssignCmd(m, e.cands))
    ensures forall done: Outcome<Estate> ::
      done.Ok? && m in done.value.moves && done.value.moves[m].state == Assigned ==>
        NextCall(s, job, Drive(i, m), e.unseen, done) == Finishing(i, m)
  {
  }

  lemma AssignFurther(s: Estate, job: Job, i: nat, m: Id, e: Event)
    requires m in s.moves && (s.moves[m].state == Confirmed || s.moves[m].state == PartiallyAvailable) && e.Advance?
    requires var c := AssignCmd(m, e.cands); var s' := Step(s, c);
      Exec(s, c).Ok? && m in s'.moves && s'.moves[m].state == Assigned && MoveQty(s'.lines, m) > 0.0
    ensures var c := AssignCmd(m, e.cands);
      Further(s, Step(s, c), job, Drive(i, m), NextCall(s, job, Drive(i, m), e.unseen, Exec(s, c)))
  {
    AssignNext(s, job, i, m, e);
    StepOk(s, AssignCmd(m, e.cands));
    hide Step, Exec, NextCall, MoveQty;
  }

  lemma StepOk(s: Estate, c: Cmd)
    requires Exec(s, c).Ok?
    ensures Step(s, c) == Exec(s, c).value
  {
    hide Exec;
  }

  lemma FinishTurn(d: Door, e: Event, i: nat, m: Id)
    requires Able(d) && Sized(d) && Turn(d, e) && Standing(d) == Finishing(i, m)
    ensures Onward(d, Stepped(d, e))
  {
    StandsWell(d);
    TurnDraws(d, e);
    LineAble(d, i);
    hide Able, WorldInv, JobsOk, CanLand, StepWorld, Step, Exec, ActsOn, LineMet, Further, Onward, CmdOf,
      NextCall, Fresh,
      Turn, Offered, Finishes, LandedTo, Positive, Covered, MoveQty, Worth;
    var c, job := FinishCmd(m, Never, e.unseen, []), d.jobs[d.j];
    FinishNext(d.w.s, job, i, m, e);
    VerbWorld(d, e, c);
    FinishMet(d.locs, d.jobs, d.w, Stepped(d, e).w, d.j, i, m, e.unseen);
    FinishesBy(d.w.s, c);
    if job.records ==> Worth(d.w.s, m) >= 0.0 { FinishFurther(d.w.s, job, i, m, e); }
    VerbOnward(d, e, i, c);
  }

  lemma FinishesBy(s: Estate, c: Cmd)
    requires c.FinishCmd? && Exec(s, c).Ok?
    ensures Finishes(s, c)
  {
    hide Exec;
  }

  lemma FinishNext(s: Estate, job: Job, i: nat, m: Id, e: Event)
    requires e.Advance?
    ensures CmdOf(s, job, Finishing(i, m), e.unseen, e.cands) == Some(FinishCmd(m, Never, e.unseen, []))
  {
  }

  lemma FinishFurther(s: Estate, job: Job, i: nat, m: Id, e: Event)
    requires e.Advance? && m in s.moves && Exec(s, FinishCmd(m, Never, e.unseen, [])).Ok?
    requires job.records ==> Worth(s, m) >= 0.0
    ensures var c := FinishCmd(m, Never, e.unseen, []);
      Further(s, Step(s, c), job, Finishing(i, m), NextCall(s, job, Finishing(i, m), e.unseen, Exec(s, c)))
  {
    hide Step, Exec, Worth;
  }

  lemma RecordTurn(d: Door, e: Event)
    requires Able(d) && Sized(d) && Turn(d, e) && Standing(d).Recording?
    ensures Onward(d, Stepped(d, e))
  {
    StandsWell(d);
    hide Able, WorldInv, JobsOk, StepWorld, EventOk, LandedTo, Onward;
    StillOnward(d, e);
  }

  lemma BeginTurn(d: Door, e: Event)
    requires Able(d) && Sized(d) && Turn(d, e) && Standing(d) == Idle
    ensures Onward(d, Stepped(d, e))
  {
    EventKeepsWorld(d.locs, d.jobs, d.w, e);
    hide WorldInv, JobsOk, Fit, Admits;
  }

  /** Every turn of an able door closes its voucher or leaves it able, and nearer. */
  lemma TurnsOnward(d: Door, e: Event)
    requires Able(d) && Sized(d) && Turn(d, e)
    ensures Onward(d, Stepped(d, e))
  {
    StandsWell(d);
    hide Able, Onward, Turn, MoveQty, Drivable, Fresh, LandedTo, StepWorld;
    match Standing(d)
    case Idle => BeginTurn(d, e);
    case AtLine(i) => LineTurn(d, e, i);
    case Drive(i, m) => DriveTurn(d, e, i, m);
    case Finishing(i, m) => FinishTurn(d, e, i, m);
    case Recording(_, _, _) => RecordTurn(d, e);
  }

  // ---- the whole way -----------------------------------------------------------------------------

  lemma FuelLeft(d: Door)
    requires Able(d) && Sized(d)
    ensures Fuel(d.w.s, d.jobs[d.j], Standing(d)) > 0
  {
    StandsWell(d);
    hide Able, WorldInv, Landed;
  }

  lemma {:induction false} ClosedForGood(d: Door, es: seq<Event>)
    requires Sized(d) && d.j < |d.jobs| && d.w.closed[d.j]
    ensures RunOn(d.jobs, d.w, es).closed[d.j]
    decreases |es|
  {
    hide StepWorld;
    if es != [] {
      StaysClosed(d.jobs, d.w, es[0]);
      ClosedForGood(Stepped(d, es[0]), es[1..]);
    }
  }

  /** Every undisturbed sequence of as many steps closes the voucher of an able door. */
  lemma {:induction false} AbleCloses(d: Door, es: seq<Event>)
    requires Able(d) && Sized(d) && Undisturbed(d, es) && |es| >= Fuel(d.w.s, d.jobs[d.j], Standing(d))
    ensures RunOn(d.jobs, d.w, es).closed[d.j]
    decreases |es|
  {
    FuelLeft(d);
    hide Able, Turn, Fuel, StepWorld;
    TurnsOnward(d, es[0]);
    if Stepped(d, es[0]).w.closed[d.j] {
      ClosedForGood(Stepped(d, es[0]), es[1..]);
    } else {
      AbleCloses(Stepped(d, es[0]), es[1..]);
    }
  }

  // ---- a turn is always there to take --------------------------------------------------------------

  lemma {:induction false} Above(xs: set<nat>) returns (b: nat)
    ensures forall x :: x in xs ==> x < b
    decreases |xs|
  {
    b := 0;
    if xs != {} {
      var x :| x in xs;
      var c := Above(xs - {x});
      b := c + x + 1;
      forall y | y in xs ensures y < b { if y != x { assert y in xs - {x}; } }
    }
  }

  lemma SomeFresh(moves: map<Id, Move>) returns (x: Id)
    ensures Fresh(moves, x)
  {
    var parents := set m, p | m in moves && p in moves[m].orig :: p;
    x := Above(moves.Keys + parents);
    forall m | m in moves ensures x !in moves[m].orig {
      forall p | p in moves[m].orig ensures p < x { assert p in parents; }
    }
  }

  lemma {:induction false} Listed(ds: set<Dims>) returns (xs: seq<Dims>)
    ensures forall d :: d in xs <==> d in ds
    decreases |ds|
  {
    xs := [];
    if ds != {} {
      var d :| d in ds;
      var rest := Listed(ds - {d});
      xs := [d] + rest;
    }
  }

  lemma SomeOffer(quants: map<Dims, Quant>, item: Item, loc: Loc) returns (cands: seq<Dims>)
    ensures Complete(quants, item, loc, cands)
  {
    cands := Listed(set d | d in quants && OnShelf(d, item, loc));
  }

  lemma SomeTurn(d: Door) returns (e: Event)
    requires WorldInv(d.locs, d.jobs, d.w) && JobsOk(d.locs, d.jobs) && Sized(d) && d.j < |d.jobs|
    ensures Turn(d, e)
  {
    hide WorldInv, JobsOk, Fresh, Complete;
    var call, moves := Standing(d), d.w.s.moves;
    if call == Idle {
      e := Begin(d.j, true);
    } else {
      var x := SomeFresh(moves);
      var cands := [];
      if call.Drive? && call.mv in moves { cands := SomeOffer(d.w.s.quants, moves[call.mv].item, moves[call.mv].src); }
      OffersFit(d, cands);
      AdvanceIsLegal(d.locs, d.jobs, d.w, d.j, x, cands);
      e := Advance(d.j, x, cands);
    }
  }

  lemma OffersFit(d: Door, cands: seq<Dims>)
    requires Sized(d) && d.j < |d.jobs| && Offered(d.w.s, Standing(d), cands)
    ensures Standing(d).Drive? && Standing(d).mv in d.w.s.moves ==>
      CandidatesOf(cands, d.w.s.moves[Standing(d).mv].item, d.w.s.moves[Standing(d).mv].src)
  {
  }

  /** Left alone a door has undisturbed sequences of steps of every length. */
  lemma {:induction false} SomeWalk(d: Door, n: nat) returns (es: seq<Event>)
    requires WorldInv(d.locs, d.jobs, d.w) && JobsOk(d.locs, d.jobs) && Sized(d) && d.j < |d.jobs|
    ensures |es| == n && Undisturbed(d, es)
    decreases n
  {
    hide WorldInv, JobsOk, Turn, StepWorld;
    es := [];
    if n > 0 {
      var e := SomeTurn(d);
      TurnIsLegal(d, e);
      EventKeepsWorld(d.locs, d.jobs, d.w, e);
      var rest := SomeWalk(Stepped(d, e), n - 1);
      es := [e] + rest;
      assert es[0] == e && es[1..] == rest;
    }
  }

  lemma TurnIsLegal(d: Door, e: Event)
    requires Sized(d) && d.j < |d.jobs| && Turn(d, e)
    ensures EventOk(d.jobs, d.w, e) && (e.Advance? || e.Begin?) && e.door == d.j
  {
    hide EventOk;
  }

  lemma {:induction false} UndisturbedReaches(d: Door, es: seq<Event>)
    requires Sized(d) && d.j < |d.jobs| && Undisturbed(d, es)
    ensures Reaches(d.jobs, d.w, es, d.j)
    decreases |es|
  {
    hide EventOk, StepWorld, Turn;
    if es != [] {
      TurnIsLegal(d, es[0]);
      UndisturbedReaches(Stepped(d, es[0]), es[1..]);
      assert es == [es[0]] + es[1..];
    }
  }
}
