/** Runs of any number of voucher doors, interrupted and retried at will, among any other activity:
    what a closed voucher has moved, exactly once, and what a reversal takes back. */
module DoorRuns {
  import opened StockTypes
  import opened Engine
  import opened Invariants
  import opened Runs
  import opened Doors
  import opened DoorSoundness

  // ---- steps of the world ----------------------------------------------------------------

  /** A command that respects every line keeps every line and every door that does not move. */
  lemma CmdKeepsOthers(locs: map<Loc, Location>, jobs: seq<Job>, w: World, c: Cmd)
    requires WorldInv(locs, jobs, w) && Contract(w.s, c)
    requires forall j: nat, i: nat {:trigger Leg(jobs, j, i)} ::
      Leg(jobs, j, i) ==> LineInv(Step(w.s, c), MoveOf(jobs, j, i))
    ensures WorldInv(locs, jobs, w.(s := Step(w.s, c)))
  {
    hide Sound, Step, DoorInv, LineInv;
    StepSound(w.s, c, false);
    StepKeepsLocs(w.s, c);
    forall j | 0 <= j < |jobs| ensures DoorInv(Step(w.s, c), jobs, j, w.calls[j], w.closed[j], w.recorded[j]) {
      StepKeepsDoor(w.s, c, jobs, j, w.calls[j], w.closed[j], w.recorded[j]);
    }
  }

  lemma OtherKeepsWorld(locs: map<Loc, Location>, jobs: seq<Job>, w: World, c: Cmd)
    requires WorldInv(locs, jobs, w) && JobsOk(locs, jobs) && EventOk(jobs, w, Other(c))
    ensures WorldInv(locs, jobs, StepWorld(jobs, w, Other(c)))
  {
    hide WorldInv, Step, LineInv, JobsOk;
    forall j: nat, i: nat {:trigger Leg(jobs, j, i)} | Leg(jobs, j, i)
      ensures LineInv(Step(w.s, c), MoveOf(jobs, j, i)) {
      OtherKeepsLine(locs, jobs, w, c, j, i);
    }
    CmdKeepsOthers(locs, jobs, w, c);
  }

  /** Moving one door's own entries keeps the world when that door's invariant holds of them. */
  lemma DoorKeepsWorld(locs: map<Loc, Location>, jobs: seq<Job>, w: World, j: nat, call: Call, closed: bool,
      recorded: map<nat, real>)
    requires WorldInv(locs, jobs, w) && j < |jobs| && DoorInv(w.s, jobs, j, call, closed, recorded)
    ensures WorldInv(locs, jobs, World(w.s, w.calls[j := call], w.closed[j := closed], w.recorded[j := recorded]))
  {
    hide Sound, DoorInv, LineInv;
  }

  lemma IdleKeepsDoor(s: Estate, jobs: seq<Job>, j: nat, call: Call, closed: bool, recorded: map<nat, real>, next: Call)
    requires j < |jobs| && DoorInv(s, jobs, j, call, closed, recorded) && (next == Idle || next == AtLine(0))
    ensures DoorInv(s, jobs, j, next, closed, recorded)
  {
  }

  lemma AdvanceKeepsDoor(jobs: seq<Job>, w: World, j: nat, unseen: Id, cands: seq<Dims>, s': Estate)
    requires |w.calls| == |w.closed| == |w.recorded| == |jobs| && j < |jobs| && Sound(w.s, false)
    requires DoorInv(w.s, jobs, j, w.calls[j], w.closed[j], w.recorded[j])
    requires DoorInv(s', jobs, j, w.calls[j], w.closed[j], w.recorded[j])
    requires EventOk(jobs, w, Advance(j, unseen, cands)) && s' == StepWorld(jobs, w, Advance(j, unseen, cands)).s
    ensures var w' := StepWorld(jobs, w, Advance(j, unseen, cands));
      DoorInv(s', jobs, j, w'.calls[j], w'.closed[j], w'.recorded[j])
  {
    hide Sound, Step, Exec, ShipsFor, Landed;
    var cmd := CmdOf(w.s, jobs[j], w.calls[j], unseen, cands);
    var done := if cmd.Some? then Exec(w.s, cmd.value) else Ok(w.s);
    OwnCall(w.s, jobs[j], w.calls[j], unseen, cands, cmd, done, s');
  }

  lemma AdvanceKeepsWorld(locs: map<Loc, Location>, jobs: seq<Job>, w: World, j: nat, unseen: Id, cands: seq<Dims>)
    requires WorldInv(locs, jobs, w) && JobsOk(locs, jobs) && EventOk(jobs, w, Advance(j, unseen, cands)) && j < |jobs|
    ensures WorldInv(locs, jobs, StepWorld(jobs, w, Advance(j, unseen, cands)))
  {
    var cmd := CmdOf(w.s, jobs[j], w.calls[j], unseen, cands);
    var w' := StepWorld(jobs, w, Advance(j, unseen, cands));
    assert DoorInv(w.s, jobs, j, w.calls[j], w.closed[j], w.recorded[j]);
    hide Sound, Step, Exec, LineInv, JobsOk, DoorInv, NextCall, Contract;
    if cmd.Some? {
      forall a: nat, b: nat {:trigger Leg(jobs, a, b)} | Leg(jobs, a, b)
        ensures LineInv(Step(w.s, cmd.value), MoveOf(jobs, a, b)) {
        OwnCmdKeepsLine(locs, jobs, w, j, unseen, cands, cmd.value, a, b);
      }
      CmdKeepsOthers(locs, jobs, w, cmd.value);
    }
    var moved := w.(s := w'.s);
    assert WorldInv(locs, jobs, moved) by { assert cmd.None? ==> moved == w; }
    AdvanceKeepsDoor(jobs, w, j, unseen, cands, w'.s);
    DoorKeepsWorld(locs, jobs, moved, j, w'.calls[j], w'.closed[j], w'.recorded[j]);
    assert w' == World(w'.s, w.calls[j := w'.calls[j]], w.closed[j := w'.closed[j]], w.recorded[j := w'.recorded[j]]);
  }

  lemma EventKeepsWorld(locs: map<Loc, Location>, jobs: seq<Job>, w: World, e: Event)
    requires WorldInv(locs, jobs, w) && JobsOk(locs, jobs) && EventOk(jobs, w, e)
    ensures WorldInv(locs, jobs, StepWorld(jobs, w, e))
  {
    match e
    case Other(c) => OtherKeepsWorld(locs, jobs, w, c);
    case Advance(j, unseen, cands) => if j < |jobs| { AdvanceKeepsWorld(locs, jobs, w, j, unseen, cands); }
    case Begin(j, _) => Reset(locs, jobs, w, j, AtLine(0));
    case Crash(j) => Reset(locs, jobs, w, j, Idle);
  }

  lemma Reset(locs: map<Loc, Location>, jobs: seq<Job>, w: World, j: nat, call: Call)
    requires WorldInv(locs, jobs, w) && (call == Idle || call == AtLine(0))
    ensures j < |jobs| ==> WorldInv(locs, jobs, w.(calls := w.calls[j := call]))
  {
    hide Sound, DoorInv, LineInv;
    if j < |jobs| {
      IdleKeepsDoor(w.s, jobs, j, w.calls[j], w.closed[j], w.recorded[j], call);
      DoorKeepsWorld(locs, jobs, w, j, call, w.closed[j], w.recorded[j]);
      assert w.closed[j := w.closed[j]] == w.closed && w.recorded[j := w.recorded[j]] == w.recorded;
    }
  }

  lemma NewWorldOk(locs: map<Loc, Location>, jobs: seq<Job>)
    ensures WorldInv(locs, jobs, NewWorld(locs, jobs))
  {
    EmptySound(locs, false);
  }

  /** Over every run of doors, crashes, retries and other activity. */
  lemma {:induction false} EveryWorldIsSound(locs: map<Loc, Location>, jobs: seq<Job>, es: seq<Event>)
    requires JobsOk(locs, jobs) && LegalEvents(locs, jobs, es)
    ensures WorldInv(locs, jobs, RunWorld(locs, jobs, es))
  {
    NewWorldOk(locs, jobs);
    hide WorldInv, StepWorld, EventOk;
    if es != [] {
      var n := |es| - 1;
      EveryWorldIsSound(locs, jobs, es[..n]);
      EventKeepsWorld(locs, jobs, RunWorld(locs, jobs, es[..n]), es[n]);
    }
  }
}
