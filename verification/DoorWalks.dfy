/** Stretches of a run: sequences of events from a given world, those of one door moving alone, and
    what a door's next verb does. */
module DoorWalks {
  import opened Common
  import opened StockTypes
  import opened Valuation
  import opened Reservation
  import opened Engine
  import opened Invariants
  import opened Soundness
  import opened Runs
  import opened Frames
  import opened Doors
  import opened DoorSoundness
  import opened DoorRuns

  // ---- runs from a given world -------------------------------------------------------------

  ghost function RunOn(jobs: seq<Job>, w: World, es: seq<Event>): (w': World)
    requires |w.calls| == |w.closed| == |w.recorded| == |jobs|
    ensures |w'.calls| == |w'.closed| == |w'.recorded| == |jobs|
    decreases |es|
  {
    if es == [] then w else RunOn(jobs, StepWorld(jobs, w, es[0]), es[1..])
  }

  ghost predicate LegalOn(jobs: seq<Job>, w: World, es: seq<Event>)
    requires |w.calls| == |w.closed| == |w.recorded| == |jobs|
    decreases |es|
  {
    es == [] || (EventOk(jobs, w, es[0]) && LegalOn(jobs, StepWorld(jobs, w, es[0]), es[1..]))
  }

  /** Only door `j` acts: it calls, and its call steps. */
  predicate AllBy(es: seq<Event>, j: nat) { forall e :: e in es ==> (e.Advance? || e.Begin?) && e.door == j }

  ghost predicate Reaches(jobs: seq<Job>, w: World, es: seq<Event>, j: nat)
    requires |w.calls| == |w.closed| == |w.recorded| == |jobs|
  {
    LegalOn(jobs, w, es) && AllBy(es, j)
  }

  lemma {:induction false} RunOnConcat(jobs: seq<Job>, w: World, a: seq<Event>, b: seq<Event>)
    requires |w.calls| == |w.closed| == |w.recorded| == |jobs|
    ensures RunOn(jobs, w, a + b) == RunOn(jobs, RunOn(jobs, w, a), b)
    ensures LegalOn(jobs, w, a + b) <==> LegalOn(jobs, w, a) && LegalOn(jobs, RunOn(jobs, w, a), b)
    decreases |a|
  {
    hide StepWorld, EventOk;
    if a == [] {
      assert a + b == b;
    } else {
      RunOnConcat(jobs, StepWorld(jobs, w, a[0]), a[1..], b);
      assert (a + b)[1..] == a[1..] + b && (a + b)[0] == a[0];
    }
  }

  lemma RunOnOne(jobs: seq<Job>, w: World, e: Event)
    requires |w.calls| == |w.closed| == |w.recorded| == |jobs|
    ensures RunOn(jobs, w, [e]) == StepWorld(jobs, w, e) && (LegalOn(jobs, w, [e]) <==> EventOk(jobs, w, e))
  {
    hide StepWorld, EventOk;
    assert [e][1..] == [] && [e][0] == e;
  }

  // ---- ids ---------------------------------------------------------------------------------

  /** The verbs a door issues: each makes at most the move it names. */
  predicate DoorCmd(c: Cmd) {
    match c
    case CreateCmd(_, m) => m.orig == []
    case FinishCmd(_, policy, _, cands) => policy == Never && cands == []
    case _ => c.ConfirmCmd? || c.AssignCmd? || c.UnreserveCmd?
  }

  predicate Makes(c: Cmd, id: Id) { c.CreateCmd? && c.id == id }

  lemma DoorKeys(s: Estate, c: Cmd)
    requires DoorCmd(c)
    ensures forall m :: m in Step(s, c).moves ==> m in s.moves || Makes(c, m)
  {
    if c.FinishCmd? && Exec(s, c).Ok? {
      FinishOfExec(s, c);
      NeverKeys(s, c.id, c.child);
      hide Finish;
    }
  }

  lemma NeverKeys(s: Estate, id: Id, child: Id)
    requires Finish(s, id, Never, child, []).Ok?
    ensures Finish(s, id, Never, child, []).value.moves.Keys == s.moves.Keys
  {
    hide Mint, DrawAll, Recompute;
  }

  /** An id not yet drawn stays undrawn until a door draws it. */
  lemma DoorKeepsFresh(s: Estate, c: Cmd, x: Id)
    requires DoorCmd(c) && Contract(s, c) && Fresh(s.moves, x) && !Makes(c, x)
    ensures Fresh(Step(s, c).moves, x)
  {
    DoorKeys(s, c);
    StepKeeps(s, c);
    hide Step;
    var after := Step(s, c).moves;
    forall m | m in after ensures x !in after[m].orig {
      if m in s.moves {
        assert KeptBy(s, after, FinishedBy(c), m);
      } else {
        assert NewBy(after, CreatedBy(c), m);
        NotABackorder(s, c, m);
      }
    }
  }

  lemma NotABackorder(s: Estate, c: Cmd, m: Id)
    requires DoorCmd(c) && Contract(s, c) && m in Step(s, c).moves && m !in s.moves
    ensures Step(s, c).moves[m].orig == []
  {
    DoorKeys(s, c);
  }

  // ---- a door left alone ---------------------------------------------------------------

  /** The step of door `j` at undrawn id `x`, its assign offered the candidates `cands`. */
  lemma AdvanceIsLegal(locs: map<Loc, Location>, jobs: seq<Job>, w: World, j: nat, x: Id, cands: seq<Dims>)
    requires WorldInv(locs, jobs, w) && JobsOk(locs, jobs) && j < |jobs| && Fresh(w.s.moves, x)
    requires w.calls[j].Drive? && w.calls[j].mv in w.s.moves ==>
               CandidatesOf(cands, w.s.moves[w.calls[j].mv].item, w.s.moves[w.calls[j].mv].src)
    ensures EventOk(jobs, w, Advance(j, x, cands)) && WorldInv(locs, jobs, StepWorld(jobs, w, Advance(j, x, cands)))
  {
    var cmd := CmdOf(w.s, jobs[j], w.calls[j], x, cands);
    if cmd.Some? && cmd.value.CreateCmd? { assert Leg(jobs, j, w.calls[j].line); }
    assert EventOk(jobs, w, Advance(j, x, cands)) by { hide Fresh; ContractOf(w.s, cmd, x, cands); }
    hide WorldInv, JobsOk, EventOk, StepWorld;
    EventKeepsWorld(locs, jobs, w, Advance(j, x, cands));
  }

  lemma ContractOf(s: Estate, cmd: Option<Cmd>, x: Id, cands: seq<Dims>)
    requires Fresh(s.moves, x)
    requires cmd.Some? ==> match cmd.value
                           case CreateCmd(id, m) => id == x && m.orig == []
                           case AssignCmd(id, cs) => cs == cands
                             && (id in s.moves ==> CandidatesOf(cands, s.moves[id].item, s.moves[id].src))
                           case FinishCmd(_, _, child, cs) => child == x && cs == []
                           case ConfirmCmd(_) => true
                           case UnreserveCmd(_) => true
                           case _ => false
    ensures cmd.Some? ==> Contract(s, cmd.value)
  {
  }

  /** What one door sees of the world. */
  datatype Place = Place(s: Estate, call: Call, closed: bool, recorded: map<nat, real>)

  function PlaceOf(w: World, j: nat): Place
    requires j < |w.calls| == |w.closed| == |w.recorded|
  {
    Place(w.s, w.calls[j], w.closed[j], w.recorded[j])
  }

  ghost function NextPlace(job: Job, p: Place, x: Id, cands: seq<Dims>): Place {
    var cmd := CmdOf(p.s, job, p.call, x, cands);
    Place(if cmd.Some? then Step(p.s, cmd.value) else p.s,
          NextCall(p.s, job, p.call, x, if cmd.Some? then Exec(p.s, cmd.value) else Ok(p.s)),
          p.closed || Closes(p.s, job, p.call),
          if RowTakes(p.call) then p.recorded[p.call.line := p.call.worth] else p.recorded)
  }

  /** An advance takes its own door to its next place. */
  lemma AdvanceMoves(jobs: seq<Job>, w: World, j: nat, x: Id, cands: seq<Dims>)
    requires |w.calls| == |w.closed| == |w.recorded| == |jobs| && j < |jobs|
    ensures PlaceOf(StepWorld(jobs, w, Advance(j, x, cands)), j) == NextPlace(jobs[j], PlaceOf(w, j), x, cands)
  {
    hide Exec, Step, NextCall, CmdOf;
  }

  /** The door's step keeps every undrawn id but the one it draws. */
  lemma AdvanceKeepsFresh(locs: map<Loc, Location>, jobs: seq<Job>, w: World, j: nat, x: Id, cands: seq<Dims>, y: Id)
    requires WorldInv(locs, jobs, w) && JobsOk(locs, jobs) && j < |jobs| && EventOk(jobs, w, Advance(j, x, cands))
    requires Fresh(w.s.moves, y) && (y != x || !w.calls[j].AtLine?)
    ensures Fresh(StepWorld(jobs, w, Advance(j, x, cands)).s.moves, y)
  {
    var cmd := CmdOf(w.s, jobs[j], w.calls[j], x, cands);
    if cmd.Some? && cmd.value.CreateCmd? { assert Leg(jobs, j, w.calls[j].line); }
    hide Fresh, Step, Contract, WorldInv;
    if cmd.Some? { DoorKeepsFresh(w.s, cmd.value, y); }
  }

  // ---- walks ---------------------------------------------------------------------------------

  /** Door `j` of `jobs` in the world `w`. */
  datatype Door = Door(locs: map<Loc, Location>, jobs: seq<Job>, w: World, j: nat)

  /** The world is sound and the door in it stands at `p`. */
  ghost predicate Stands(d: Door, p: Place) {
    WorldInv(d.locs, d.jobs, d.w) && JobsOk(d.locs, d.jobs) && d.j < |d.jobs| && PlaceOf(d.w, d.j) == p
  }

  ghost predicate Sized(d: Door) { |d.w.calls| == |d.w.closed| == |d.w.recorded| == |d.jobs| }

  ghost function After(d: Door, walk: seq<Event>): (d': Door)
    requires Sized(d)
    ensures Sized(d')
  {
    d.(w := RunOn(d.jobs, d.w, walk))
  }

  /** The door, moving alone by legal steps, comes to stand at `p`. */
  ghost predicate Walks(d: Door, walk: seq<Event>, p: Place) {
    Sized(d) && Reaches(d.jobs, d.w, walk, d.j) && Stands(After(d, walk), p)
  }

  /** Ids not yet drawn, but `made`, stay so. */
  ghost predicate Undrawn(before: map<Id, Move>, after: map<Id, Move>, made: set<Id>) {
    forall y :: Fresh(before, y) && y !in made ==> Fresh(after, y)
  }

  lemma UndrawnMore(a: map<Id, Move>, b: map<Id, Move>, made: set<Id>, more: set<Id>)
    requires Undrawn(a, b, made) && made <= more
    ensures Undrawn(a, b, more)
  {
    hide Fresh;
  }

  lemma UndrawnTwice(a: map<Id, Move>, b: map<Id, Move>, c: map<Id, Move>, made: set<Id>)
    requires Undrawn(a, b, made) && Undrawn(b, c, made)
    ensures Undrawn(a, c, made)
  {
    hide Fresh;
  }

  lemma StandsAt(d: Door, p: Place)
    requires Stands(d, p)
    ensures d.j < |d.jobs|
  {
  }

  /** A driving call's move is there. */
  lemma OwnMove(d: Door, p: Place)
    requires Stands(d, p) && (p.call.Drive? || p.call.Releasing? || p.call.Finishing?)
    ensures d.j < |d.jobs| && p.call.line < |d.jobs[d.j].lines| && d.jobs[d.j].lines[p.call.line].Some?
    ensures NamedMove(p.s.moves, p.call.mv, d.jobs[d.j].lines[p.call.line].value.name)
  {
    assert DoorInv(p.s, d.jobs, d.j, p.call, p.closed, p.recorded);
  }

  lemma WalksNowhere(d: Door, p: Place)
    requires Stands(d, p)
    ensures Walks(d, [], p) && After(d, []) == d
  {
  }

  lemma WalksStands(d: Door, walk: seq<Event>, p: Place)
    requires Walks(d, walk, p)
    ensures Sized(d) && Stands(After(d, walk), p)
  {
  }

  lemma WalksConcat(d: Door, a: seq<Event>, p: Place, b: seq<Event>, q: Place)
    requires Walks(d, a, p) && Walks(After(d, a), b, q)
    ensures Walks(d, a + b, q) && After(d, a + b) == After(After(d, a), b)
  {
    hide Stands;
    RunOnConcat(d.jobs, d.w, a, b);
  }

  /** One step of a standing door. */
  lemma WalksOne(d: Door, p: Place, x: Id, cands: seq<Dims>)
    requires Stands(d, p) && Fresh(p.s.moves, x)
    requires p.call.Drive? && p.call.mv in p.s.moves ==>
      CandidatesOf(cands, p.s.moves[p.call.mv].item, p.s.moves[p.call.mv].src)
    ensures var q := NextPlace(d.jobs[d.j], p, x, cands);
      Walks(d, [Advance(d.j, x, cands)], q) && Undrawn(p.s.moves, q.s.moves, if p.call.AtLine? then {x} else {})
  {
    var e := Advance(d.j, x, cands);
    AdvanceIsLegal(d.locs, d.jobs, d.w, d.j, x, cands);
    AdvanceMoves(d.jobs, d.w, d.j, x, cands);
    var q := NextPlace(d.jobs[d.j], p, x, cands);
    hide WorldInv, StepWorld, NextPlace, Fresh, JobsOk, EventOk;
    RunOnOne(d.jobs, d.w, e);
    forall y | Fresh(p.s.moves, y) && (p.call.AtLine? ==> y != x) ensures Fresh(q.s.moves, y) {
      AdvanceKeepsFresh(d.locs, d.jobs, d.w, d.j, x, cands, y);
    }
  }

  // ---- why a walk stops ------------------------------------------------------------------------

  /** The error a step returns to the door's caller: its verb's own, `short` once a strict door has
      given back what it held, the row's or the header's refusal of a negative cost, or that the
      line's move was cancelled by hand. */
  ghost function RefusalOf(job: Job, p: Place, x: Id, cands: seq<Dims>, short: Error): Option<Error> {
    var cmd := CmdOf(p.s, job, p.call, x, cands);
    if cmd.Some? && Exec(p.s, cmd.value).Err? then Some(Exec(p.s, cmd.value).error)
    else if p.call.Releasing? then Some(short)
    else if p.call.Recording? && !RowTakes(p.call) then Some(StoreRefused)
    else if p.call == AtLine(|job.lines|) && !HeaderTakes(p.s, job) then Some(StoreRefused)
    else if CancelledAt(job, p) then Some(WrongMoveState)
    else None
  }

  ghost predicate CancelledAt(job: Job, p: Place) {
    && p.call.AtLine? && p.call.line < |job.lines| && job.lines[p.call.line].Some?
    && var found := MoveNamed(p.s.moves, job.lines[p.call.line].value.name);
    found.Some? && found.value in p.s.moves && p.s.moves[found.value].state == Cancelled
  }

  /** A call on its way ends without closing its voucher exactly when a step is refused. */
  lemma StopsIffRefused(d: Door, p: Place, x: Id, cands: seq<Dims>, short: Error)
    requires Stands(d, p) && p.call != Idle && !Closes(p.s, d.jobs[d.j], p.call)
    ensures NextPlace(d.jobs[d.j], p, x, cands).call == Idle <==> RefusalOf(d.jobs[d.j], p, x, cands, short).Some?
  {
    hide NextPlace, RefusalOf, CallInv, JobsOk, Sound;
    var job := d.jobs[d.j];
    assert CallInv(p.s, job, p.call) by { assert DoorInv(p.s, d.jobs, d.j, p.call, p.closed, p.recorded); }
    hide Stands;
    match p.call
    case AtLine(i) => LineStopsIff(p, job, i, x, cands, short);
    case Drive(i, m) => MoveStopsIff(p, job, x, cands, short);
    case Releasing(i, m) => MoveStopsIff(p, job, x, cands, short);
    case Finishing(i, m) => MoveStopsIff(p, job, x, cands, short);
    case Recording(i, m, worth) => MoveStopsIff(p, job, x, cands, short);
  }

  lemma LineStopsIff(p: Place, job: Job, i: nat, x: Id, cands: seq<Dims>, short: Error)
    requires CallInv(p.s, job, p.call) && p.call == AtLine(i) && !Closes(p.s, job, p.call)
    ensures NextPlace(job, p, x, cands).call == Idle <==> RefusalOf(job, p, x, cands, short).Some?
  {
    assert i <= |job.lines|;
    hide HeaderTakes, LandedTo, Exec, Step;
  }

  lemma MoveStopsIff(p: Place, job: Job, x: Id, cands: seq<Dims>, short: Error)
    requires CallInv(p.s, job, p.call) && !p.call.AtLine? && p.call != Idle
    ensures NextPlace(job, p, x, cands).call == Idle <==> RefusalOf(job, p, x, cands, short).Some?
  {
    hide LandedTo, ShipsFor, Exec, Step;
    if p.call.Drive? { DriveStopsIff(p.s, job, p.call.line, p.call.mv, x, cands); }
  }

  lemma DriveStopsIff(s: Estate, job: Job, i: nat, m: Id, x: Id, cands: seq<Dims>)
    requires m in s.moves
    ensures var cmd := CmdOf(s, job, Drive(i, m), x, cands);
      var done := if cmd.Some? then Exec(s, cmd.value) else Ok(s);
      NextCall(s, job, Drive(i, m), x, done) == Idle <==> done.Err?
  {
    hide Assign, Confirm;
    AssignKeepsMove(s, m, cands);
  }

  lemma AssignKeepsMove(s: Estate, m: Id, cands: seq<Dims>)
    ensures Assign(s, m, cands).Ok? ==> m in Assign(s, m, cands).value.moves
  {
    hide Reservations;
  }

  /** The walk's last step was refused with `error`. */
  ghost predicate Refused(d: Door, walk: seq<Event>, short: Error, error: Error) {
    && walk != [] && Sized(d) && d.j < |d.jobs|
    && var last := |walk| - 1;
    walk[last].Advance?
    && RefusalOf(d.jobs[d.j], PlaceOf(After(d, walk[..last]).w, d.j), walk[last].unseen, walk[last].cands, short) ==
       Some(error)
  }

  lemma RefusedOne(d: Door, p: Place, x: Id, cands: seq<Dims>, short: Error, error: Error)
    requires Stands(d, p) && RefusalOf(d.jobs[d.j], p, x, cands, short) == Some(error)
    ensures Refused(d, [Advance(d.j, x, cands)], short, error)
  {
    hide RefusalOf, WorldInv, JobsOk;
    assert [Advance(d.j, x, cands)][..0] == [];
    WalksNowhere(d, p);
  }

  lemma RefusedConcat(d: Door, a: seq<Event>, b: seq<Event>, short: Error, error: Error)
    requires Sized(d) && Refused(After(d, a), b, short, error)
    ensures Refused(d, a + b, short, error)
  {
    hide RefusalOf, PlaceOf;
    var n := |b| - 1;
    RunOnConcat(d.jobs, d.w, a, b[..n]);
    assert (a + b)[..|a + b| - 1] == a + b[..n];
  }

  /** A strict door's refusal gave the line's whole reservation back and moved nothing. */
  lemma RefusedLineHoldsNothing(d: Door, p: Place, x: Id, cands: seq<Dims>, short: Error)
    requires Stands(d, p) && p.call.Releasing?
    ensures var q := NextPlace(d.jobs[d.j], p, x, cands);
      && RefusalOf(d.jobs[d.j], p, x, cands, short) == Some(short)
      && q.call == Idle && MoveQty(q.s.lines, p.call.mv) == 0.0 && q.s.moves == p.s.moves && q.s.books == p.s.books
  {
    assert DoorInv(p.s, d.jobs, d.j, p.call, p.closed, p.recorded);
    MoveQtyZero(p.s.lines, p.call.mv, p.call.mv);
  }
}
