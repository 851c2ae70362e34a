/** Why a retried receipt completes: from every point a crash can leave an inbound line at, no verb
    still to come is refused, unless somebody zeroed the line's reservation in between. */
module Resume {
  import opened Common
  import opened StockTypes
  import opened Reservation
  import opened Engine
  import opened Invariants
  import opened Soundness
  import opened SoundDone
  import opened Runs
  import opened Guarantees
  import opened WholeMoves

  /** A line of goods from outside, minted without parents. */
  predicate InboundMove(s: Estate, m: Id) {
    m in s.moves && !IsInternal(s.locs, s.moves[m].src) && s.moves[m].demand > 0.0 && s.moves[m].orig == []
  }

  lemma InboundConfirms(s: Estate, m: Id)
    requires Sound(s, false) && InboundMove(s, m) && Whole(s, m) && s.moves[m].state == Draft
    ensures var r := Confirm(s, m);
      r.Ok? && InboundMove(r.value, m) && r.value.moves[m].state == Confirmed && Sound(r.value, false)
      && Whole(r.value, m)
  {
    ConfirmSound(s, m, false, None);
    ConfirmWhole(s, m, m);
    hide Sound;
  }

  /** Supply from outside is always available: the assign covers the whole demand. */
  lemma InboundAssigns(s: Estate, m: Id, cands: seq<Dims>)
    requires Sound(s, false) && InboundMove(s, m) && Whole(s, m) && s.moves[m].state == Confirmed
      && CandidatesOf(cands, s.moves[m].item, s.moves[m].src)
    ensures var r := Assign(s, m, cands);
      r.Ok? && InboundMove(r.value, m) && r.value.moves[m].state == Assigned
        && MoveQty(r.value.lines, m) == s.moves[m].demand && Sound(r.value, false)
      && Whole(r.value, m)
  {
    assert MoveOk(s.locs, s.moves[m]);
    ReservationsFit(s, m, cands, false, None);
    AssignCoreSound(s, m, cands, false, None);
    AssignWhole(s, m, cands, m);
    var more := Reservations(s, m, cands).lines;
    MoveQtyAppend(s.lines, more, m, m);
    MoveQtyStamp(s.lines + more, m, Assigned, m);
    hide Sound;
  }

  /** An assigned inbound move is done on request exactly when its line still holds its demand. The
      unreserve verb zeroes the line and leaves the state, after which no assign is offered again
      and every done is refused. */
  lemma InboundFinishesIff(s: Estate, m: Id, child: Id)
    requires Sound(s, false) && InboundMove(s, m) && Whole(s, m) && s.moves[m].state == Assigned
      && Fresh(s.moves, child)
    ensures var r := Finish(s, m, Never, child, []); var held := MoveQty(s.lines, m);
      && (r.Ok? <==> held == s.moves[m].demand)
      && (r.Err? ==> held == 0.0 && r == Err(MoveLinesRequired))
      && (r.Ok? ==>
            && m in r.value.moves && r.value.moves[m].state == Done
            && r.value.moves[m].quantity == s.moves[m].demand)
  {
    var held := MoveQty(s.lines, m);
    OwnBetween(s.locs, s.moves, s.lines, m);
    if held > 0.0 {
      if LinesOf(s.lines, m) == [] { NoLinesNoQty(s.lines, m); }
      ReservationIsGuarantee(s, m, false);
      DoneCoreParts(s, m, false);
      NeverFinishes(s, m, child);
      hide DoneCore, Sound;
    } else {
      forall l | l in LinesOf(s.lines, m) ensures l.qty >= 0.0 {}
      hide Sound;
    }
  }

  /** The verbs a resumed walk still issues for an inbound line in state `st`. */
  function StillToDo(st: MoveState, m: Id, child: Id): seq<Cmd> {
    var finish := FinishCmd(m, Never, child, []);
    if st == Draft then [ConfirmCmd(m), AssignCmd(m, []), finish]
    else if st == Confirmed then [AssignCmd(m, []), finish]
    else [finish]
  }

  lemma RunOne(s: Estate, c: Cmd)
    ensures Run(s, [c]) == Step(s, c)
  {
    assert [c][..0] == [];
    assert Run(s, []) == s;
  }

  lemma {:induction false} RunCons(s: Estate, c: Cmd, cs: seq<Cmd>)
    ensures Run(s, [c] + cs) == Run(Step(s, c), cs)
  {
    if cs == [] {
      assert [c] + cs == [c];
      RunOne(s, c);
    } else {
      var n := |cs| - 1;
      RunCons(s, c, cs[..n]);
      assert ([c] + cs)[..n + 1] == [c] + cs[..n];
    }
  }

  /** Wherever a crash left the line, the rest of an undisturbed walk lands it whole. */
  lemma ResumeLands(s: Estate, m: Id, child: Id)
    requires Sound(s, false) && InboundMove(s, m) && Whole(s, m) && Fresh(s.moves, child)
    requires s.moves[m].state == Draft || s.moves[m].state == Confirmed
      || (s.moves[m].state == Assigned && MoveQty(s.lines, m) > 0.0)
    ensures var s' := Run(s, StillToDo(s.moves[m].state, m, child));
      m in s'.moves && s'.moves[m].state == Done && s'.moves[m].quantity == s.moves[m].demand
  {
    hide Sound, Finish, Assign, Confirm, Fresh, CandidatesOf;
    var finish := FinishCmd(m, Never, child, []);
    match s.moves[m].state
    case Draft =>
      var s1 := Step(s, ConfirmCmd(m));
      InboundConfirms(s, m);
      SameIds(s, m, child);
      ConfirmedLands(s1, m, child);
      RunCons(s, ConfirmCmd(m), [AssignCmd(m, []), finish]);
      assert StillToDo(Draft, m, child) == [ConfirmCmd(m)] + [AssignCmd(m, []), finish];
    case Confirmed => ConfirmedLands(s, m, child);
    case Assigned =>
      AssignedHolds(s, m);
      InboundFinishesIff(s, m, child);
      RunOne(s, finish);
  }

  lemma AssignedHolds(s: Estate, m: Id)
    requires Sound(s, false) && InboundMove(s, m) && Whole(s, m) && s.moves[m].state == Assigned
      && MoveQty(s.lines, m) > 0.0
    ensures MoveQty(s.lines, m) == s.moves[m].demand
  {
  }

  lemma SameIds(s: Estate, m: Id, child: Id)
    requires Fresh(s.moves, child)
    ensures Confirm(s, m).Ok? ==>
      Fresh(Confirm(s, m).value.moves, child) && Confirm(s, m).value.moves[m].demand == s.moves[m].demand
    ensures Assign(s, m, []).Ok? ==>
      Fresh(Assign(s, m, []).value.moves, child) && Assign(s, m, []).value.moves[m].demand == s.moves[m].demand
  {
    hide Reservations;
  }

  lemma ConfirmedLands(s: Estate, m: Id, child: Id)
    requires Sound(s, false) && InboundMove(s, m) && Whole(s, m) && s.moves[m].state == Confirmed
      && Fresh(s.moves, child)
    ensures var s' := Run(s, [AssignCmd(m, []), FinishCmd(m, Never, child, [])]);
      m in s'.moves && s'.moves[m].state == Done && s'.moves[m].quantity == s.moves[m].demand
  {
    assert CandidatesOf([], s.moves[m].item, s.moves[m].src);
    hide Sound, Finish, Assign, Fresh, CandidatesOf;
    var finish := FinishCmd(m, Never, child, []);
    InboundAssigns(s, m, []);
    SameIds(s, m, child);
    var s1 := Assign(s, m, []).value;
    hide InboundMove, Step, MoveQty, Run;
    StepIsExec(s, AssignCmd(m, []));
    InboundFinishesIff(s1, m, child);
    RunCons(s, AssignCmd(m, []), [finish]);
    assert [AssignCmd(m, [])] + [finish] == [AssignCmd(m, []), finish];
    RunOne(s1, finish);
    StepIsExec(s1, finish);
  }

  lemma StepIsExec(s: Estate, c: Cmd)
    ensures Exec(s, c).Ok? ==> Step(s, c) == Exec(s, c).value
    ensures c.AssignCmd? ==> Exec(s, c) == Assign(s, c.id, c.cands)
    ensures c.FinishCmd? ==> Exec(s, c) == Finish(s, c.id, c.policy, c.child, c.cands)
  {
  }
}
