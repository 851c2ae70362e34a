/** Every step of every door, and everything else that may happen between, keeps the doors'
    invariant. */
module DoorSoundness {
  import opened Common
  import opened StockTypes
  import opened Valuation
  import opened ValuationLaws
  import opened Reservation
  import opened Engine
  import opened Invariants
  import opened Runs
  import opened Frames
  import opened Doors
  import opened WholeMoves

  // ---- what a command keeps for every line -----------------------------------------------

  lemma StepKeepsLocs(s: Estate, c: Cmd)
    ensures Step(s, c).locs == s.locs
  {
    if c.FinishCmd? && Exec(s, c).Ok? { FinishKeepsLocs(s, c.id, c.policy, c.child, c.cands); }
    hide Finish;
  }

  lemma FinishKeepsLocs(s: Estate, id: Id, policy: Policy, child: Id, cands: seq<Dims>)
    requires Finish(s, id, policy, child, cands).Ok?
    ensures Finish(s, id, policy, child, cands).value.locs == s.locs
  {
  }

  /** The postings of a done move are never touched again. */
  lemma StepKeepsPostings(s: Estate, c: Cmd, m: Id, k: BinKey)
    requires m in s.moves && s.moves[m].state == Done
    ensures VoucherValue(Step(s, c).books.rows, StockEntry(m), k) == VoucherValue(s.books.rows, StockEntry(m), k)
  {
    StepKeepsVoucher(s, c, m, VoucherValueW(StockEntry(m), k));
    hide Step;
  }

  lemma StepKeepsLanded(s: Estate, c: Cmd, line: Option<NewMove>)
    requires Contract(s, c) && Landed(s.moves, line)
    ensures Landed(Step(s, c).moves, line)
  {
    StepKeeps(s, c);
    hide Step;
    if line.Some? {
      var m :| NamedMove(s.moves, m, line.value.name) && s.moves[m].state == Done;
      assert KeptBy(s, Step(s, c).moves, FinishedBy(c), m);
      assert NamedMove(Step(s, c).moves, m, line.value.name);
    }
  }

  lemma StepKeepsLandedTo(s: Estate, c: Cmd, job: Job, n: nat)
    requires Contract(s, c) && LandedTo(s.moves, job, n)
    ensures LandedTo(Step(s, c).moves, job, n)
  {
    hide Step, Landed;
    forall i | 0 <= i < n ensures Landed(Step(s, c).moves, job.lines[i]) { StepKeepsLanded(s, c, job.lines[i]); }
  }

  lemma StepKeepsShipped(s: Estate, c: Cmd, nm: NewMove, worth: real)
    requires Contract(s, c) && ShipsFor(s, nm, worth)
    ensures ShipsFor(Step(s, c), nm, worth)
  {
    StepKeeps(s, c);
    StepKeepsLocs(s, c);
    hide Step, VoucherValue;
    var s' := Step(s, c);
    var m :| NamedMove(s.moves, m, nm.name) && s.moves[m].state == Done && ShippedAs(s, m, worth);
    assert KeptBy(s, s'.moves, FinishedBy(c), m);
    forall k ensures VoucherValue(s'.books.rows, StockEntry(m), k) == VoucherValue(s.books.rows, StockEntry(m), k) {
      StepKeepsPostings(s, c, m, k);
    }
    assert NamedMove(s'.moves, m, nm.name) && ShippedAs(s', m, worth);
  }

  /** A line's move stays its one move, and gets done only whole. */
  lemma StepKeepsLine(s: Estate, c: Cmd, nm: NewMove)
    requires Sound(s, false) && Contract(s, c) && LineInv(s, nm) && !nm.name.BackorderOf?
    requires forall m :: NamedMove(s.moves, m, nm.name) ==> !Edits(s, c, m)
    requires c.CreateCmd? && c.m.name == nm.name ==> c.m == nm && forall m :: !NamedMove(s.moves, m, nm.name)
    requires c.FinishCmd? && NamedMove(s.moves, c.id, nm.name) && Exec(s, c).Ok? && s.moves[c.id].state != Done ==>
      MoveQty(s.lines, c.id) == nm.demand
    ensures LineInv(Step(s, c), nm)
  {
    StepKeeps(s, c);
    var after := Step(s, c).moves;
    assert Exec(s, c).Err? ==> after == s.moves;
    hide Step, Exec, Whole, Sound, Edits;
    forall m | NamedMove(after, m, nm.name)
      ensures m in s.moves ==> NamedMove(s.moves, m, nm.name)
      ensures m !in s.moves ==> c.CreateCmd? && c.m == nm && m == c.id
      ensures LineMoveOk(Step(s, c), nm, m)
    {
      if m in s.moves {
        assert KeptBy(s, after, FinishedBy(c), m);
        assert NamedMove(s.moves, m, nm.name);
        StepKeepsWhole(s, c, m);
      } else {
        assert NewBy(after, CreatedBy(c), m);
        StepCreatesWhole(s, c);
      }
    }
  }

  lemma StepCreatesWhole(s: Estate, c: Cmd)
    requires Sound(s, false) && Contract(s, c) && c.CreateCmd? && c.id in Step(s, c).moves
    ensures Whole(Step(s, c), c.id)
  {
    hide Sound, Whole, Create;
    if Exec(s, c).Ok? { CreatedWhole(s, c.id, c.m); }
  }

  /** A move whose lines nobody edited, from outside or wholly reserved, is done with its whole
      demand. */
  lemma DoneWhole(s: Estate, id: Id, policy: Policy, child: Id, cands: seq<Dims>)
    requires id in s.moves && Whole(s, id) && (!IsInternal(s.locs, s.moves[id].src) || s.moves[id].state == Assigned)
    requires Finish(s, id, policy, child, cands).Ok?
    ensures MoveQty(s.lines, id) == s.moves[id].demand && s.moves[id].state != Done
  {
    SumLinesOf(s.lines, id, QtyOf, OfW(id));
    assert DoneCore(s, id).Ok?;
  }

  /** Any command that respects a call's own line leaves the call where it stood. */
  lemma StepKeepsCall(s: Estate, c: Cmd, job: Job, call: Call)
    requires Contract(s, c) && CallInv(s, job, call)
    ensures CallInv(Step(s, c), job, call)
  {
    StepKeeps(s, c);
    hide Step, LandedTo, ShipsFor;
    match call
    case Idle =>
    case AtLine(i) => StepKeepsLandedTo(s, c, job, i);
    case Recording(i, m, worth) =>
      StepKeepsLandedTo(s, c, job, i + 1);
      StepKeepsShipped(s, c, job.lines[i].value, worth);
    case Drive(i, m) => StepKeepsDriving(s, c, job, i, m);
    case Releasing(i, m) => StepKeepsDriving(s, c, job, i, m);
    case Finishing(i, m) => StepKeepsDriving(s, c, job, i, m); assert KeptBy(s, Step(s, c).moves, FinishedBy(c), m);
  }

  lemma StepKeepsDriving(s: Estate, c: Cmd, job: Job, i: nat, m: Id)
    requires Contract(s, c) && Driving(s, job, i, m)
    ensures Driving(Step(s, c), job, i, m)
  {
    StepKeeps(s, c);
    hide Step, LandedTo;
    StepKeepsLandedTo(s, c, job, i);
    assert KeptBy(s, Step(s, c).moves, FinishedBy(c), m);
  }

  lemma StepKeepsDoor(s: Estate, c: Cmd, jobs: seq<Job>, j: nat, call: Call, closed: bool, recorded: map<nat, real>)
    requires Contract(s, c) && j < |jobs| && DoorInv(s, jobs, j, call, closed, recorded)
    ensures DoorInv(Step(s, c), jobs, j, call, closed, recorded)
  {
    hide Step, CallInv, LandedTo, ShipsFor;
    StepKeepsCall(s, c, jobs[j], call);
    if closed { StepKeepsLandedTo(s, c, jobs[j], |jobs[j].lines|); }
    forall i | i in recorded
      ensures i < |jobs[j].lines| && jobs[j].lines[i].Some?
      && ShipsFor(Step(s, c), jobs[j].lines[i].value, recorded[i]) {
      StepKeepsShipped(s, c, jobs[j].lines[i].value, recorded[i]);
    }
  }

  // ---- a door's own step -------------------------------------------------------------------

  lemma UnpostedIsZero(rows: seq<Row>, v: Voucher, k: BinKey)
    requires Unposted(rows, v)
    ensures VoucherValue(rows, v, k) == 0.0
  {
    SumZero(rows, VoucherValueW(v, k));
  }

  /** A move out of the books that posted nothing before shows exactly what left its source bin. */
  lemma MintShips(books: Books, mv: Move, id: Id, src: Location, dst: Location, qty: real)
    requires KeyOf(mv.item, dst).None? && Mint(books, mv, id, src, dst, qty).Ok? && Unposted(books.rows, StockEntry(id))
    ensures var m := Mint(books, mv, id, src, dst, qty).value;
      forall k :: VoucherValue(m.books.rows, StockEntry(id), k) == LegAt(mv.item, src, dst, m.outValue, 0.0, k)
  {
    var m := Mint(books, mv, id, src, dst, qty).value;
    hide VoucherValue, VoucherQty;
    assert m.inValue == 0.0;
    hide Mint;
    forall k ensures VoucherValue(m.books.rows, StockEntry(id), k) == LegAt(mv.item, src, dst, m.outValue, 0.0, k) {
      MintPosts(books, mv, id, src, dst, qty, StockEntry(id), k);
      UnpostedIsZero(books.rows, StockEntry(id), k);
    }
  }

  /** A validated move is done, and the ledger shows what the verb reports as carried out. */
  lemma FinishShips(s: Estate, m: Id, child: Id)
    requires Sound(s, false) && Finish(s, m, Never, child, []).Ok?
    ensures var s' := Finish(s, m, Never, child, []).value;
      m in s'.moves && s'.moves[m].state == Done && SameOrder(s.moves[m], s'.moves[m]) && s'.locs == s.locs
        && ShippedAs(s', m, Worth(s, m))
  {
    var mv := s.moves[m];
    SumLinesOf(s.lines, m, QtyOf, OfW(m));
    NotDoneUnposted(s, m, child);
    FinishMoves(s, m, child);
    hide VoucherValue, Finish, Sound, Mint;
    if KeyOf(mv.item, s.locs[mv.dst]).None? {
      MintShips(s.books, mv, m, s.locs[mv.src], s.locs[mv.dst], MoveQty(s.lines, m));
    }
  }

  lemma NotDoneUnposted(s: Estate, m: Id, child: Id)
    requires Sound(s, false) && Finish(s, m, Never, child, []).Ok?
    ensures Unposted(s.books.rows, StockEntry(m))
  {
    hide Triangle, Chained, Mirrored, Shape, Splits, Reconstructs, PostedOnce, Mint, DrawAll;
    assert s.moves[m].state != Done;
    assert (m in s.moves && s.moves[m].state == Done) || Unposted(s.books.rows, StockEntry(m));
  }

  lemma FinishMoves(s: Estate, m: Id, child: Id)
    requires Finish(s, m, Never, child, []).Ok?
    ensures var s' := Finish(s, m, Never, child, []).value; var mv := s.moves[m];
      && m in s'.moves && s'.moves[m].state == Done && SameOrder(mv, s'.moves[m]) && s'.locs == s.locs
      && mv.src in s.locs && mv.dst in s.locs
      && Mint(s.books, mv, m, s.locs[mv.src], s.locs[mv.dst], Sum(LinesOf(s.lines, m), QtyOf)).Ok?
      && s'.books == Mint(s.books, mv, m, s.locs[mv.src], s.locs[mv.dst], Sum(LinesOf(s.lines, m), QtyOf)).value.books
  {
    hide Mint, DrawAll, Recompute;
  }

  lemma LandedNext(moves: map<Id, Move>, job: Job, i: nat)
    requires i < |job.lines| && LandedTo(moves, job, i) && Landed(moves, job.lines[i])
    ensures LandedTo(moves, job, i + 1)
  {
    hide Landed;
  }

  /** The call that finished its line moves on, having recorded what was carried out. */
  lemma FinishingNext(s: Estate, job: Job, i: nat, m: Id, unseen: Id)
    requires Sound(s, false) && Driving(s, job, i, m) && Contract(s, FinishCmd(m, Never, unseen, []))
      && Finish(s, m, Never, unseen, []).Ok?
    ensures CallInv(Finish(s, m, Never, unseen, []).value, job,
      if job.records then Recording(i, m, Worth(s, m)) else AtLine(i + 1))
  {
    hide Finish, Sound, ShippedAs;
    var c := FinishCmd(m, Never, unseen, []);
    var s' := Finish(s, m, Never, unseen, []).value;
    assert Step(s, c) == s';
    FinishShips(s, m, unseen);
    StepKeepsLandedTo(s, c, job, i);
    assert NamedMove(s'.moves, m, job.lines[i].value.name);
    LandedNext(s'.moves, job, i);
  }

  lemma AtLineNext(s: Estate, job: Job, i: nat, unseen: Id, cands: seq<Dims>, cmd: Option<Cmd>, done: Outcome<Estate>,
      s': Estate)
    requires CallInv(s, job, AtLine(i)) && cmd == CmdOf(s, job, AtLine(i), unseen, cands)
      && (cmd.Some? ==> Contract(s, cmd.value))
    requires done == (if cmd.Some? then Exec(s, cmd.value) else Ok(s))
      && s' == (if cmd.Some? then Step(s, cmd.value) else s)
    ensures CallInv(s', job, NextCall(s, job, AtLine(i), unseen, done))
  {
    hide Landed, Step, Exec, LandedTo;
    if i < |job.lines| {
      if job.lines[i].None? {
        assert Landed(s.moves, job.lines[i]) by { LandedNothing(s.moves); }
        LandedNext(s.moves, job, i);
      } else {
        var nm := job.lines[i].value;
        var found := MoveNamed(s.moves, nm.name);
        if found.Some? {
          var m := found.value;
          assert NamedMove(s.moves, m, nm.name);
          if s.moves[m].state == Done { LandedBy(s.moves, nm, m); LandedNext(s.moves, job, i); }
        } else if done.Ok? {
          CreatedIsNamed(s, unseen, nm);
          StepKeepsLandedTo(s, CreateCmd(unseen, nm), job, i);
        }
      }
    }
  }

  lemma LandedNothing(moves: map<Id, Move>)
    ensures Landed(moves, None)
  {
  }

  lemma LandedBy(moves: map<Id, Move>, nm: NewMove, m: Id)
    requires NamedMove(moves, m, nm.name) && moves[m].state == Done
    ensures Landed(moves, Some(nm))
  {
  }

  lemma CreatedIsNamed(s: Estate, id: Id, nm: NewMove)
    requires id !in s.moves && Exec(s, CreateCmd(id, nm)).Ok?
    ensures NamedMove(Step(s, CreateCmd(id, nm)).moves, id, nm.name)
  {
  }

  lemma DriveNext(s: Estate, job: Job, i: nat, m: Id, unseen: Id, cands: seq<Dims>, cmd: Option<Cmd>,
      done: Outcome<Estate>, s': Estate)
    requires CallInv(s, job, Drive(i, m)) && cmd == CmdOf(s, job, Drive(i, m), unseen, cands)
      && (cmd.Some? ==> Contract(s, cmd.value))
    requires done == (if cmd.Some? then Exec(s, cmd.value) else Ok(s))
      && s' == (if cmd.Some? then Step(s, cmd.value) else s)
    ensures CallInv(s', job, NextCall(s, job, Drive(i, m), unseen, done))
  {
    hide Exec, Driving;
    if cmd.Some? { StepKeepsDriving(s, cmd.value, job, i, m); }
  }

  /** After its verb, a call stands where its invariant says. */
  lemma OwnCall(s: Estate, job: Job, call: Call, unseen: Id, cands: seq<Dims>, cmd: Option<Cmd>, done: Outcome<Estate>,
      s': Estate)
    requires Sound(s, false) && CallInv(s, job, call) && cmd == CmdOf(s, job, call, unseen, cands)
      && (cmd.Some? ==> Contract(s, cmd.value))
    requires done == (if cmd.Some? then Exec(s, cmd.value) else Ok(s))
      && s' == (if cmd.Some? then Step(s, cmd.value) else s)
    ensures CallInv(s', job, NextCall(s, job, call, unseen, done))
  {
    hide Sound, Finish, LandedTo;
    match call
    case Idle =>
    case AtLine(i) => AtLineNext(s, job, i, unseen, cands, cmd, done, s');
    case Drive(i, m) => DriveNext(s, job, i, m, unseen, cands, cmd, done, s');
    case Releasing(i, m) =>
    case Finishing(i, m) => if done.Ok? { FinishingNext(s, job, i, m, unseen); }
    case Recording(i, m, worth) =>
  }

  /** A door's verb keeps every line's move its one move, its own and every other voucher's. */
  lemma OwnCmdKeepsLine(locs: map<Loc, Location>, jobs: seq<Job>, w: World, j: nat, unseen: Id, cands: seq<Dims>,
      cmd: Cmd, a: nat, b: nat)
    requires WorldInv(locs, jobs, w) && JobsOk(locs, jobs) && j < |jobs| && Leg(jobs, a, b)
    requires CmdOf(w.s, jobs[j], w.calls[j], unseen, cands) == Some(cmd) && Contract(w.s, cmd)
    ensures LineInv(Step(w.s, cmd), MoveOf(jobs, a, b))
  {
    hide Sound, Finish, Exec, Step;
    var s, nm := w.s, MoveOf(jobs, a, b);
    var call := w.calls[j];
    assert LineInv(s, nm) && DoorInv(s, jobs, j, call, w.closed[j], w.recorded[j]);
    if cmd.CreateCmd? {
      assert Leg(jobs, j, call.line);
      if cmd.m.name == nm.name { assert a == j && b == call.line; }
    }
    if cmd.FinishCmd? && NamedMove(s.moves, cmd.id, nm.name) && Exec(s, cmd).Ok? && s.moves[cmd.id].state != Done {
      assert Leg(jobs, j, call.line) && MoveOf(jobs, j, call.line).name == nm.name;
      assert a == j && b == call.line;
      ReadyToFinish(s, cmd.id, unseen);
      DoneWhole(s, cmd.id, Never, unseen, []);
    }
    StepKeepsLine(s, cmd, nm);
  }

  lemma ReadyToFinish(s: Estate, id: Id, child: Id)
    requires Exec(s, FinishCmd(id, Never, child, [])).Ok?
    ensures Finish(s, id, Never, child, []).Ok? && id in s.moves && Ready(s.moves[id].state)
  {
  }

  lemma OtherKeepsLine(locs: map<Loc, Location>, jobs: seq<Job>, w: World, c: Cmd, a: nat, b: nat)
    requires WorldInv(locs, jobs, w) && JobsOk(locs, jobs) && Leg(jobs, a, b)
    requires Contract(w.s, c) && Apart(jobs, w.s, c)
    ensures LineInv(Step(w.s, c), MoveOf(jobs, a, b))
  {
    hide Sound, Finish, Exec, Step;
    var s, nm := w.s, MoveOf(jobs, a, b);
    assert LineInv(s, nm);
    assert Claims(jobs, nm.name);
    if c.FinishCmd? && NamedMove(s.moves, c.id, nm.name) && Exec(s, c).Ok? && s.moves[c.id].state != Done {
      FinishOfExec(s, c);
      DoneWhole(s, c.id, c.policy, c.child, c.cands);
    }
    StepKeepsLine(s, c, nm);
  }

  lemma FinishOfExec(s: Estate, c: Cmd)
    requires c.FinishCmd? && Exec(s, c).Ok?
    ensures Finish(s, c.id, c.policy, c.child, c.cands).Ok?
  {
  }
}
