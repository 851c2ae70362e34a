/** The repost of a move's journal at any later time: no verb in between adds a row to a done move's
    voucher, so the ledger still reads back what the done transaction minted. */
module MoveReposts {
  import opened Common
  import opened StockTypes
  import opened Valuation
  import opened ValuationLaws
  import opened Reservation
  import opened Engine
  import opened Invariants
  import opened Soundness
  import opened Runs
  import opened Frames
  import opened MoveGl

  // ---- a move that is not done carries no done quantity ------------------------------------------

  predicate Unmoved(mv: Move) { mv.state != Done ==> mv.quantity == 0.0 }

  ghost predicate AllUnmoved(moves: map<Id, Move>) { forall m {:trigger moves[m]} :: m in moves ==> Unmoved(moves[m]) }

  lemma AssignUnmoved(s: Estate, id: Id, cands: seq<Dims>)
    requires AllUnmoved(s.moves) && id in s.moves && s.moves[id].state != Done && AssignCore(s, id, cands).Ok?
    ensures AllUnmoved(AssignCore(s, id, cands).value.moves)
  {
    hide Reservations;
  }

  lemma DoneUnmoved(s: Estate, id: Id)
    requires AllUnmoved(s.moves) && id in s.moves && DoneCore(s, id).Ok?
    ensures AllUnmoved(DoneCore(s, id).value.moves)
  {
    hide Mint, DrawAll, Recompute;
  }

  lemma InsertUnmoved(moves: map<Id, Move>, id: Id, nm: NewMove)
    requires AllUnmoved(moves) && id !in moves
    ensures AllUnmoved(Insert(moves, id, nm)) && id in Insert(moves, id, nm)
    ensures Insert(moves, id, nm)[id].state == Draft && Insert(moves, id, nm)[id].quantity == 0.0
  {
  }

  lemma SplitUnmoved(s: Estate, id: Id, policy: Policy, child: Id, cands: seq<Dims>)
    requires AllUnmoved(s.moves) && id in s.moves && child !in s.moves && Split(s, id, policy, child, cands).Ok?
    ensures AllUnmoved(Split(s, id, policy, child, cands).value.moves)
  {
    hide AssignCore, Insert;
    var mv := s.moves[id];
    if !(mv.quantity >= mv.demand || policy == Never) {
      InsertUnmoved(s.moves, child, Remainder(mv, id));
      var inserted := Insert(s.moves, child, Remainder(mv, id));
      var bo := inserted[child];
      var s1 := s.(moves := inserted[child := bo.(state := ConfirmedState(inserted, bo))],
        backorders := s.backorders[id := child]);
      assert AllUnmoved(s1.moves);
      if policy == Always && s1.moves[child].state == Confirmed { AssignUnmoved(s1, child, cands); }
    }
  }

  lemma FinishUnmoved(s: Estate, id: Id, policy: Policy, child: Id, cands: seq<Dims>)
    requires AllUnmoved(s.moves) && child !in s.moves && Finish(s, id, policy, child, cands).Ok?
    ensures AllUnmoved(Finish(s, id, policy, child, cands).value.moves)
  {
    hide DoneCore, Split, AllUnmoved;
    DoneUnmoved(s, id);
    var s1 := DoneCore(s, id).value;
    DoneKeeps(s, id);
    SplitUnmoved(s1, id, policy, child, cands);
    ReleaseUnmoved(Split(s1, id, policy, child, cands).value.moves, s.moves[id].dest);
  }

  lemma ReleaseUnmoved(moves: map<Id, Move>, kids: seq<Id>)
    requires AllUnmoved(moves)
    ensures AllUnmoved(Release(moves, kids))
  {
  }

  lemma StepUnmoved(s: Estate, c: Cmd)
    requires Contract(s, c) && AllUnmoved(s.moves)
    ensures AllUnmoved(Step(s, c).moves)
  {
    hide Create, Finish, AssignCore, Insert, CancelSet;
    if Exec(s, c).Ok? {
      match c
      case CreateCmd(id, nm) => CreateUnmoved(s, id, nm);
      case AssignCmd(id, cands) => AssignUnmoved(s, id, cands);
      case FinishCmd(id, policy, child, cands) => FinishUnmoved(s, id, policy, child, cands);
      case CancelCmd(id) => CancelUnmoved(s, id);
      case _ =>
    }
  }

  lemma CreateUnmoved(s: Estate, id: Id, nm: NewMove)
    requires AllUnmoved(s.moves) && id !in s.moves && Create(s, id, nm).Ok?
    ensures AllUnmoved(Create(s, id, nm).value.moves)
  {
    InsertUnmoved(s.moves, id, nm);
  }

  lemma CancelUnmoved(s: Estate, id: Id)
    requires AllUnmoved(s.moves) && Cancel(s, id).Ok?
    ensures AllUnmoved(Cancel(s, id).value.moves)
  {
    CancelSetLive(s.moves, id);
    hide CancelSet;
  }

  lemma {:induction false} RunUnmoved(locs: map<Loc, Location>, cs: seq<Cmd>)
    requires Legal(EmptyEstate(locs), cs)
    ensures AllUnmoved(Run(EmptyEstate(locs), cs).moves)
  {
    hide Step, Contract;
    if cs != [] {
      var n := |cs| - 1;
      RunUnmoved(locs, cs[..n]);
      StepUnmoved(Run(EmptyEstate(locs), cs[..n]), cs[n]);
    }
  }

  // ---- what a later run leaves of a done move ----------------------------------------------------

  lemma {:induction false} RunKeepsDone(s: Estate, cs: seq<Cmd>, m: Id, w: Row -> real)
    requires Legal(s, cs) && m in s.moves && s.moves[m].state == Done && Under(StockEntry(m), w)
    ensures var s' := Run(s, cs);
      && m in s'.moves && s'.moves[m].state == Done && SameOrder(s.moves[m], s'.moves[m])
      && s'.moves[m].quantity == s.moves[m].quantity
      && Sum(s'.books.rows, w) == Sum(s.books.rows, w)
  {
    hide Step, Contract, Under;
    if cs != [] {
      var n := |cs| - 1;
      var mid, c := Run(s, cs[..n]), cs[n];
      RunKeepsDone(s, cs[..n], m, w);
      StepKeeps(mid, c);
      assert KeptBy(mid, Step(mid, c).moves, FinishedBy(c), m);
      StepKeepsVoucher(mid, c, m, w);
    }
  }

  /** The envelope asks only for a move's shape and quantity. */
  lemma SameEnvelope(a: Move, b: Move, src: Location, dst: Location, gl: Directive, out: real, into: real)
    requires a.isInventory == b.isInventory && a.quantity == b.quantity
    ensures Envelope(a, src, dst, gl, out, into, false) == Envelope(b, src, dst, gl, out, into, false)
  {
  }

  lemma DoneIsDone(s: Estate, id: Id, policy: Policy, child: Id, cands: seq<Dims>)
    requires Sound(s, false) && AllUnmoved(s.moves) && Finish(s, id, policy, child, cands).Ok?
    ensures id in s.moves && s.moves[id].quantity == 0.0 && Unposted(s.books.rows, StockEntry(id))
  {
    FinishBooks(s, id, policy, child, cands);
    hide Finish, Triangle, Chained, Mirrored, Shape, Splits, Reconstructs, PostedOnce;
    assert Unmoved(s.moves[id]);
    assert (id in s.moves && s.moves[id].state == Done) || Unposted(s.books.rows, StockEntry(id));
  }

  lemma FinishLeaves(s: Estate, id: Id, policy: Policy, child: Id, cands: seq<Dims>)
    requires Fresh(s.moves, child) && Finish(s, id, policy, child, cands).Ok?
    ensures id in s.moves
    ensures var s' := Finish(s, id, policy, child, cands).value;
      && id in s'.moves && s'.moves[id].state == Done && SameOrder(s.moves[id], s'.moves[id])
      && s'.moves[id].quantity == Sum(LinesOf(s.lines, id), QtyOf)
  {
    FinishKeeps(s, id, policy, child, cands);
    var s1 := DoneCore(s, id).value;
    SumLinesOf(s.lines, id, QtyOf, OfW(id));
    DoneIs(s, id);
    SplitKeeps(s1, id, policy, child, cands);
    var s2 := Split(s1, id, policy, child, cands).value;
    ReleaseKeeps(s2, s.moves[id].dest);
    hide DoneCore, Split, Release;
    assert KeptBy(s1, s2.moves, None, id);
    assert KeptBy(s2, Release(s2.moves, s.moves[id].dest), None, id);
    assert KeptBy(s, Finish(s, id, policy, child, cands).value.moves, Some(id), id);
  }

  lemma DoneIs(s: Estate, id: Id)
    requires id in s.moves && DoneCore(s, id).Ok?
    ensures var moves := DoneCore(s, id).value.moves;
      id in moves && moves[id].state == Done && moves.Keys == s.moves.Keys && s.moves[id].state != Done
  {
    hide Mint, DrawAll, Recompute;
  }

  /** The move just done, its legs, and the envelope the done transaction armed. */
  datatype Armed = Armed(mv: Move, src: Location, dst: Location, out: real, into: real)

  function ArmedBy(s: Estate, id: Id): Armed
    requires id in s.moves
  {
    var mv := s.moves[id];
    var src, dst := LocAt(s.locs, mv.src), LocAt(s.locs, mv.dst);
    match Mint(s.books, mv, id, src, dst, Sum(LinesOf(s.lines, id), QtyOf))
    case Ok(m) => Armed(mv, src, dst, m.outValue, m.inValue)
    case Err(_) => Armed(mv, src, dst, 0.0, 0.0)
  }

  /** A move done at any moment of any run, its envelope armed, and reposted after any later verbs of
      any move: the repost always posts and balances, and posts the done transaction's lines exactly
      when the move is an adjustment or neither leg was negative. */
  lemma RepostAfterAnyRun(locs: map<Loc, Location>, before: seq<Cmd>, id: Id, policy: Policy, child: Id,
      cands: seq<Dims>, after: seq<Cmd>, gl: Directive)
    requires Legal(EmptyEstate(locs), before)
    requires var s := Run(EmptyEstate(locs), before); var c := FinishCmd(id, policy, child, cands);
      Contract(s, c) && Exec(s, c).Ok? && Legal(Step(s, c), after)
    ensures var s := Run(EmptyEstate(locs), before);
      var s' := Run(Step(s, FinishCmd(id, policy, child, cands)), after);
      && id in s.moves && id in s'.moves
      && var a := ArmedBy(s, id);
      var first := Envelope(a.mv, a.src, a.dst, gl, a.out, a.into, false);
      var again := Reposted(s'.books.rows, s'.moves[id], id, a.src, a.dst, s'.moves[id].quantity, gl);
      first.Some? ==>
        && again.Some? && Balanced(again.value)
        && (again == first <==> a.mv.isInventory || (a.out >= 0.0 && a.into >= 0.0))
  {
    hide Sound, Legal, Run, AllUnmoved;
    EveryRunIsSound(locs, before, false);
    RunUnmoved(locs, before);
    RepostAfter(Run(EmptyEstate(locs), before), id, policy, child, cands, after, gl);
  }

  lemma RepostAfter(s: Estate, id: Id, policy: Policy, child: Id, cands: seq<Dims>, after: seq<Cmd>, gl: Directive)
    requires Sound(s, false) && AllUnmoved(s.moves)
    requires var c := FinishCmd(id, policy, child, cands); Contract(s, c) && Exec(s, c).Ok? && Legal(Step(s, c), after)
    ensures var s' := Run(Step(s, FinishCmd(id, policy, child, cands)), after);
      && id in s.moves && id in s'.moves
      && var a := ArmedBy(s, id);
      var first := Envelope(a.mv, a.src, a.dst, gl, a.out, a.into, false);
      var again := Reposted(s'.books.rows, s'.moves[id], id, a.src, a.dst, s'.moves[id].quantity, gl);
      first.Some? ==>
        && again.Some? && Balanced(again.value)
        && (again == first <==> a.mv.isInventory || (a.out >= 0.0 && a.into >= 0.0))
  {
    hide Finish, Mint, LinesOf, Envelope, Contract, Sound, Step, Exec, AllUnmoved, Legal, Run;
    var c := FinishCmd(id, policy, child, cands);
    FinishExec(s, id, policy, child, cands);
    FinishBooks(s, id, policy, child, cands);
    FinishLeaves(s, id, policy, child, cands);
    DoneIsDone(s, id, policy, child, cands);
    var s1, s', a := Step(s, c), Run(Step(s, c), after), ArmedBy(s, id);
    RunKeepsDone(s1, after, id, ReadOutW(id));
    RunKeepsDone(s1, after, id, ReadInW(id));
    SameEnvelope(a.mv.(quantity := s'.moves[id].quantity), s'.moves[id], a.src, a.dst, gl,
      ReadOut(s'.books.rows, id), ReadIn(s'.books.rows, id));
    if Envelope(a.mv, a.src, a.dst, gl, a.out, a.into, false).Some? {
      RepostRebuildsTheEnvelope(s.books, a.mv, id, a.src, a.dst, Sum(LinesOf(s.lines, id), QtyOf), gl);
    }
  }

  lemma FinishExec(s: Estate, id: Id, policy: Policy, child: Id, cands: seq<Dims>)
    requires var c := FinishCmd(id, policy, child, cands); Contract(s, c) && Exec(s, c).Ok?
    ensures Finish(s, id, policy, child, cands) == Ok(Step(s, FinishCmd(id, policy, child, cands)))
    ensures Fresh(s.moves, child)
  {
    hide Finish;
  }
}
