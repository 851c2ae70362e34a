/** Runs of the engine: any sequence of verbs, each a committed transaction or a refusal that
    rolled back, from an empty estate. */
module Runs {
  import opened Common
  import opened StockTypes
  import opened Valuation
  import opened ValuationLaws
  import opened Reservation
  import opened StockTotals
  import opened Engine
  import opened Invariants
  import opened Soundness
  import opened SoundDone

  datatype Cmd =
    | CreateCmd(id: Id, m: NewMove)
    | ConfirmCmd(id: Id)
    | AssignCmd(id: Id, cands: seq<Dims>)
    | UnreserveCmd(id: Id)
    | DemandLineCmd(id: Id)
    | FinishCmd(id: Id, policy: Policy, child: Id, cands: seq<Dims>)
    | CancelCmd(id: Id)
    | RevalueCmd(id: Id, lc: Id, line: Id, delta: real)
    | ShrinkCmd(line: nat, qty: real)

  /** An operator lowers the quantity of a line not yet done. */
  function Shrink(s: Estate, i: nat, qty: real): Outcome<Estate> {
    if i >= |s.lines| || !Live(s.lines[i].state) then Err(NotFound)
    else if qty < 0.0 || qty > s.lines[i].qty then Err(NegativeQuantity)
    else Ok(s.(lines := s.lines[i := s.lines[i].(qty := qty)]))
  }

  function Revalued(s: Estate, id: Id, lc: Id, line: Id, delta: real): Outcome<Estate> {
    if id !in s.moves then Err(NotFound) else
    match AdjustMoveValue(s.books, s.moves[id].item, LocAt(s.locs, s.moves[id].dst), lc, line, delta)
    case Err(e) => Err(e)
    case Ok(books) => Ok(s.(books := books))
  }

  ghost function Exec(s: Estate, c: Cmd): Outcome<Estate> {
    match c
    case CreateCmd(id, m) => Create(s, id, m)
    case ConfirmCmd(id) => Confirm(s, id)
    case AssignCmd(id, cands) => Assign(s, id, cands)
    case UnreserveCmd(id) => Unreserve(s, id)
    case DemandLineCmd(id) => MintDemandLine(s, id)
    case FinishCmd(id, policy, child, cands) => Finish(s, id, policy, child, cands)
    case CancelCmd(id) => Cancel(s, id)
    case RevalueCmd(id, lc, line, delta) => Revalued(s, id, lc, line, delta)
    case ShrinkCmd(line, qty) => Shrink(s, line, qty)
  }

  ghost function Step(s: Estate, c: Cmd): Estate {
    match Exec(s, c) case Ok(s') => s' case Err(_) => s
  }

  /** What the stores answer: newly drawn ids, and candidates at the move's own source. */
  predicate Contract(s: Estate, c: Cmd) {
    match c
    case CreateCmd(id, m) => Fresh(s.moves, id) && id !in m.orig
    case AssignCmd(id, cands) => id in s.moves ==> CandidatesOf(cands, s.moves[id].item, s.moves[id].src)
    case FinishCmd(id, _, child, cands) => Fresh(s.moves, child)
      && (id in s.moves ==> CandidatesOf(cands, s.moves[id].item, s.moves[id].src))
    case _ => true
  }

  ghost function Run(s: Estate, cs: seq<Cmd>): Estate {
    if cs == [] then s else Step(Run(s, cs[..|cs| - 1]), cs[|cs| - 1])
  }

  ghost predicate Legal(s: Estate, cs: seq<Cmd>) {
    cs == [] || (var n := |cs| - 1; Legal(s, cs[..n]) && Contract(Run(s, cs[..n]), cs[n]))
  }

  /** No operator edit of a line's quantity in the run. */
  predicate EngineOnly(cs: seq<Cmd>) { forall c :: c in cs ==> !c.ShrinkCmd? }

  function EmptyEstate(locs: map<Loc, Location>): Estate { Estate(locs, map[], [], map[], EmptyBooks, map[]) }

  // ---- cancel ----------------------------------------------------------------------

  lemma CancelMirror(lines: seq<Line>, ms: set<Id>, d: Dims)
    requires QtysNonNegative(lines)
    ensures 0.0 <= Mirror(CancelLines(lines, ms), d) <= Mirror(lines, d)
    ensures d !in TouchedBy(lines, ms) ==> Mirror(CancelLines(lines, ms), d) == Mirror(lines, d)
  {
    var after := CancelLines(lines, ms);
    forall i | 0 <= i < |lines| ensures 0.0 <= LiveW(d)(after[i]) <= LiveW(d)(lines[i])
      ensures d !in TouchedBy(lines, ms) ==> LiveW(d)(after[i]) == LiveW(d)(lines[i])
    {
      assert lines[i] in lines;
    }
    SumNonNegative(after, LiveW(d));
    SumLe(after, lines, LiveW(d), LiveW(d));
    if d !in TouchedBy(lines, ms) { SumEqual(after, lines, LiveW(d), LiveW(d)); }
  }

  lemma CancelQty(lines: seq<Line>, ms: set<Id>, m: Id)
    ensures MoveQty(CancelLines(lines, ms), m) == if m in ms then 0.0 else MoveQty(lines, m)
  {
    if m in ms {
      SumZero(CancelLines(lines, ms), OfW(m));
    } else {
      SumEqual(CancelLines(lines, ms), lines, OfW(m), OfW(m));
    }
  }

  predicate AllLive(moves: map<Id, Move>, ms: set<Id>) { forall m :: m in ms ==> m in moves && Live(moves[m].state) }

  lemma CancelChained(s: Estate, ms: set<Id>, exact: bool)
    requires Sound(s, exact) && AllLive(s.moves, ms)
    ensures var after := CancelMoves(s.moves, ms);
      Chained(after, None) && Posted(s.locs, after, s.books.rows) && Splits(after, s.backorders)
  {
    var after := CancelMoves(s.moves, ms);
    hide Posted, Splits, Triangle, Mirrored, Agree, Reconstructs, Shape;
    RestatedLedger(s.locs, s.moves, after, s.books.rows, s.backorders);
    ChainedFrame(s.moves, after, None);
  }

  lemma CancelTriangle(s: Estate, ms: set<Id>, exact: bool)
    requires Sound(s, exact)
    ensures var s' := CancelAll(s, ms);
      Triangle(s.locs, s'.lines, s'.quants, exact) && Agree(s.locs, s'.quants, s.books.bins)
  {
    var s' := CancelAll(s, ms);
    QtysOk(s.locs, s.moves, s.lines);
    forall d: Dims {:trigger QuantAt(s'.quants, d)} | IsInternal(s.locs, d.loc)
      ensures Corner(s'.lines, QuantAt(s'.quants, d), d, exact) {
      assert Corner(s.lines, QuantAt(s.quants, d), d, exact);
      CancelMirror(s.lines, ms, d);
    }
    forall k {:trigger BinAt(s.books.bins, k)} ensures OnHand(s.locs, s'.quants, k) == BinAt(s.books.bins, k).qty {
      RecomputeKeepsAgree(s.locs, s.quants, s'.lines, TouchedBy(s.lines, ms), k);
    }
  }

  /** Cancelling any set of live moves, each freeing what it held, keeps the estate sound. */
  lemma CancelAllSound(s: Estate, ms: set<Id>, exact: bool)
    requires Sound(s, exact) && AllLive(s.moves, ms)
    ensures Sound(CancelAll(s, ms), exact)
  {
    var s' := CancelAll(s, ms);
    CancelChained(s, ms, exact);
    CancelTriangle(s, ms, exact);
    CancelShape(s, ms);
    hide Posted, Splits, Triangle, Agree, Reconstructs, Shape, Chained;
    forall m {:trigger s'.moves[m]} | m in s'.moves
      ensures MoveMirror(s'.moves[m], IsInternal(s.locs, s'.moves[m].src), MoveQty(s'.lines, m), exact) {
      CancelQty(s.lines, ms, m);
      assert MoveMirror(s.moves[m], IsInternal(s.locs, s.moves[m].src), MoveQty(s.lines, m), exact);
    }
  }

  lemma CancelShape(s: Estate, ms: set<Id>)
    requires Shape(s.locs, s.moves, s.lines) && AllLive(s.moves, ms)
    ensures Shape(s.locs, CancelMoves(s.moves, ms), CancelLines(s.lines, ms))
  {
    var lines := CancelLines(s.lines, ms);
    var moves := CancelMoves(s.moves, ms);
    forall l | l in lines ensures l.mv in moves && LineOk(moves[l.mv], l) {
      var i :| 0 <= i < |s.lines| && l == CancelLine(s.lines[i], ms);
      assert s.lines[i] in s.lines;
      assert LineOk(s.moves[l.mv], s.lines[i]);
    }
    forall m | m in moves ensures MoveOk(s.locs, moves[m]) { assert MoveOk(s.locs, s.moves[m]); }
  }

  lemma CancelSetLive(moves: map<Id, Move>, root: Id)
    requires root in moves && Live(moves[root].state)
    ensures AllLive(moves, CancelSet(moves, root))
  {
    forall m | m in CancelSet(moves, root) ensures Live(moves[m].state) {
      var path :| CancelPath(moves, path, root, m);
      if |path| > 1 { assert CancelHop(moves, path[|path| - 2], path[|path| - 2 + 1]); }
    }
  }

  // ---- shrink and revalue -----------------------------------------------------------

  lemma ShrinkTriangle(s: Estate, i: nat, qty: real)
    requires Triangle(s.locs, s.lines, s.quants, false) && QtysNonNegative(s.lines) && Shrink(s, i, qty).Ok?
    ensures Triangle(s.locs, Shrink(s, i, qty).value.lines, s.quants, false)
  {
    var l := s.lines[i].(qty := qty);
    var lines := s.lines[i := l];
    assert QtysNonNegative(lines) by {
      forall x | x in lines ensures x.qty >= 0.0 { if x != l { assert x in s.lines; } }
    }
    forall d: Dims {:trigger QuantAt(s.quants, d)} | IsInternal(s.locs, d.loc)
      ensures Corner(lines, QuantAt(s.quants, d), d, false) {
      assert Corner(s.lines, QuantAt(s.quants, d), d, false);
      SumUpdate(s.lines, i, l, LiveW(d));
      MirrorNonNegative(lines, d);
    }
  }

  lemma ShrinkMirrored(s: Estate, i: nat, qty: real)
    requires Mirrored(s.locs, s.moves, s.lines, false) && QtysNonNegative(s.lines) && Shrink(s, i, qty).Ok?
    ensures Mirrored(s.locs, s.moves, Shrink(s, i, qty).value.lines, false)
  {
    var l := s.lines[i].(qty := qty);
    var lines := s.lines[i := l];
    assert QtysNonNegative(lines) by {
      forall x | x in lines ensures x.qty >= 0.0 { if x != l { assert x in s.lines; } }
    }
    forall m {:trigger s.moves[m]} | m in s.moves
      ensures MoveMirror(s.moves[m], IsInternal(s.locs, s.moves[m].src), MoveQty(lines, m), false) {
      SumUpdate(s.lines, i, l, OfW(m));
      SumNonNegative(lines, OfW(m));
      assert MoveMirror(s.moves[m], IsInternal(s.locs, s.moves[m].src), MoveQty(s.lines, m), false);
    }
  }

  lemma ShrinkSound(s: Estate, i: nat, qty: real)
    requires Sound(s, false) && Shrink(s, i, qty).Ok?
    ensures Sound(Shrink(s, i, qty).value, false)
  {
    var l := s.lines[i].(qty := qty);
    hide Splits, Posted, Reconstructs, Chained, Agree, Triangle, Mirrored;
    QtysOk(s.locs, s.moves, s.lines);
    assert s.lines[i] in s.lines;
    forall x | x in s.lines[i := l] ensures x.mv in s.moves && LineOk(s.moves[x.mv], x) {
      if x != l { assert x in s.lines; } else { assert LineOk(s.moves[l.mv], s.lines[i]); }
    }
    ShrinkTriangle(s, i, qty);
    ShrinkMirrored(s, i, qty);
  }

  lemma RevaluedSound(s: Estate, id: Id, lc: Id, line: Id, delta: real, exact: bool)
    requires Sound(s, exact) && Revalued(s, id, lc, line, delta).Ok?
    ensures Sound(Revalued(s, id, lc, line, delta).value, exact)
  {
    hide Splits, Triangle, Mirrored, Shape, Chained;
    var s' := Revalued(s, id, lc, line, delta).value;
    var dst := LocAt(s.locs, s.moves[id].dst);
    AdjustReconstructs(s.books, s.moves[id].item, dst, lc, line, delta);
    if s'.books != s.books {
      var k0 := KeyOf(s.moves[id].item, dst).value;
      var after := StepBin(BinAt(s.books.bins, k0), Revalue(delta));
      hide StepBin;
      forall k {:trigger BinAt(s'.books.bins, k)} ensures OnHand(s.locs, s.quants, k) == BinAt(s'.books.bins, k).qty {
        RevalueKeepsQty(BinAt(s.books.bins, k0), delta);
        var _ := BinAt(s.books.bins, k);
      }
      forall m {:trigger Unposted(s'.books.rows, StockEntry(m))}
        ensures (m in s.moves && s.moves[m].state == Done) || Unposted(s'.books.rows, StockEntry(m)) {
        assert (m in s.moves && s.moves[m].state == Done) || Unposted(s.books.rows, StockEntry(m));
      }
      forall m | m in s.moves && s.moves[m].state == Done
        ensures PostedOnce(s.locs, s.moves[m], s'.books.rows, StockEntry(m)) {
        assert PostedOnce(s.locs, s.moves[m], s.books.rows, StockEntry(m));
        forall k { PostVoucher(s.books, LandedCost(lc, line), k0, 0.0, 0.0, after, delta, StockEntry(m), k); }
      }
    }
  }

  lemma RevalueKeepsQty(b: Bin, delta: real)
    ensures StepBin(b, Revalue(delta)).qty == b.qty
  {
  }

  // ---- the run theorem -----------------------------------------------------------------

  lemma StepSound(s: Estate, c: Cmd, exact: bool)
    requires Sound(s, exact) && Contract(s, c) && (exact ==> !c.ShrinkCmd?)
    ensures Sound(Step(s, c), exact)
  {
    if Exec(s, c).Ok? {
      match c
      case CreateCmd(id, m) => CreateSound(s, id, m, exact);
      case ConfirmCmd(id) => ConfirmSound(s, id, exact, None);
      case AssignCmd(id, cands) => AssignCoreSound(s, id, cands, exact, None);
      case UnreserveCmd(id) => UnreserveSound(s, id, exact);
      case DemandLineCmd(id) => DemandLineSound(s, id, exact);
      case FinishCmd(id, policy, child, cands) => FinishSound(s, id, policy, child, cands, exact);
      case CancelCmd(id) => CancelSetLive(s.moves, id); CancelAllSound(s, CancelSet(s.moves, id), exact);
      case RevalueCmd(id, lc, line, delta) => RevaluedSound(s, id, lc, line, delta, exact);
      case ShrinkCmd(line, qty) => ShrinkSound(s, line, qty);
    }
  }

  lemma EmptySound(locs: map<Loc, Location>, exact: bool)
    ensures Sound(EmptyEstate(locs), exact)
  {
  }

  /** Over every run from the empty estate: the triangle with its mirror exact unless an operator
      shrank a line, the chain order, the backorder split, the agreement of quants and bins, the
      ledger that reconstructs the bins, and each done move posted once. */
  lemma {:induction false} EveryRunIsSound(locs: map<Loc, Location>, cs: seq<Cmd>, exact: bool)
    requires Legal(EmptyEstate(locs), cs) && (exact ==> EngineOnly(cs))
    ensures Sound(Run(EmptyEstate(locs), cs), exact)
  {
    EmptySound(locs, exact);
    if cs != [] {
      var n := |cs| - 1;
      EveryRunIsSound(locs, cs[..n], exact);
      assert cs[n] in cs;
      StepSound(Run(EmptyEstate(locs), cs[..n]), cs[n], exact);
    }
  }
}
