/** Every verb of the engine keeps the estate sound. */
module Soundness {
  import opened Common
  import opened StockTypes
  import opened Valuation
  import opened Reservation
  import opened StockTotals
  import opened Engine
  import opened Invariants

  /** A newly drawn id: of no move, and named by none as a parent. */
  predicate Fresh(moves: map<Id, Move>, id: Id) { id !in moves && forall m :: m in moves ==> id !in moves[m].orig }

  /** Reservation candidates are quants of the item at exactly the source location. */
  predicate CandidatesOf(cands: seq<Dims>, item: Item, src: Loc) {
    forall d: Dims :: d in cands ==> d.item == item && d.loc == src
  }

  // ---- create -------------------------------------------------------------------

  lemma InsertAt(moves: map<Id, Move>, id: Id, m: NewMove, p: Id)
    requires id !in moves && id !in m.orig && p in moves
    ensures var after := Insert(moves, id, m);
      && p in after && after[p] == moves[p].(dest := after[p].dest)
      && (forall c :: c in moves[p].dest ==> c in after[p].dest)
      && (p in m.orig ==> id in after[p].dest)
  {
  }

  lemma InsertChained(moves: map<Id, Move>, id: Id, m: NewMove, just: Option<Id>)
    requires Chained(moves, just) && Fresh(moves, id) && id !in m.orig
    ensures Chained(Insert(moves, id, m), just)
  {
    var after := Insert(moves, id, m);
    assert after.Keys == moves.Keys + {id};
    forall p | p in moves
      ensures after[p] == moves[p].(dest := after[p].dest) && (forall c :: c in moves[p].dest ==> c in after[p].dest)
      ensures p in m.orig ==> id in after[p].dest
    {
      InsertAt(moves, id, m, p);
    }
    forall c {:trigger InOrder(after, c, just)} | c in after ensures InOrder(after, c, just) {
      if c != id {
        assert InOrder(moves, c, just);
        SameParents(moves, after, moves[c], after[c]);
      }
    }
    forall c, p {:trigger Linked(after, c, p)} ensures Linked(after, c, p) {
      assert Linked(moves, c, p);
    }
  }

  lemma InsertShape(s: Estate, id: Id, m: NewMove, exact: bool)
    requires Shape(s.locs, s.moves, s.lines) && Mirrored(s.locs, s.moves, s.lines, exact)
    requires Fresh(s.moves, id) && id !in m.orig && MoveOk(s.locs, DraftOf(m))
    ensures var after := Insert(s.moves, id, m);
      Shape(s.locs, after, s.lines) && Mirrored(s.locs, after, s.lines, exact)
  {
    var after := Insert(s.moves, id, m);
    forall l | l in s.lines ensures l.mv in after && LineOk(after[l.mv], l) { assert LineOk(s.moves[l.mv], l); }
    forall c {:trigger after[c]} | c in after ensures MoveOk(s.locs, after[c])
      ensures MoveMirror(after[c], IsInternal(s.locs, after[c].src), MoveQty(s.lines, c), exact)
    {
      if c == id {
        MoveQtyNone(s.lines, id);
      } else {
        var mv := s.moves[c];
        assert MoveOk(s.locs, mv) && MoveMirror(mv, IsInternal(s.locs, mv.src), MoveQty(s.lines, c), exact);
      }
    }
  }

  lemma InsertKeeps(s: Estate, id: Id, m: NewMove, exact: bool, just: Option<Id>)
    requires SoundBut(s, exact, just) && Fresh(s.moves, id) && id !in m.orig && MoveOk(s.locs, DraftOf(m))
    ensures SoundBut(s.(moves := Insert(s.moves, id, m)), exact, just)
  {
    var after := Insert(s.moves, id, m);
    hide Chained, Triangle, Agree, Reconstructs, Shape, Mirrored, Posted, Splits;
    InsertShape(s, id, m, exact);
    InsertChained(s.moves, id, m, just);
    PostedFrame(s.locs, s.moves, after, s.books.rows);
    SplitsFrame(s.moves, after, s.backorders);
  }

  lemma CreateSound(s: Estate, id: Id, m: NewMove, exact: bool)
    requires Sound(s, exact) && Fresh(s.moves, id) && id !in m.orig && Create(s, id, m).Ok?
    ensures Sound(Create(s, id, m).value, exact)
  {
    InsertKeeps(s, id, m, exact, None);
  }

  // ---- confirm --------------------------------------------------------------------

  lemma ConfirmChained(moves: map<Id, Move>, id: Id, just: Option<Id>)
    requires Chained(moves, just) && id in moves && moves[id].state == Draft
    ensures Chained(moves[id := moves[id].(state := ConfirmedState(moves, moves[id]))], just)
  {
    var after := moves[id := moves[id].(state := ConfirmedState(moves, moves[id]))];
    forall c {:trigger InOrder(after, c, just)} | c in after ensures InOrder(after, c, just) {
      assert InOrder(moves, c, just);
      SameParents(moves, after, moves[c], after[c]);
    }
    forall c, p {:trigger Linked(after, c, p)} ensures Linked(after, c, p) {
      assert Linked(moves, c, p);
    }
  }

  lemma ConfirmSound(s: Estate, id: Id, exact: bool, just: Option<Id>)
    requires SoundBut(s, exact, just) && Confirm(s, id).Ok?
    ensures SoundBut(Confirm(s, id).value, exact, just)
  {
    var mv := s.moves[id];
    var after := s.moves[id := mv.(state := ConfirmedState(s.moves, mv))];
    hide Posted, Splits, Chained, Triangle, Agree, Reconstructs, Shape, Mirrored;
    ConfirmChained(s.moves, id, just);
    RestatedLedger(s.locs, s.moves, after, s.books.rows, s.backorders);
    RestatedShape(s, after);
    ConfirmMirrored(s, id, exact);
  }

  lemma ConfirmMirrored(s: Estate, id: Id, exact: bool)
    requires Mirrored(s.locs, s.moves, s.lines, exact) && id in s.moves && s.moves[id].state == Draft
    ensures Mirrored(s.locs, s.moves[id := s.moves[id].(state := ConfirmedState(s.moves, s.moves[id]))], s.lines, exact)
  {
    var after := s.moves[id := s.moves[id].(state := ConfirmedState(s.moves, s.moves[id]))];
    forall c {:trigger after[c]} | c in after
      ensures MoveMirror(after[c], IsInternal(s.locs, after[c].src), MoveQty(s.lines, c), exact) {
      var was := s.moves[c];
      assert MoveMirror(was, IsInternal(s.locs, was.src), MoveQty(s.lines, c), exact);
    }
  }

  lemma RestatedShape(s: Estate, after: map<Id, Move>)
    requires Shape(s.locs, s.moves, s.lines) && StatesOnly(s.moves, after)
    requires forall m {:trigger after[m]} :: m in after ==> (Live(after[m].state) <==> Live(s.moves[m].state))
    ensures Shape(s.locs, after, s.lines)
  {
    forall m | m in after ensures MoveOk(s.locs, after[m]) {
      assert MoveOk(s.locs, s.moves[m]) && after[m] == s.moves[m].(state := after[m].state);
    }
    forall l | l in s.lines ensures l.mv in after && LineOk(after[l.mv], l) {
      assert LineOk(s.moves[l.mv], l);
      var _ := after[l.mv];
    }
  }

  // ---- assign -----------------------------------------------------------------------

  /** The lines an assign mints belong to the move, and together with what it held stay within
      its demand; the state it reaches is the aggregate of exactly that. */
  lemma ReservationsFit(s: Estate, id: Id, cands: seq<Dims>, exact: bool, just: Option<Id>)
    requires SoundBut(s, exact, just) && id in s.moves && CandidatesOf(cands, s.moves[id].item, s.moves[id].src)
    requires s.moves[id].state == Confirmed || s.moves[id].state == PartiallyAvailable
    ensures var mv := s.moves[id]; var r := Reservations(s, id, cands);
      var held := MoveQty(s.lines, id) + Sum(r.lines, QtyOf);
      && (forall l :: l in r.lines ==> l.mv == id && LineOk(mv, l))
      && 0.0 <= held <= mv.demand
      && r.took == held
  {
    var mv := s.moves[id];
    var already := MoveQty(s.lines, id);
    assert MoveMirror(mv, IsInternal(s.locs, mv.src), already, exact);
    if IsInternal(s.locs, mv.src) {
      ReserveMints(s.quants, cands, mv.demand - already, id, mv.dst, mv.state);
      ReserveSum(s.quants, cands, mv.demand - already, id, mv.dst, mv.state);
      ReserveTakes(s.quants, cands, mv.demand - already, id, mv.dst, mv.state);
      forall l | l in Reservations(s, id, cands).lines ensures l.mv == id && LineOk(mv, l) {
        assert MintedFor(l, cands, id, mv.dst, mv.state);
      }
    } else if already < mv.demand {
      SumAppend([], DemandLine(mv, id, mv.demand - already), QtyOf);
      assert [] + [DemandLine(mv, id, mv.demand - already)] == [DemandLine(mv, id, mv.demand - already)];
    }
  }

  /** Capped at the demand, what an assign reports as taken is what the move's lines then hold. */
  lemma TookIsHeld(s: Estate, id: Id, cands: seq<Dims>)
    requires id in s.moves && AssignCore(s, id, cands).Ok?
    ensures var demand := s.moves[id].demand; var took := Reservations(s, id, cands).took;
      var held := MoveQty(AssignCore(s, id, cands).value.lines, id);
      (if demand < took then demand else took) == (if demand < held then demand else held)
  {
    var mv := s.moves[id];
    var already := MoveQty(s.lines, id);
    var r := Reservations(s, id, cands);
    ReserveMints(s.quants, cands, mv.demand - already, id, mv.dst, mv.state);
    ReserveSum(s.quants, cands, mv.demand - already, id, mv.dst, mv.state);
    forall l | l in r.lines ensures l.mv == id { }
    MoveQtyAppend(s.lines, r.lines, id, id);
    MoveQtyStamp(s.lines + r.lines, id, AssignedState(mv.demand, r.took), id);
    var l := DemandLine(mv, id, mv.demand - already);
    SumAppend([], l, QtyOf);
    assert [] + [l] == [l];
    hide Reserve, MoveQty;
  }

  lemma ReservationsKeepTriangle(s: Estate, id: Id, cands: seq<Dims>, exact: bool, just: Option<Id>)
    requires SoundBut(s, exact, just) && id in s.moves && Live(s.moves[id].state)
    ensures var r := Reservations(s, id, cands);
      && Triangle(s.locs, s.lines + r.lines, r.quants, exact)
      && (forall d :: QuantAt(r.quants, d).quantity == QuantAt(s.quants, d).quantity)
      && s.quants.Keys <= r.quants.Keys
  {
    hide Posted, Splits, Chained, Agree, Reconstructs, Mirrored, Shape;
    var mv := s.moves[id];
    var r := Reservations(s, id, cands);
    if IsInternal(s.locs, mv.src) {
      ReserveKeepsTriangle(s.locs, s.lines, s.quants, exact, cands, mv.demand - MoveQty(s.lines, id), id, mv.dst,
        mv.state);
      ReserveKeys(s.quants, cands, mv.demand - MoveQty(s.lines, id), id, mv.dst, mv.state);
    } else {
      OutsideLineKeepsTriangle(s, id, r.lines, exact);
    }
    hide Triangle, Reserve;
  }

  lemma {:induction false} ReserveKeys(quants: map<Dims, Quant>, cands: seq<Dims>, need: real, m: Id, dstLoc: Loc,
      st: MoveState)
    ensures quants.Keys <= Reserve(quants, cands, need, m, dstLoc, st).quants.Keys
    decreases |cands|
  {
    if cands != [] && need > 0.0 {
      var free := Free(quants, cands[0]);
      var take := if free < need then free else need;
      var q := QuantAt(quants, cands[0]);
      ReserveKeys(quants, cands[1..], need, m, dstLoc, st);
      ReserveKeys(quants[cands[0] := Quant(q.quantity, q.reserved + take)], cands[1..], need - take, m, dstLoc, st);
    }
  }

  lemma OutsideLineKeepsTriangle(s: Estate, id: Id, more: seq<Line>, exact: bool)
    requires Triangle(s.locs, s.lines, s.quants, exact)
    requires |more| <= 1 && forall l :: l in more ==> !IsInternal(s.locs, l.src.loc)
    ensures Triangle(s.locs, s.lines + more, s.quants, exact)
  {
    if more == [] {
      assert s.lines + more == s.lines;
    } else {
      assert more == [more[0]] && more[0] in more;
      forall d: Dims {:trigger QuantAt(s.quants, d)} | IsInternal(s.locs, d.loc)
        ensures Corner(s.lines + more, QuantAt(s.quants, d), d, exact) {
        assert Corner(s.lines, QuantAt(s.quants, d), d, exact);
        AppendMirror(s.lines, more[0], d);
      }
    }
  }

  lemma AssignCoreSound(s: Estate, id: Id, cands: seq<Dims>, exact: bool, just: Option<Id>)
    requires SoundBut(s, exact, just) && id in s.moves && CandidatesOf(cands, s.moves[id].item, s.moves[id].src)
    requires s.moves[id].state == Confirmed || s.moves[id].state == PartiallyAvailable
    requires AssignCore(s, id, cands).Ok?
    ensures SoundBut(AssignCore(s, id, cands).value, exact, just)
  {
    var mv := s.moves[id];
    var r := Reservations(s, id, cands);
    var to := AssignedState(mv.demand, r.took);
    var s' := AssignCore(s, id, cands).value;
    hide Posted, Splits, Chained, Reconstructs, Reservations;
    ReservationsFit(s, id, cands, exact, just);
    ReservationsKeepTriangle(s, id, cands, exact, just);
    AssignMoves(s, id, to, exact, just);
    var grown := s.lines + r.lines;
    forall l | l in grown ensures l.mv in s.moves && LineOk(s.moves[l.mv], l) { }
    StampKeepsTriangle(s.locs, grown, r.quants, exact, id, to);
    StampShape(s.locs, s.moves, s'.moves, grown, id, to);
    forall m {:trigger s'.moves[m]} | m in s'.moves
      ensures MoveMirror(s'.moves[m], IsInternal(s.locs, s'.moves[m].src), MoveQty(s'.lines, m), exact)
    {
      MoveQtyStamp(grown, id, to, m);
      MoveQtyAppend(s.lines, r.lines, id, m);
      var was := s.moves[m];
      assert MoveMirror(was, IsInternal(s.locs, was.src), MoveQty(s.lines, m), exact);
      assert MoveOk(s.locs, was);
    }
    forall k {:trigger BinAt(s.books.bins, k)} ensures OnHand(s.locs, s'.quants, k) == BinAt(s.books.bins, k).qty {
      SameQuantities(s.locs, s.quants, r.quants, k);
    }
  }

  lemma AssignMoves(s: Estate, id: Id, to: MoveState, exact: bool, just: Option<Id>)
    requires SoundBut(s, exact, just) && id in s.moves && Ready(s.moves[id].state) && Ready(to)
    ensures var after := s.moves[id := s.moves[id].(state := to)];
      Chained(after, just) && Posted(s.locs, after, s.books.rows) && Splits(after, s.backorders)
  {
    var after := s.moves[id := s.moves[id].(state := to)];
    hide Posted, Splits, Triangle, Mirrored, Agree, Reconstructs, Shape;
    ChainedFrame(s.moves, after, just);
    RestatedLedger(s.locs, s.moves, after, s.books.rows, s.backorders);
  }

  lemma StampShape(locs: map<Loc, Location>, moves: map<Id, Move>, after: map<Id, Move>, lines: seq<Line>, id: Id,
      st: MoveState)
    requires Shape(locs, moves, lines) && id in moves && id in after
    requires after == moves[id := moves[id].(state := st, quantity := after[id].quantity)]
    ensures Shape(locs, after, StampLines(lines, id, st))
  {
    forall l | l in StampLines(lines, id, st) ensures l.mv in after && LineOk(after[l.mv], l) {
      var i :| 0 <= i < |lines| && l == StampLine(lines[i], id, st);
      assert lines[i] in lines;
      assert LineOk(moves[lines[i].mv], lines[i]);
    }
    assert MoveOk(locs, moves[id]);
  }

  // ---- unreserve -----------------------------------------------------------------------

  lemma RecomputeKeepsAgree(locs: map<Loc, Location>, quants: map<Dims, Quant>, lines: seq<Line>, ds: set<Dims>,
      k: BinKey)
    ensures OnHand(locs, Recompute(quants, lines, ds), k) == OnHand(locs, quants, k)
  {
    SameQuantities(locs, quants, Recompute(quants, lines, ds), k);
  }

  lemma UnreserveSound(s: Estate, id: Id, exact: bool)
    requires Sound(s, exact) && id in s.moves
    ensures Sound(UnreserveLines(s, id), exact)
  {
    var s' := UnreserveLines(s, id);
    hide Posted, Splits, Chained, Reconstructs;
    QtysOk(s.locs, s.moves, s.lines);
    UnreserveKeepsTriangle(s.locs, s.lines, s.quants, exact, id);
    forall l | l in s'.lines ensures l.mv in s.moves && LineOk(s.moves[l.mv], l) {
      var i :| 0 <= i < |s.lines| && l == ZeroLine(s.lines[i], id);
      assert s.lines[i] in s.lines;
    }
    forall m {:trigger s.moves[m]} | m in s.moves
      ensures MoveMirror(s.moves[m], IsInternal(s.locs, s.moves[m].src), MoveQty(s'.lines, m), exact)
    {
      MoveQtyZero(s.lines, id, m);
      assert MoveMirror(s.moves[m], IsInternal(s.locs, s.moves[m].src), MoveQty(s.lines, m), exact);
      assert MoveOk(s.locs, s.moves[m]);
    }
    forall k {:trigger BinAt(s.books.bins, k)} ensures OnHand(s.locs, s'.quants, k) == BinAt(s.books.bins, k).qty {
      RecomputeKeepsAgree(s.locs, s.quants, s'.lines, Touched(s.lines, id), k);
    }
  }

  // ---- the external demand line -------------------------------------------------------------

  lemma NoLinesNoQty(lines: seq<Line>, id: Id)
    requires LinesOf(lines, id) == []
    ensures MoveQty(lines, id) == 0.0
  {
    LinesOfMembers(lines, id);
    MoveQtyNone(lines, id);
  }

  lemma DemandLineMirrored(s: Estate, id: Id, l: Line, exact: bool)
    requires Sound(s, exact) && id in s.moves && LinesOf(s.lines, id) == []
    requires l == DemandLine(s.moves[id], id, s.moves[id].demand) && !IsInternal(s.locs, s.moves[id].src)
      && s.moves[id].state != Draft
    ensures Mirrored(s.locs, s.moves, s.lines + [l], exact)
  {
    NoLinesNoQty(s.lines, id);
    SumAppend([], l, QtyOf);
    assert [] + [l] == [l];
    forall m {:trigger s.moves[m]} | m in s.moves
      ensures MoveMirror(s.moves[m], IsInternal(s.locs, s.moves[m].src), MoveQty(s.lines + [l], m), exact)
    {
      MoveQtyAppend(s.lines, [l], id, m);
      assert MoveOk(s.locs, s.moves[m]);
      assert MoveMirror(s.moves[m], IsInternal(s.locs, s.moves[m].src), MoveQty(s.lines, m), exact);
    }
  }

  lemma DemandLineSound(s: Estate, id: Id, exact: bool)
    requires Sound(s, exact) && MintDemandLine(s, id).Ok?
    ensures Sound(MintDemandLine(s, id).value, exact)
  {
    var s' := MintDemandLine(s, id).value;
    if s' != s {
      var l := DemandLine(s.moves[id], id, s.moves[id].demand);
      OutsideLineKeepsTriangle(s, id, [l], exact);
      DemandLineMirrored(s, id, l, exact);
    }
  }
}
