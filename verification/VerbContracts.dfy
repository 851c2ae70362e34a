/** What each reserving verb does in a sound estate, said without its body: an assign takes all it
    can and nothing else, an unreserve gives back exactly what an assign took, and a done moves
    exactly the stock its lines held. */
module VerbContracts {
  import opened Common
  import opened StockTypes
  import opened Reservation
  import opened StockTotals
  import opened Engine
  import opened Invariants
  import opened Soundness
  import opened SoundDone
  import opened Guarantees

  lemma {:induction false} OthersAppend(lines: seq<Line>, more: seq<Line>, id: Id, m: Id)
    requires m != id && forall l :: l in more ==> l.mv == id
    ensures LinesOf(lines + more, m) == LinesOf(lines, m)
  {
    if more == [] {
      assert lines + more == lines;
    } else {
      var n := |more| - 1;
      assert more[n] in more;
      OthersAppend(lines, more[..n], id, m);
      assert (lines + more)[..|lines| + n] == lines + more[..n];
    }
  }

  lemma {:induction false} OthersZero(lines: seq<Line>, id: Id, m: Id)
    requires m != id
    ensures LinesOf(ZeroLines(lines, id), m) == LinesOf(lines, m)
  {
    if lines != [] {
      var n := |lines| - 1;
      OthersZero(lines[..n], id, m);
      assert ZeroLines(lines, id)[..n] == ZeroLines(lines[..n], id);
    }
  }

  // ---- assign ---------------------------------------------------------------------------

  /** The quantity an assign leaves on the move's lines, within any transaction. */
  lemma CoreHeld(s: Estate, id: Id, cands: seq<Dims>, exact: bool, just: Option<Id>)
    requires SoundBut(s, exact, just) && id in s.moves && CandidatesOf(cands, s.moves[id].item, s.moves[id].src)
    requires s.moves[id].state == Confirmed || s.moves[id].state == PartiallyAvailable
    requires AssignCore(s, id, cands).Ok?
    ensures var s' := AssignCore(s, id, cands).value; var r := Reservations(s, id, cands);
      && s'.lines == StampLines(s.lines + r.lines, id, s'.moves[id].state)
      && s'.moves == s.moves[id := s.moves[id].(state := s'.moves[id].state)] && s'.quants == r.quants
         && s'.locs == s.locs
      && MoveQty(s'.lines, id) == r.took && 0.0 <= r.took <= s.moves[id].demand
      && MoveQty(s.lines, id) <= r.took
      && (forall l :: l in r.lines ==> l.mv == id && l.qty >= 0.0)
  {
    ReservationsFit(s, id, cands, exact, just);
    var r := Reservations(s, id, cands);
    forall l | l in r.lines ensures l.qty >= 0.0 { assert LineOk(s.moves[id], l); }
    hide Reservations, SoundBut;
    var to := AssignCore(s, id, cands).value.moves[id].state;
    MoveQtyAppend(s.lines, r.lines, id, id);
    MoveQtyStamp(s.lines + r.lines, id, to, id);
    forall i | 0 <= i < |r.lines| ensures QtyOf(r.lines[i]) >= 0.0 { assert r.lines[i] in r.lines; }
    SumNonNegative(r.lines, QtyOf);
  }

  /** The state of a move says how much it holds. */
  predicate StateTells(mv: Move, held: real) {
    && (mv.state == Assigned <==> 0.0 < held == mv.demand)
    && (mv.state == PartiallyAvailable <==> 0.0 < held < mv.demand)
    && (mv.state == Confirmed <==> held == 0.0)
  }

  lemma CoreTakesAllItCan(s: Estate, id: Id, cands: seq<Dims>, exact: bool, just: Option<Id>)
    requires SoundBut(s, exact, just) && id in s.moves && CandidatesOf(cands, s.moves[id].item, s.moves[id].src)
    requires s.moves[id].state == Confirmed || s.moves[id].state == PartiallyAvailable
    requires AssignCore(s, id, cands).Ok?
    ensures var s' := AssignCore(s, id, cands).value; var held := MoveQty(s'.lines, id); var mv := s'.moves[id];
      && MoveQty(s.lines, id) <= held <= mv.demand && StateTells(mv, held)
      && (held == mv.demand || forall d :: d in cands ==> Free(s'.quants, d) <= 0.0)
      && (!IsInternal(s.locs, mv.src) ==> held == mv.demand && s'.quants == s.quants)
  {
    CoreHeld(s, id, cands, exact, just);
    var mv := s.moves[id];
    hide SoundBut;
    if IsInternal(s.locs, mv.src) {
      ReserveTakes(s.quants, cands, mv.demand - MoveQty(s.lines, id), id, mv.dst, mv.state);
      hide Reserve;
    }
  }

  lemma AssignHeld(s: Estate, id: Id, cands: seq<Dims>, exact: bool)
    requires Sound(s, exact) && Assign(s, id, cands).Ok? && CandidatesOf(cands, s.moves[id].item, s.moves[id].src)
    ensures var s' := Assign(s, id, cands).value; var r := Reservations(s, id, cands);
      && s'.lines == StampLines(s.lines + r.lines, id, s'.moves[id].state)
      && s'.moves == s.moves[id := s.moves[id].(state := s'.moves[id].state)] && s'.quants == r.quants
         && s'.locs == s.locs
      && MoveQty(s'.lines, id) == r.took && 0.0 <= r.took <= s.moves[id].demand
      && MoveQty(s.lines, id) <= r.took
      && (forall l :: l in r.lines ==> l.mv == id && l.qty >= 0.0)
  {
    hide SoundBut, Reservations, AssignCore;
    CoreHeld(s, id, cands, exact, None);
  }

  /** The state says how much is held, and either the demand is met or every candidate is exhausted. */
  lemma AssignTakesAllItCan(s: Estate, id: Id, cands: seq<Dims>, exact: bool)
    requires Sound(s, exact) && Assign(s, id, cands).Ok? && CandidatesOf(cands, s.moves[id].item, s.moves[id].src)
    ensures var s' := Assign(s, id, cands).value; var held := MoveQty(s'.lines, id); var mv := s'.moves[id];
      && MoveQty(s.lines, id) <= held <= mv.demand
      && (mv.state == Assigned <==> 0.0 < held == mv.demand)
      && (mv.state == PartiallyAvailable <==> 0.0 < held < mv.demand)
      && (mv.state == Confirmed <==> held == 0.0)
      && (held == mv.demand || forall d :: d in cands ==> Free(s'.quants, d) <= 0.0)
      && (!IsInternal(s.locs, mv.src) ==> held == mv.demand && s'.quants == s.quants)
  {
    hide SoundBut, AssignCore;
    CoreTakesAllItCan(s, id, cands, exact, None);
  }

  /** No other move, no other line and no stock is touched. */
  lemma AssignTouchesNothingElse(s: Estate, id: Id, cands: seq<Dims>, exact: bool, other: Id)
    requires Sound(s, exact) && Assign(s, id, cands).Ok? && CandidatesOf(cands, s.moves[id].item, s.moves[id].src)
      && other != id
    ensures var s' := Assign(s, id, cands).value;
      && LinesOf(s'.lines, other) == LinesOf(s.lines, other)
      && (other in s.moves ==> other in s'.moves && s'.moves[other] == s.moves[other])
      && (forall d :: QuantAt(s'.quants, d).quantity == QuantAt(s.quants, d).quantity)
  {
    AssignHeld(s, id, cands, exact);
    ReservationsKeepTriangle(s, id, cands, exact, None);
    hide Sound, Reservations, Assign;
    var s' := Assign(s, id, cands).value;
    var r := Reservations(s, id, cands);
    OthersAppend(s.lines, r.lines, id, other);
    StampKeepsOthers(s.lines + r.lines, id, s'.moves[id].state, other);
  }

  // ---- unreserve ----------------------------------------------------------------------------

  /** The move holds nothing, its state and every other line are as before, and at every internal
      quant the counter falls by exactly what the move held there. */
  lemma UnreserveGivesBack(s: Estate, id: Id, other: Id, d: Dims)
    requires Sound(s, true) && Unreserve(s, id).Ok? && Live(s.moves[id].state) && other != id
      && IsInternal(s.locs, d.loc)
    ensures var s' := Unreserve(s, id).value;
      && s'.moves == s.moves && MoveQty(s'.lines, id) == 0.0 && LinesOf(s'.lines, other) == LinesOf(s.lines, other)
      && QuantAt(s'.quants, d).quantity == QuantAt(s.quants, d).quantity
      && QuantAt(s'.quants, d).reserved == QuantAt(s.quants, d).reserved - Sum(LinesOf(s.lines, id), SrcW(d))
  {
    var s' := Unreserve(s, id).value;
    QtysOk(s.locs, s.moves, s.lines);
    MoveQtyZero(s.lines, id, id);
    OthersZero(s.lines, id, other);
    UnreserveKeepsTriangle(s.locs, s.lines, s.quants, true, id);
    assert Corner(s.lines, QuantAt(s.quants, d), d, true) && Corner(s'.lines, QuantAt(s'.quants, d), d, true);
    ZeroMirror(s.lines, id, d);
    SumLinesOf(s.lines, id, SrcW(d), HeldW(id, d));
    forall i | 0 <= i < |s.lines|
      ensures LiveW(d)(s.lines[i]) == OtherLiveW(id, d)(s.lines[i]) + HeldW(id, d)(s.lines[i]) {
      assert s.lines[i] in s.lines && LineOk(s.moves[s.lines[i].mv], s.lines[i]);
    }
    SumAdd(s.lines, s.lines, s.lines, LiveW(d), OtherLiveW(id, d), HeldW(id, d));
  }

  /** A move that holds nothing holds nothing anywhere. */
  lemma HoldsNothing(s: Estate, id: Id, d: Dims)
    requires Shape(s.locs, s.moves, s.lines) && MoveQty(s.lines, id) == 0.0
    ensures Sum(LinesOf(s.lines, id), SrcW(d)) == 0.0
  {
    QtysOk(s.locs, s.moves, s.lines);
    SumLinesOf(s.lines, id, SrcW(d), HeldW(id, d));
    forall i | 0 <= i < |s.lines| ensures 0.0 <= HeldW(id, d)(s.lines[i]) <= OfW(id)(s.lines[i]) {
      assert s.lines[i] in s.lines;
    }
    SumLe(s.lines, s.lines, HeldW(id, d), OfW(id));
    SumNonNegative(s.lines, HeldW(id, d));
  }

  /** The two writers of the counter agree: what an assign added by a delta, the unreserve's
      recompute takes away again, at every internal quant. */
  lemma UnreserveUndoesAssign(s: Estate, id: Id, cands: seq<Dims>, d: Dims)
    requires Sound(s, true) && Assign(s, id, cands).Ok? && CandidatesOf(cands, s.moves[id].item, s.moves[id].src)
    requires MoveQty(s.lines, id) == 0.0 && IsInternal(s.locs, d.loc)
    ensures var r := Unreserve(Assign(s, id, cands).value, id);
      r.Ok? && QuantAt(r.value.quants, d) == QuantAt(s.quants, d)
  {
    hide Sound, Assign, Unreserve, Mirror, LinesOf, MoveQty, CandidatesOf;
    var s1 := Assign(s, id, cands).value;
    AssignedIsSound(s, id, cands);
    ExactCounter(s, d);
    ExactCounter(s1, d);
    AssignTouchesNothingElse(s, id, cands, true, id + 1);
    AssignMirror(s, id, cands, d);
    SoundHoldsNothing(s, id, d);
    UnreserveRefusedIff(s1, id);
    UnreserveGivesBack(s1, id, id + 1, d);
  }

  lemma AssignedIsSound(s: Estate, id: Id, cands: seq<Dims>)
    requires Sound(s, true) && Assign(s, id, cands).Ok? && CandidatesOf(cands, s.moves[id].item, s.moves[id].src)
    ensures var s1 := Assign(s, id, cands).value;
      Sound(s1, true) && s1.locs == s.locs && id in s1.moves && Live(s1.moves[id].state)
  {
    AssignCoreSound(s, id, cands, true, None);
    hide Sound, Reservations;
  }

  lemma ExactCounter(s: Estate, d: Dims)
    requires Sound(s, true) && IsInternal(s.locs, d.loc)
    ensures QuantAt(s.quants, d).reserved == Mirror(s.lines, d)
  {
    assert Corner(s.lines, QuantAt(s.quants, d), d, true);
  }

  lemma SoundHoldsNothing(s: Estate, id: Id, d: Dims)
    requires Sound(s, true) && MoveQty(s.lines, id) == 0.0
    ensures Sum(LinesOf(s.lines, id), SrcW(d)) == 0.0
  {
    HoldsNothing(s, id, d);
  }

  /** An unreserve asks for nothing but the move, whatever its state. */
  lemma UnreserveRefusedIff(s: Estate, id: Id)
    ensures if id in s.moves then Unreserve(s, id).Ok? else Unreserve(s, id) == Err(NotFound)
  {
  }

  /** An assign adds to each mirror exactly what its move newly holds there. */
  lemma AssignMirror(s: Estate, id: Id, cands: seq<Dims>, d: Dims)
    requires Sound(s, true) && Assign(s, id, cands).Ok? && CandidatesOf(cands, s.moves[id].item, s.moves[id].src)
    ensures var s' := Assign(s, id, cands).value;
      Mirror(s'.lines, d) - Sum(LinesOf(s'.lines, id), SrcW(d)) ==
        Mirror(s.lines, d) - Sum(LinesOf(s.lines, id), SrcW(d))
  {
    AssignHeld(s, id, cands, true);
    AssignedIsSound(s, id, cands);
    AssignWasLive(s, id, cands);
    hide Sound, Reservations, Assign, Mirror, LinesOf;
    var s' := Assign(s, id, cands).value;
    var r := Reservations(s, id, cands);
    OtherMirror(s, id, d);
    OtherMirror(s', id, d);
    OthersUnmoved(s.lines, r.lines, id, s'.moves[id].state, d);
  }

  lemma AssignWasLive(s: Estate, id: Id, cands: seq<Dims>)
    requires Assign(s, id, cands).Ok?
    ensures id in s.moves && Live(s.moves[id].state)
  {
  }

  lemma OthersUnmoved(lines: seq<Line>, more: seq<Line>, id: Id, st: MoveState, d: Dims)
    requires forall l :: l in more ==> l.mv == id
    ensures Sum(StampLines(lines + more, id, st), OtherLiveW(id, d)) == Sum(lines, OtherLiveW(id, d))
  {
    SumConcat(lines, more, OtherLiveW(id, d));
    forall i | 0 <= i < |more| ensures OtherLiveW(id, d)(more[i]) == 0.0 { assert more[i] in more; }
    SumZero(more, OtherLiveW(id, d));
    SumEqual(StampLines(lines + more, id, st), lines + more, OtherLiveW(id, d), OtherLiveW(id, d));
  }

  lemma OtherMirror(s: Estate, id: Id, d: Dims)
    requires Sound(s, true) && id in s.moves && Live(s.moves[id].state)
    ensures Mirror(s.lines, d) - Sum(LinesOf(s.lines, id), SrcW(d)) == Sum(s.lines, OtherLiveW(id, d))
  {
    SumLinesOf(s.lines, id, SrcW(d), HeldW(id, d));
    forall i | 0 <= i < |s.lines|
      ensures LiveW(d)(s.lines[i]) == OtherLiveW(id, d)(s.lines[i]) + HeldW(id, d)(s.lines[i]) {
      assert s.lines[i] in s.lines && LineOk(s.moves[s.lines[i].mv], s.lines[i]);
    }
    SumAdd(s.lines, s.lines, s.lines, LiveW(d), OtherLiveW(id, d), HeldW(id, d));
  }

  // ---- done -----------------------------------------------------------------------------------

  /** A done move draws what its lines held from each internal source quant, lands it at each
      internal destination quant, and takes its reservation out of each counter, nothing else. */
  lemma DoneMovesExactly(s: Estate, id: Id, d: Dims)
    requires Sound(s, true) && id in s.moves && DoneCore(s, id).Ok?
    ensures var s' := DoneCore(s, id).value; var own := LinesOf(s.lines, id); var mv := s.moves[id];
      && QuantAt(s'.quants, d).quantity == QuantAt(s.quants, d).quantity
           - (if IsInternal(s.locs, mv.src) then Sum(own, SrcW(d)) else 0.0) +
             (if IsInternal(s.locs, mv.dst) then Sum(own, LandsW(d)) else 0.0)
      && (IsInternal(s.locs, d.loc) ==>
         QuantAt(s'.quants, d).reserved == QuantAt(s.quants, d).reserved - Sum(own, SrcW(d)))
  {
    var mv, own := s.moves[id], LinesOf(s.lines, id);
    DoneCoreParts(s, id, true);
    DoneStock(s, id, true);
    DrawnExactly(s, id, true, d);
    var s' := DoneCore(s, id).value;
    if IsInternal(s.locs, d.loc) {
      ExactCounter(s, d);
      assert Corner(DoneLines(s, id), QuantAt(s'.quants, d), d, true);
      OwnLive(s, id, true);
      DoneMirror(s.lines, id, d);
    }
    hide Sound, DoneCore, Mirror, Triangle;
  }

  lemma OwnLive(s: Estate, id: Id, exact: bool)
    requires Sound(s, exact) && id in s.moves && Live(s.moves[id].state)
    ensures QtysNonNegative(s.lines) && forall l :: l in s.lines && l.mv == id ==> Live(l.state)
  {
    QtysOk(s.locs, s.moves, s.lines);
    forall l | l in s.lines && l.mv == id ensures Live(l.state) { assert LineOk(s.moves[l.mv], l); }
  }

  lemma DrawnExactly(s: Estate, id: Id, exact: bool, d: Dims)
    requires Sound(s, exact) && id in s.moves && Live(s.moves[id].state) && DoneQuants(s, id).Ok?
    ensures var after := DoneQuants(s, id).value; var own := LinesOf(s.lines, id); var mv := s.moves[id];
      && QuantAt(after, d).quantity == QuantAt(s.quants, d).quantity
           - (if IsInternal(s.locs, mv.src) then Sum(own, SrcW(d)) else 0.0) +
             (if IsInternal(s.locs, mv.dst) then Sum(own, LandsW(d)) else 0.0)
      && QuantAt(after, d).reserved ==
         if d in DrawnAt(s.lines, id) then Mirror(DoneLines(s, id), d) else QuantAt(s.quants, d).reserved
  {
    var mv, own := s.moves[id], LinesOf(s.lines, id);
    OwnLive(s, id, exact);
    OwnBetween(s.locs, s.moves, s.lines, id);
    var released := Recompute(s.quants, DoneLines(s, id), DrawnAt(s.lines, id));
    if IsInternal(s.locs, mv.src) {
      forall x: Dims | x.loc == mv.src ensures Sum(own, SrcW(x)) <= QuantAt(released, x).quantity {
        assert Corner(s.lines, QuantAt(s.quants, x), x, exact);
        DoneMirror(s.lines, id, x);
      }
    }
    hide Sound, DrawAll;
    DrawIsExact(released, own, mv.src, mv.dst, IsInternal(s.locs, mv.src), IsInternal(s.locs, mv.dst));
    var _ := QuantAt(DoneQuants(s, id).value, d);
  }

  /** A done move carries every lot and owner along: its stock of each is conserved between two internal
      locations, and enters or leaves the estate by exactly the lines of that lot and owner. */
  lemma DoneKeepsLots(s: Estate, id: Id, exact: bool, item: Item, lot: Option<Id>, owner: Option<Id>)
    requires Sound(s, exact) && id in s.moves && DoneCore(s, id).Ok?
    ensures var s' := DoneCore(s, id).value; var mv := s.moves[id];
      var moved := Sum(LinesOf(s.lines, id), LotLineW(item, lot, owner));
      LotStock(s.locs, s'.quants, item, lot, owner) == LotStock(s.locs, s.quants, item, lot, owner)
        + (if IsInternal(s.locs, mv.dst) then moved else 0.0) - (if IsInternal(s.locs, mv.src) then moved else 0.0)
  {
    var mv := s.moves[id];
    DoneCoreParts(s, id, exact);
    OwnBetween(s.locs, s.moves, s.lines, id);
    hide Sound, DoneCore, DrawAll, LinesOf, Mirror;
    var released := Recompute(s.quants, DoneLines(s, id), DrawnAt(s.lines, id));
    SameLotStock(s.locs, s.quants, released, item, lot, owner);
    DrawKeepsLots(s.locs, released, LinesOf(s.lines, id), mv.src, mv.dst, item, lot, owner);
  }
}
