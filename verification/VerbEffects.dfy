/** What each verb writes, to the field, and exactly when it is refused. */
module VerbEffects {
  import opened Common
  import opened StockTypes
  import opened Valuation
  import opened ValuationLaws
  import opened Reservation
  import opened Engine
  import opened Invariants
  import opened Soundness
  import opened SoundDone
  import opened Runs
  import opened Guarantees
  import opened VerbContracts

  // ---- create and confirm -----------------------------------------------------------------

  /** A move that names `child` among its children, once, if it `parents` it. */
  function Naming(mv: Move, child: Id, parents: bool): Move {
    if parents && child !in mv.dest then mv.(dest := mv.dest + [child]) else mv
  }

  /** A create is accepted exactly for a non-negative order between two different existing locations that
      can hold stock. It stores the order as a draft that did nothing, and of every other move adds the
      new one to the children, once, when that move is a parent. */
  lemma CreateIsExact(s: Estate, id: Id, m: NewMove, other: Id)
    requires id !in s.moves && id !in m.orig
    ensures var r := Create(s, id, m);
      && (r.Ok? <==>
            && m.demand >= 0.0 && m.price >= 0.0 && m.src != m.dst && m.src in s.locs && m.dst in s.locs
            && s.locs[m.src].usage != View && s.locs[m.dst].usage != View)
      && (r.Ok? ==>
            && r.value == s.(moves := r.value.moves) && r.value.moves.Keys == s.moves.Keys + {id}
            && r.value.moves[id] == Move(m.name, m.item, m.demand, 0.0, m.price, m.src, m.dst, m.orig, m.dest,
              m.isInventory, m.forced, m.propagate, Draft)
            && (other in s.moves ==> r.value.moves[other] == Naming(s.moves[other], id, other in m.orig)))
  {
  }

  /** Which refusal a create answers when several apply. */
  lemma CreateRefusals(s: Estate, id: Id, m: NewMove)
    ensures var r := Create(s, id, m);
      && (r == Err(NegativeQuantity) <==> m.demand < 0.0 || m.price < 0.0)
      && (r == Err(SameLocation) <==> m.demand >= 0.0 && m.price >= 0.0 && m.src == m.dst)
      && (r == Err(LocationNotFound) <==>
            m.demand >= 0.0 && m.price >= 0.0 && m.src != m.dst && (m.src !in s.locs || m.dst !in s.locs))
      && (r.Err? ==>
            || r.error == NegativeQuantity || r.error == SameLocation || r.error == LocationNotFound
            || r.error == ViewLocationHoldsNoStock)
  {
  }

  /** A confirm is accepted exactly for a draft, which waits exactly while some existing parent is not done. */
  lemma ConfirmIsExact(s: Estate, id: Id)
    ensures var r := Confirm(s, id);
      && (r.Ok? <==> id in s.moves && s.moves[id].state == Draft)
      && (r.Err? ==> r.error == if id in s.moves then WrongMoveState else NotFound)
      && (r.Ok? ==>
            var held := exists p :: p in s.moves[id].orig && p in s.moves && s.moves[p].state != Done;
            r.value == s.(moves := s.moves[id := s.moves[id].(state := if held then Waiting else Confirmed)]))
  {
  }

  // ---- assign -------------------------------------------------------------------------------

  /** Nothing is taken exactly when nothing is needed or no candidate has anything free. */
  lemma TakesNothingIff(quants: map<Dims, Quant>, cands: seq<Dims>, need: real, m: Id, dstLoc: Loc, st: MoveState)
    ensures Reserve(quants, cands, need, m, dstLoc, st).took == 0.0 <==>
      need <= 0.0 || forall d :: d in cands ==> Free(quants, d) <= 0.0
    decreases |cands|
  {
    if cands != [] && need > 0.0 {
      var d, free, q := cands[0], Free(quants, cands[0]), QuantAt(quants, cands[0]);
      if free <= 0.0 {
        TakesNothingIff(quants, cands[1..], need, m, dstLoc, st);
        assert forall x :: x in cands <==> x == d || x in cands[1..];
      } else {
        var take := if free < need then free else need;
        ReserveTakes(quants[d := Quant(q.quantity, q.reserved + take)], cands[1..], need - take, m, dstLoc, st);
        assert d in cands;
      }
    }
  }

  /** In a sound estate an assign is refused exactly when the move does not exist, is in a state that does
      not reserve, or is partially available in name only: it holds nothing and can take nothing. */
  lemma AssignRefusedIff(s: Estate, id: Id, cands: seq<Dims>, exact: bool)
    requires Sound(s, exact) && (id in s.moves ==> CandidatesOf(cands, s.moves[id].item, s.moves[id].src))
    ensures var r := Assign(s, id, cands);
      && (r == Err(NotFound) <==> id !in s.moves)
      && (r == Err(WrongMoveState) <==>
            id in s.moves && s.moves[id].state != Confirmed && s.moves[id].state != PartiallyAvailable)
      && (r == Err(TransitionNotDeclared) <==>
            && id in s.moves && s.moves[id].state == PartiallyAvailable && MoveQty(s.lines, id) == 0.0
            && (s.moves[id].demand == 0.0
               || (IsInternal(s.locs, s.moves[id].src) && forall d :: d in cands ==> Free(s.quants, d) <= 0.0)))
      && (r.Err? ==> r.error == NotFound || r.error == WrongMoveState || r.error == TransitionNotDeclared)
  {
    if id in s.moves && (s.moves[id].state == Confirmed || s.moves[id].state == PartiallyAvailable) {
      assert MoveOk(s.locs, s.moves[id]);
      TookNothingIff(s, id, cands, exact);
      hide Reservations, SoundBut, MoveQty, MoveOk, CandidatesOf;
    }
  }

  lemma TookNothingIff(s: Estate, id: Id, cands: seq<Dims>, exact: bool)
    requires Sound(s, exact) && id in s.moves && CandidatesOf(cands, s.moves[id].item, s.moves[id].src)
    requires s.moves[id].state == Confirmed || s.moves[id].state == PartiallyAvailable
    ensures var mv := s.moves[id]; var took := Reservations(s, id, cands).took;
      && 0.0 <= took <= mv.demand
      && (took == 0.0 <==>
            && MoveQty(s.lines, id) == 0.0
            && (mv.demand == 0.0
               || (IsInternal(s.locs, mv.src) && forall d :: d in cands ==> Free(s.quants, d) <= 0.0)))
  {
    var mv := s.moves[id];
    var need := mv.demand - MoveQty(s.lines, id);
    ReservationsFit(s, id, cands, exact, None);
    assert MoveMirror(mv, IsInternal(s.locs, mv.src), MoveQty(s.lines, id), exact);
    hide Reserve, SoundBut, MoveQty;
    ReserveTakes(s.quants, cands, need, id, mv.dst, mv.state);
    TakesNothingIff(s.quants, cands, need, id, mv.dst, mv.state);
  }

  /** The lines an assign leaves: the old ones restamped with the state reached, then new ones of the move,
      each positive, bound for its destination and into no named package, drawn from a candidate of an
      internal source or from the untracked outside. */
  lemma AssignLines(s: Estate, id: Id, cands: seq<Dims>, exact: bool, i: nat)
    requires Sound(s, exact) && Assign(s, id, cands).Ok? && CandidatesOf(cands, s.moves[id].item, s.moves[id].src)
    requires i < |Assign(s, id, cands).value.lines|
    ensures var s' := Assign(s, id, cands).value; var l := s'.lines[i]; var mv := s'.moves[id];
      && |s.lines| <= |s'.lines|
      && (i < |s.lines| ==> l == if s.lines[i].mv == id then s.lines[i].(state := mv.state) else s.lines[i])
      && (i >= |s.lines| ==>
            && l == Line(id, l.src, mv.dst, None, l.qty, mv.state) && l.qty > 0.0
            && if IsInternal(s.locs, mv.src) then l.src in cands else l.src == Dims(mv.item, mv.src, None, None, None))
  {
    AssignHeld(s, id, cands, exact);
    var mv := s.moves[id];
    var r := Reservations(s, id, cands);
    if IsInternal(s.locs, mv.src) {
      ReserveMints(s.quants, cands, mv.demand - MoveQty(s.lines, id), id, mv.dst, mv.state);
    }
    hide SoundBut, Assign, Reserve, MoveQty;
    if i >= |s.lines| {
      var l := r.lines[i - |s.lines|];
      assert l in r.lines;
      assert Assign(s, id, cands).value.lines[i] == l.(state := Assign(s, id, cands).value.moves[id].state);
    }
  }

  // ---- unreserve ------------------------------------------------------------------------------

  /** An unreserve zeroes each line of the move, restates the counter of every quant they name as what the
      live lines hold there, and touches no other counter, no quantity and no move. */
  lemma UnreserveIsExact(s: Estate, id: Id, i: nat, d: Dims)
    requires id in s.moves && i < |s.lines|
    ensures var r := Unreserve(s, id);
      && r.Ok? && r.value == s.(lines := r.value.lines, quants := r.value.quants) && |r.value.lines| == |s.lines|
      && r.value.lines[i] == (if s.lines[i].mv == id then s.lines[i].(qty := 0.0) else s.lines[i])
      && QuantAt(r.value.quants, d).quantity == QuantAt(s.quants, d).quantity
      && QuantAt(r.value.quants, d).reserved ==
         if exists l :: l in s.lines && l.mv == id && l.src == d then Sum(r.value.lines, LiveW(d))
         else QuantAt(s.quants, d).reserved
  {
  }

  // ---- revalue ----------------------------------------------------------------------------------

  /** A revaluation puts its value on the bin of the move's item at the warehouse of its destination and on
      no other, its quantity untouched; a destination that values nothing refuses it, and one that
      landed before, or is of nothing, changes nothing. */
  lemma RevalueIsExact(s: Estate, id: Id, lc: Id, line: Id, delta: real, k: BinKey)
    ensures var r := Revalued(s, id, lc, line, delta);
      && (r == Err(NotFound) <==> id !in s.moves)
      && (id in s.moves ==>
            var dst := LocAt(s.locs, s.moves[id].dst); var valued := dst.usage == Internal && dst.warehouse.Some?;
            var landed := exists row :: row in s.books.rows && row.voucher == LandedCost(lc, line);
            && (r == Err(LandedCostNoValuationAccount) <==> delta != 0.0 && !valued)
            && (r.Ok? <==> delta == 0.0 || valued)
            && (r.Ok? && (delta == 0.0 || landed) ==> r.value == s)
            && (r.Ok? && delta != 0.0 && !landed ==>
                  var at := BinKey(s.moves[id].item, dst.warehouse.value); var after := BinAt(r.value.books.bins, k);
                  && r.value == s.(books := r.value.books)
                  && (k != at ==> after == BinAt(s.books.bins, k))
                  && (k == at ==>
                        && after.qty == BinAt(s.books.bins, k).qty
                        && after.value == BinAt(s.books.bins, k).value + delta
                        && Averaged(after))))
  {
    if id in s.moves { AdjustIsExact(s.books, s.moves[id].item, LocAt(s.locs, s.moves[id].dst), lc, line, delta); }
    hide Averaged, StepBin;
  }

  // ---- the demand line of a move from outside -----------------------------------------------------

  /** Preparing a move for a validate is refused exactly when it does not exist, is a draft or is final. It
      gives a move from outside that has no line and wants something one line for all of it, which a done
      can then carry out whole; any other move it leaves alone. */
  lemma DemandLineIsExact(s: Estate, id: Id, exact: bool)
    requires Sound(s, exact)
    ensures var r := MintDemandLine(s, id);
      && (r.Ok? <==> id in s.moves && Live(s.moves[id].state) && s.moves[id].state != Draft)
      && (r.Err? ==> r.error == if id in s.moves then WrongMoveState else NotFound)
      && (r.Ok? ==> var mv := s.moves[id];
            if LinesOf(s.lines, id) == [] && !IsInternal(s.locs, mv.src) && mv.demand > 0.0 then
              && r.value == s.(lines := s.lines +
                 [Line(id, Dims(mv.item, mv.src, None, None, None), mv.dst, None, mv.demand, mv.state)])
              && MoveQty(r.value.lines, id) == mv.demand
              && (Ready(mv.state) ==>
                    DoneCore(r.value, id).Ok? && DoneCore(r.value, id).value.moves[id].quantity == mv.demand)
            else r.value == s)
  {
    hide DoneCore, SoundBut, LinesOf, MoveQty;
    var r := MintDemandLine(s, id);
    if r.Ok? && LinesOf(s.lines, id) == [] && !IsInternal(s.locs, s.moves[id].src) && s.moves[id].demand > 0.0 {
      DemandLineSound(s, id, exact);
      MintedIsDone(s, r.value, id, DemandLine(s.moves[id], id, s.moves[id].demand), exact);
    }
    DemandIsNotNegative(s, id, exact);
  }

  lemma DemandIsNotNegative(s: Estate, id: Id, exact: bool)
    requires Sound(s, exact)
    ensures id in s.moves ==> s.moves[id].demand >= 0.0
  {
    if id in s.moves { assert MoveOk(s.locs, s.moves[id]); }
  }

  lemma MintedIsDone(s: Estate, s': Estate, id: Id, l: Line, exact: bool)
    requires Sound(s, exact) && Sound(s', exact) && id in s.moves && LinesOf(s.lines, id) == []
    requires s' == s.(lines := s.lines + [l]) && l.mv == id && l.qty == s.moves[id].demand > 0.0
    ensures MoveQty(s'.lines, id) == l.qty
    ensures Ready(s.moves[id].state) ==>
      DoneCore(s', id).Ok? && DoneCore(s', id).value.moves[id].quantity == l.qty
  {
    NoLinesNoQty(s.lines, id);
    MoveQtyAppend(s.lines, [l], id, id);
    SumAppend([], l, QtyOf);
    assert [] + [l] == [l];
    assert s'.lines[..|s.lines|] == s.lines;
    if Ready(s.moves[id].state) {
      hide SoundBut, DoneCore, MoveQty;
      ReservationIsGuarantee(s', id, exact);
      DoneCoreParts(s', id, exact);
    }
  }

  // ---- done ------------------------------------------------------------------------------------------

  /** In a sound estate a done is refused exactly when the move is not ready for one, has no line, or has
      nothing on its lines of what it wants. */
  lemma DoneRefusedIff(s: Estate, id: Id, exact: bool)
    requires Sound(s, exact) && id in s.moves
    ensures var r := DoneCore(s, id); var st := s.moves[id].state;
      && (r == Err(WrongMoveState) <==> st != Confirmed && st != PartiallyAvailable && st != Assigned)
      && (r == Err(MoveLinesRequired) <==>
            && (st == Confirmed || st == PartiallyAvailable || st == Assigned)
            && (LinesOf(s.lines, id) == [] || (MoveQty(s.lines, id) == 0.0 && s.moves[id].demand > 0.0)))
      && (r.Err? ==> r.error == WrongMoveState || r.error == MoveLinesRequired)
  {
    var mv := s.moves[id];
    OwnBetween(s.locs, s.moves, s.lines, id);
    assert MoveMirror(mv, IsInternal(s.locs, mv.src), MoveQty(s.lines, id), exact);
    if Ready(mv.state) && LinesOf(s.lines, id) != [] && (MoveQty(s.lines, id) > 0.0 || mv.demand == 0.0) {
      ReservationIsGuarantee(s, id, exact);
    } else {
      assert MoveOk(s.locs, mv);
      hide SoundBut, Mint, DrawAll, Recompute;
    }
  }

  /** Nothing after the done write refuses it: neither the backorder nor the release. */
  lemma FinishRefusedIff(s: Estate, id: Id, policy: Policy, child: Id, cands: seq<Dims>, exact: bool)
    requires Sound(s, exact) && Fresh(s.moves, child)
    ensures var r := Finish(s, id, policy, child, cands);
      && (r == Err(NotFound) <==> id !in s.moves)
      && (id in s.moves ==> (r.Ok? <==> DoneCore(s, id).Ok?) && (r.Err? ==> r.error == DoneCore(s, id).error))
  {
    hide DoneCore, SoundBut, Fresh, OpenBackorder;
    if id in s.moves {
      DoneRefusedIff(s, id, exact);
      if DoneCore(s, id).Ok? {
        if policy == Never {
          NeverSplits(DoneCore(s, id).value, id, child, cands);
        } else {
          PartialValidationSplits(s, id, policy, child, cands, exact);
        }
      }
    }
  }

  lemma NeverSplits(s: Estate, id: Id, child: Id, cands: seq<Dims>)
    ensures id in s.moves ==> Split(s, id, Never, child, cands) == Ok(s)
  {
  }

  /** A line of negative quantity refuses the done whatever else the estate looks like. */
  lemma NegativeLineRefuses(s: Estate, id: Id, l: Line)
    requires id in s.moves && Ready(s.moves[id].state) && l in s.lines && l.mv == id && l.qty < 0.0
    ensures DoneCore(s, id) == Err(NegativeQuantity)
  {
    LinesOfMembers(s.lines, id);
    assert l in LinesOf(s.lines, id);
    hide Mint, DrawAll, Recompute;
  }

  /** The done write: the move is done with what its lines held, its lines are marked done, and the counter
      of a quant is restated as what the live lines now hold there exactly where a positive line of the
      move stood; no other counter is written. */
  lemma DoneWrites(s: Estate, id: Id, exact: bool, i: nat, d: Dims)
    requires Sound(s, exact) && id in s.moves && DoneCore(s, id).Ok? && i < |s.lines|
    ensures var s' := DoneCore(s, id).value;
      && s'.locs == s.locs && s'.backorders == s.backorders
      && s'.moves == s.moves[id := s.moves[id].(state := Done, quantity := MoveQty(s.lines, id))]
      && |s'.lines| == |s.lines|
      && s'.lines[i] == (if s.lines[i].mv == id then s.lines[i].(state := Done) else s.lines[i])
      && QuantAt(s'.quants, d).reserved ==
         if exists l :: l in s.lines && l.mv == id && l.qty > 0.0 && l.src == d then Sum(s'.lines, LiveW(d))
         else QuantAt(s.quants, d).reserved
  {
    DoneCoreParts(s, id, exact);
    DrawnExactly(s, id, exact, d);
    hide SoundBut, DoneCore, DoneQuants, Mint, Sum, LinesOf;
  }

  /** What a done does to the other moves: a waiting child of the move whose other parents are all done
      becomes confirmed, and nothing else of any other move changes, its lines included. */
  lemma FinishOnOthers(s: Estate, id: Id, policy: Policy, child: Id, cands: seq<Dims>, exact: bool, m: Id)
    requires Sound(s, exact) && Finish(s, id, policy, child, cands).Ok? && Fresh(s.moves, child)
    requires CandidatesOf(cands, s.moves[id].item, s.moves[id].src) && m in s.moves && m != id
    ensures var s' := Finish(s, id, policy, child, cands).value;
      var released := s.moves[m].state == Waiting && m in s.moves[id].dest
        && forall p :: p in s.moves[m].orig && p in s.moves && p != id ==> s.moves[p].state == Done;
      && m in s'.moves
      && s'.moves[m] == s.moves[m].(state := if released then Confirmed else s.moves[m].state)
      && LinesOf(s'.lines, m) == LinesOf(s.lines, m)
  {
    hide DoneCore, SoundBut, LinesOf, Split, Release, ParentsDone;
    var s1 := DoneCore(s, id).value;
    DoneCoreParts(s, id, exact);
    DoneCoreSound(s, id, exact);
    StampKeepsOthers(s.lines, id, Done, m);
    SplitOnOthers(s1, id, policy, child, cands, exact, m);
    var s2 := Split(s1, id, policy, child, cands).value;
    ReleaseOne(s1.moves, s2.moves, s.moves[id].dest, child, m);
    DoneParents(s.moves, s1.moves, id, s.moves[m]);
  }

  lemma DoneParents(moves: map<Id, Move>, after: map<Id, Move>, id: Id, mv: Move)
    requires id in moves && id in after && after == moves[id := after[id]] && after[id].state == Done
    ensures ParentsDone(after, mv) <==> forall p :: p in mv.orig && p in moves && p != id ==> moves[p].state == Done
  {
  }

  lemma ReleaseOne(moves: map<Id, Move>, after: map<Id, Move>, kids: seq<Id>, child: Id, m: Id)
    requires m in moves && m in after && after[m] == moves[m] && child !in moves[m].orig
    requires forall p :: p in after && p != child ==> p in moves
    requires forall p :: p in moves ==> p in after && after[p].state == moves[p].state
    ensures m in Release(after, kids)
    ensures Release(after, kids)[m] == moves[m].(state :=
      if moves[m].state == Waiting && m in kids && ParentsDone(moves, moves[m]) then Confirmed else moves[m].state)
  {
    SameParents(moves, after, moves[m], after[m]);
  }

  /** The split leaves every move but the parent, whose children it extends, and the backorder. */
  lemma SplitOnOthers(s: Estate, id: Id, policy: Policy, child: Id, cands: seq<Dims>, exact: bool, m: Id)
    requires SoundBut(s, exact, Some(id)) && id in s.moves && s.moves[id].state == Done
    requires Fresh(s.moves, child) && CandidatesOf(cands, s.moves[id].item, s.moves[id].src)
    requires Split(s, id, policy, child, cands).Ok? && m in s.moves && m != id
    ensures var s' := Split(s, id, policy, child, cands).value;
      && m in s'.moves && s'.moves[m] == s.moves[m]
      && (forall p :: p in s'.moves && p != child ==> p in s.moves)
      && (forall p :: p in s.moves ==> p in s'.moves && s'.moves[p].state == s.moves[p].state)
      && LinesOf(s'.lines, m) == LinesOf(s.lines, m)
  {
    hide SoundBut, Reservations, AssignCore, LinesOf, Split, Insert;
    var mv := s.moves[id];
    SplitIs(s, id, policy, child, cands, exact);
    if mv.quantity < mv.demand && policy != Never {
      var s1 := Opened(s, id, child);
      OpenedIs(s, id, child, exact);
      if policy == Always {
        CoreHeld(s1, child, cands, exact, Some(id));
        var r := Reservations(s1, child, cands);
        OthersAppend(s1.lines, r.lines, child, m);
        StampKeepsOthers(s1.lines + r.lines, child, AssignCore(s1, child, cands).value.moves[child].state, m);
      }
    }
  }

  /** Only `Always` reserves; a whole done and `Never` mint no backorder. */
  lemma SplitIs(s: Estate, id: Id, policy: Policy, child: Id, cands: seq<Dims>, exact: bool)
    requires SoundBut(s, exact, Some(id)) && id in s.moves && s.moves[id].state == Done && Fresh(s.moves, child)
    ensures child in Opened(s, id, child).moves
    ensures Split(s, id, policy, child, cands) ==
      if s.moves[id].quantity >= s.moves[id].demand || policy == Never then Ok(s)
      else if policy == Always then AssignCore(Opened(s, id, child), child, cands) else Ok(Opened(s, id, child))
  {
    hide SoundBut, AssignCore, Insert, Fresh;
    OpenedMoves(s.moves, id, child);
    if s.moves[id].quantity < s.moves[id].demand {
      var inserted := Insert(s.moves, child, Remainder(s.moves[id], id));
      assert ParentsDone(inserted, inserted[child]);
    }
  }

  /** The estate with the backorder minted and confirmed, before it reserves. */
  function Opened(s: Estate, id: Id, child: Id): Estate
    requires id in s.moves
  {
    var inserted := Insert(s.moves, child, Remainder(s.moves[id], id));
    s.(moves := inserted[child := inserted[child].(state := Confirmed)], backorders := s.backorders[id := child])
  }

  lemma OpenedIs(s: Estate, id: Id, child: Id, exact: bool)
    requires SoundBut(s, exact, Some(id)) && id in s.moves && s.moves[id].state == Done
      && s.moves[id].quantity < s.moves[id].demand
    requires Fresh(s.moves, child)
    ensures var s1 := Opened(s, id, child); var mv := s.moves[id];
      && SoundBut(s1, exact, Some(id))
      && s1.moves.Keys == s.moves.Keys + {child}
      && s1.moves[child] == Move(BackorderOf(mv.name), mv.item, mv.demand - mv.quantity, 0.0, mv.price, mv.src, mv.dst,
           [id], mv.dest, mv.isInventory, None, true, Confirmed)
      && (forall p :: p in s.moves && p != id ==> s1.moves[p] == s.moves[p])
      && s1.moves[id] == mv.(dest := if child in mv.dest then mv.dest else mv.dest + [child])
      && MoveQty(s.lines, child) == 0.0
  {
    hide SoundBut, MoveQty, Insert, Confirm;
    SplitInserts(s, id, child, exact);
    OpenedConfirms(s, id, child);
    OpenedMoves(s.moves, id, child);
    NoLinesOfFresh(s, child, exact, Some(id));
  }

  lemma OpenedConfirms(s: Estate, id: Id, child: Id)
    requires id in s.moves && s.moves[id].state == Done && Fresh(s.moves, child)
    ensures var s0 := s.(moves := Insert(s.moves, child, Remainder(s.moves[id], id)));
      Confirm(s0, child).Ok? ==>
        Confirm(s0, child).value.(backorders := s.backorders[id := child]) == Opened(s, id, child)
  {
    InsertedDraft(s.moves, child, Remainder(s.moves[id], id));
    InsertAt(s.moves, child, Remainder(s.moves[id], id), id);
    hide Insert;
  }

  lemma OpenedMoves(moves: map<Id, Move>, id: Id, child: Id)
    requires id in moves && Fresh(moves, child)
    ensures var mv := moves[id]; var inserted := Insert(moves, child, Remainder(mv, id));
      && inserted.Keys == moves.Keys + {child}
      && inserted[child] == Move(BackorderOf(mv.name), mv.item, mv.demand - mv.quantity, 0.0, mv.price, mv.src, mv.dst,
           [id], mv.dest, mv.isInventory, None, true, Draft)
      && (forall p :: p in moves && p != id ==> inserted[p] == moves[p])
      && inserted[id] == mv.(dest := if child in mv.dest then mv.dest else mv.dest + [child])
  {
    InsertedDraft(moves, child, Remainder(moves[id], id));
  }

  lemma NoLinesOfFresh(s: Estate, m: Id, exact: bool, just: Option<Id>)
    requires SoundBut(s, exact, just) && m !in s.moves
    ensures MoveQty(s.lines, m) == 0.0
  {
    MoveQtyNone(s.lines, m);
  }

  lemma OpenedAssigns(s: Estate, id: Id, cands: seq<Dims>)
    requires id in s.moves && s.moves[id].state == Confirmed && s.moves[id].src in s.locs
    ensures AssignCore(s, id, cands).Ok?
    ensures var s' := AssignCore(s, id, cands).value;
      id in s'.moves && s'.moves[id] == s.moves[id].(state := s'.moves[id].state) && s'.moves[id].state != Waiting
  {
    hide Reservations;
  }

  lemma AssignedQuantities(s: Estate, id: Id, cands: seq<Dims>, exact: bool, just: Option<Id>)
    requires SoundBut(s, exact, just) && id in s.moves && Live(s.moves[id].state) && AssignCore(s, id, cands).Ok?
    ensures forall d ::
      QuantAt(AssignCore(s, id, cands).value.quants, d).quantity == QuantAt(s.quants, d).quantity
  {
    ReservationsKeepTriangle(s, id, cands, exact, just);
    hide Reservations, SoundBut;
  }

  lemma NotReleased(moves: map<Id, Move>, kids: seq<Id>, m: Id)
    requires m in moves && moves[m].state != Waiting
    ensures m in Release(moves, kids) && Release(moves, kids)[m] == moves[m]
  {
  }

  lemma NeverMinted(moves: map<Id, Move>, kids: seq<Id>, m: Id)
    ensures m in Release(moves, kids) <==> m in moves
  {
  }

  /** The backorder of a partial validation. Under `Delayed` it is confirmed and holds nothing, and every line
      and quant is as the same done leaves it under `Never`. Under `Always` it has at once taken all it can
      of its demand from its candidates, its state says how much, and no stock moved for it. */
  lemma BackorderReserves(s: Estate, id: Id, policy: Policy, child: Id, cands: seq<Dims>, exact: bool)
    requires Sound(s, exact) && policy != Never && id in s.moves && DoneCore(s, id).Ok?
    requires MoveQty(s.lines, id) < s.moves[id].demand
    requires Fresh(s.moves, child) && CandidatesOf(cands, s.moves[id].item, s.moves[id].src)
    ensures var r := Finish(s, id, policy, child, cands); var never := Finish(s, id, Never, child, []);
      && r.Ok? && never.Ok? && child in r.value.moves
      && child !in never.value.moves && never.value.backorders == s.backorders
      && var s', bo, held := r.value, r.value.moves[child], MoveQty(r.value.lines, child);
      && bo.demand == s.moves[id].demand - MoveQty(s.lines, id)
      && (policy == Delayed ==>
            && bo.state == Confirmed && held == 0.0
            && s'.lines == never.value.lines && s'.quants == never.value.quants)
      && (policy == Always ==>
            && 0.0 <= held <= bo.demand
            && (held == bo.demand || forall d :: d in cands ==> Free(s'.quants, d) <= 0.0)
            && (bo.state == Assigned <==> held == bo.demand)
            && (bo.state == PartiallyAvailable <==> 0.0 < held < bo.demand)
            && (bo.state == Confirmed <==> held == 0.0)
            && (!IsInternal(s.locs, bo.src) ==> held == bo.demand && s'.quants == never.value.quants)
            && forall d :: QuantAt(s'.quants, d).quantity == QuantAt(never.value.quants, d).quantity)
  {
    hide DoneCore, SoundBut, Split, Release, AssignCore, MoveQty;
    var s1 := DoneCore(s, id).value;
    DoneCoreParts(s, id, exact);
    DoneCoreSound(s, id, exact);
    NeverFinishes(s, id, child);
    SplitIs(s1, id, policy, child, cands, exact);
    OpenedIs(s1, id, child, exact);
    var s2 := Opened(s1, id, child);
    if policy == Always {
      OpenedAssigns(s2, child, cands);
      CoreTakesAllItCan(s2, child, cands, exact, Some(id));
      AssignedQuantities(s2, child, cands, exact, Some(id));
      NotReleased(AssignCore(s2, child, cands).value.moves, s.moves[id].dest, child);
    } else {
      NotReleased(s2.moves, s.moves[id].dest, child);
    }
    NeverMinted(s1.moves, s.moves[id].dest, child);
  }
}
