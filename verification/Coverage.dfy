/** The stock of an item at one location: what is free there, what the live lines hold, and how each verb
    moves the two. An assign offered all that is free takes the whole demand when that suffices; a
    done frees no less than it takes. */
module Coverage {
  import opened Common
  import opened StockTypes
  import opened Valuation
  import opened Reservation
  import opened StockTotals
  import opened Engine
  import opened Invariants
  import opened Soundness
  import opened SoundDone
  import opened Guarantees
  import opened VerbContracts

  // ---- an item at a location -------------------------------------------------------------

  predicate OnShelf(d: Dims, item: Item, loc: Loc) { d.item == item && d.loc == loc }

  function ShelfQtyW(quants: map<Dims, Quant>, item: Item, loc: Loc): Dims -> real {
    (d: Dims) => if OnShelf(d, item, loc) then QuantAt(quants, d).quantity else 0.0
  }

  function ShelfFreeW(quants: map<Dims, Quant>, item: Item, loc: Loc): Dims -> real {
    (d: Dims) => if OnShelf(d, item, loc) then Free(quants, d) else 0.0
  }

  function ShelfMirrorW(lines: seq<Line>, item: Item, loc: Loc): Dims -> real {
    (d: Dims) => if OnShelf(d, item, loc) then Mirror(lines, d) else 0.0
  }

  /** What a live line holds there. */
  function ShelfLineW(item: Item, loc: Loc): Line -> real {
    (l: Line) => if OnShelf(l.src, item, loc) && Live(l.state) then l.qty else 0.0
  }

  ghost function StockAt(quants: map<Dims, Quant>, item: Item, loc: Loc): real {
    SetSum(quants.Keys, ShelfQtyW(quants, item, loc))
  }

  /** The free stock over all quants of the item at the location. */
  ghost function FreeAt(quants: map<Dims, Quant>, item: Item, loc: Loc): real {
    SetSum(quants.Keys, ShelfFreeW(quants, item, loc))
  }

  function HeldAt(lines: seq<Line>, item: Item, loc: Loc): real { Sum(lines, ShelfLineW(item, loc)) }

  /** The stock no live line holds. */
  ghost function Unheld(s: Estate, item: Item, loc: Loc): real {
    StockAt(s.quants, item, loc) - HeldAt(s.lines, item, loc)
  }

  /** The store's answer to an assign: quants of the item at the location, every one with something free. */
  ghost predicate Complete(quants: map<Dims, Quant>, item: Item, loc: Loc, cands: seq<Dims>) {
    && CandidatesOf(cands, item, loc)
    && forall d: Dims {:trigger Free(quants, d)} :: OnShelf(d, item, loc) && Free(quants, d) > 0.0 ==> d in cands
  }

  // ---- the lines of a shelf are what its quants mirror ---------------------------------------

  lemma {:induction false} MirrorsAddUp(ks: set<Dims>, lines: seq<Line>, item: Item, loc: Loc)
    requires forall l :: l in lines && Live(l.state) && OnShelf(l.src, item, loc) && l.qty != 0.0 ==> l.src in ks
    ensures SetSum(ks, ShelfMirrorW(lines, item, loc)) == HeldAt(lines, item, loc)
  {
    if lines == [] {
      var nothing := (d: Dims) => 0.0;
      SetSumEqual(ks, ShelfMirrorW(lines, item, loc), nothing);
      SetSumPad({}, ks, nothing);
      assert {} + ks == ks;
    } else {
      var n := |lines| - 1;
      var l := lines[n];
      var front, all := ShelfMirrorW(lines[..n], item, loc), ShelfMirrorW(lines, item, loc);
      MirrorsAddUp(ks, lines[..n], item, loc);
      if l.src in ks {
        assert ks + {l.src} == ks;
        SetSumUpdate(ks, l.src, front, all);
      } else {
        SetSumEqual(ks, front, all);
      }
    }
  }

  lemma LiveLineHeld(s: Estate, l: Line)
    requires Sound(s, false) && l in s.lines && Live(l.state) && IsInternal(s.locs, l.src.loc) && l.qty != 0.0
    ensures l.src in s.quants
  {
    QtysOk(s.locs, s.moves, s.lines);
    assert Corner(s.lines, QuantAt(s.quants, l.src), l.src, false);
    var i :| 0 <= i < |s.lines| && s.lines[i] == l;
    forall k | 0 <= k < |s.lines| ensures LiveW(l.src)(s.lines[k]) >= 0.0 { assert s.lines[k] in s.lines; }
    SumNonNegative(s.lines, LiveW(l.src));
    assert LiveW(l.src)(s.lines[i]) == l.qty;
  }

  function UnheldW(s: Estate, item: Item, loc: Loc): Dims -> real {
    (d: Dims) => if OnShelf(d, item, loc) then QuantAt(s.quants, d).quantity - Mirror(s.lines, d) else 0.0
  }

  lemma {:induction false} SetSumDifference<K>(ks: set<K>, u: K -> real, v: K -> real, w: K -> real)
    requires forall k :: k in ks ==> w(k) == u(k) - v(k)
    ensures SetSum(ks, w) == SetSum(ks, u) - SetSum(ks, v)
    decreases |ks|
  {
    if ks != {} {
      var k :| k in ks;
      SetSumPick(ks, k, u);
      SetSumPick(ks, k, v);
      SetSumPick(ks, k, w);
      SetSumDifference(ks - {k}, u, v, w);
    }
  }

  /** What no line holds, quant by quant. */
  lemma UnheldIs(s: Estate, item: Item, loc: Loc)
    requires Sound(s, false) && IsInternal(s.locs, loc)
    ensures Unheld(s, item, loc) == SetSum(s.quants.Keys, UnheldW(s, item, loc))
  {
    forall l | l in s.lines && Live(l.state) && OnShelf(l.src, item, loc) && l.qty != 0.0
      ensures l.src in s.quants.Keys
    {
      LiveLineHeld(s, l);
    }
    hide Sound, Mirror;
    MirrorsAddUp(s.quants.Keys, s.lines, item, loc);
    SetSumDifference(s.quants.Keys, ShelfQtyW(s.quants, item, loc), ShelfMirrorW(s.lines, item, loc),
      UnheldW(s, item, loc));
  }

  /** The free stock is part of what no line holds, none of which is negative; where every counter is its
      mirror the two are the same. */
  lemma FreeIsUnheld(s: Estate, exact: bool, item: Item, loc: Loc)
    requires Sound(s, exact) && IsInternal(s.locs, loc)
    ensures 0.0 <= FreeAt(s.quants, item, loc) <= Unheld(s, item, loc)
    ensures exact ==> FreeAt(s.quants, item, loc) == Unheld(s, item, loc)
  {
    SoundAnyway(s, exact);
    UnheldIs(s, item, loc);
    var ks, free, unheld := s.quants.Keys, ShelfFreeW(s.quants, item, loc), UnheldW(s, item, loc);
    forall d | d in ks ensures 0.0 <= free(d) <= unheld(d) && (exact ==> free(d) == unheld(d)) {
      if OnShelf(d, item, loc) { assert Corner(s.lines, QuantAt(s.quants, d), d, exact); }
    }
    hide Sound;
    var nothing := (d: Dims) => 0.0;
    SetSumPad({}, ks, nothing);
    assert {} + ks == ks;
    SetSumLe(ks, nothing, free);
    SetSumLe(ks, free, unheld);
    if exact { SetSumEqual(ks, free, unheld); }
  }

  lemma FreeInStock(s: Estate, item: Item, loc: Loc)
    requires Sound(s, false) && IsInternal(s.locs, loc)
    ensures FreeAt(s.quants, item, loc) <= StockAt(s.quants, item, loc)
  {
    forall d | d in s.quants.Keys ensures ShelfFreeW(s.quants, item, loc)(d) <= ShelfQtyW(s.quants, item, loc)(d) {
      if OnShelf(d, item, loc) { assert Corner(s.lines, QuantAt(s.quants, d), d, false); }
    }
    hide Sound;
    SetSumLe(s.quants.Keys, ShelfFreeW(s.quants, item, loc), ShelfQtyW(s.quants, item, loc));
  }

  lemma SoundAnyway(s: Estate, exact: bool)
    requires Sound(s, exact)
    ensures Sound(s, false)
  {
    forall d: Dims {:trigger QuantAt(s.quants, d)} | IsInternal(s.locs, d.loc)
      ensures Corner(s.lines, QuantAt(s.quants, d), d, false) {
      assert Corner(s.lines, QuantAt(s.quants, d), d, exact);
    }
    forall m {:trigger s.moves[m]} | m in s.moves
      ensures MoveMirror(s.moves[m], IsInternal(s.locs, s.moves[m].src), MoveQty(s.lines, m), false) {
      assert MoveMirror(s.moves[m], IsInternal(s.locs, s.moves[m].src), MoveQty(s.lines, m), exact);
    }
  }

  // ---- what a move holds ------------------------------------------------------------------------

  /** A live move's own lines hold, at its source, what they add up to, and nothing elsewhere; those of
      any other move hold nothing. */
  lemma OwnHeld(s: Estate, id: Id, item: Item, loc: Loc)
    requires Sound(s, false) && id in s.moves
    ensures Sum(LinesOf(s.lines, id), ShelfLineW(item, loc)) == HeldThere(s, id, item, loc)
  {
    var own, mv := LinesOf(s.lines, id), s.moves[id];
    LinesOfMembers(s.lines, id);
    OwnBetween(s.locs, s.moves, s.lines, id);
    forall i | 0 <= i < |own|
      ensures OnShelf(own[i].src, item, loc) <==> mv.item == item && mv.src == loc
      ensures Live(own[i].state) <==> Live(mv.state)
    {
      assert own[i] in own && LineOk(mv, own[i]);
    }
    hide Sound;
    if Live(mv.state) && mv.item == item && mv.src == loc {
      SumEqual(own, own, ShelfLineW(item, loc), QtyOf);
    } else {
      SumZero(own, ShelfLineW(item, loc));
    }
  }

  /** What a move holds on a shelf. */
  function HeldThere(s: Estate, id: Id, item: Item, loc: Loc): real
    requires id in s.moves
  {
    var mv := s.moves[id];
    if Live(mv.state) && mv.item == item && mv.src == loc then MoveQty(s.lines, id) else 0.0
  }

  function OtherShelfW(id: Id, item: Item, loc: Loc): Line -> real {
    (l: Line) => if l.mv == id then 0.0 else ShelfLineW(item, loc)(l)
  }

  function OwnShelfW(id: Id, item: Item, loc: Loc): Line -> real {
    (l: Line) => if l.mv == id then ShelfLineW(item, loc)(l) else 0.0
  }

  /** Held in all: by the others, and by the move itself. */
  lemma HeldBy(s: Estate, id: Id, item: Item, loc: Loc)
    requires Sound(s, false) && id in s.moves
    ensures HeldAt(s.lines, item, loc) == Sum(s.lines, OtherShelfW(id, item, loc)) + HeldThere(s, id, item, loc)
  {
    OwnHeld(s, id, item, loc);
    hide Sound;
    SumLinesOf(s.lines, id, ShelfLineW(item, loc), OwnShelfW(id, item, loc));
    SumAdd(s.lines, s.lines, s.lines, ShelfLineW(item, loc), OtherShelfW(id, item, loc), OwnShelfW(id, item, loc));
  }

  /** What one move holds is at most what is in stock there. */
  lemma MoveHeldInStock(s: Estate, id: Id)
    requires Sound(s, false) && id in s.moves && Live(s.moves[id].state) && IsInternal(s.locs, s.moves[id].src)
    ensures var mv := s.moves[id];
      MoveQty(s.lines, id) + FreeAt(s.quants, mv.item, mv.src) <= StockAt(s.quants, mv.item, mv.src)
  {
    var mv := s.moves[id];
    FreeIsUnheld(s, false, mv.item, mv.src);
    HeldBy(s, id, mv.item, mv.src);
    QtysOk(s.locs, s.moves, s.lines);
    hide Sound;
    var others := OtherShelfW(id, mv.item, mv.src);
    forall i | 0 <= i < |s.lines| ensures others(s.lines[i]) >= 0.0 { assert s.lines[i] in s.lines; }
    SumNonNegative(s.lines, others);
  }

  /** The stock at one location of a warehouse is part of the warehouse's bin. */
  lemma StockInBin(s: Estate, item: Item, loc: Loc)
    requires Sound(s, false) && KeyOf(item, LocAt(s.locs, loc)).Some?
    ensures StockAt(s.quants, item, loc) <= BinAt(s.books.bins, KeyOf(item, LocAt(s.locs, loc)).value).qty
  {
    var k := KeyOf(item, LocAt(s.locs, loc)).value;
    assert OnHand(s.locs, s.quants, k) == BinAt(s.books.bins, k).qty;
    var shelf, house := ShelfQtyW(s.quants, item, loc), StockW(s.locs, s.quants, k);
    forall d | d in s.quants.Keys ensures shelf(d) <= house(d) {
      if IsInternal(s.locs, d.loc) { assert Corner(s.lines, QuantAt(s.quants, d), d, false); }
    }
    hide Sound;
    SetSumLe(s.quants.Keys, shelf, house);
  }

  // ---- verbs that leave the quantities alone --------------------------------------------------------

  lemma SameStockAt(quants: map<Dims, Quant>, after: map<Dims, Quant>, item: Item, loc: Loc)
    requires quants.Keys <= after.Keys
    requires forall d :: QuantAt(after, d).quantity == QuantAt(quants, d).quantity
    ensures StockAt(after, item, loc) == StockAt(quants, item, loc)
  {
    SetSumPad(quants.Keys, after.Keys, ShelfQtyW(quants, item, loc));
    assert quants.Keys + after.Keys == after.Keys;
    SetSumEqual(after.Keys, ShelfQtyW(after, item, loc), ShelfQtyW(quants, item, loc));
  }

  /** An assign leaves unheld less exactly what the move newly holds. */
  lemma AssignUnheld(s: Estate, id: Id, cands: seq<Dims>, item: Item, loc: Loc)
    requires Sound(s, false) && Assign(s, id, cands).Ok? && CandidatesOf(cands, s.moves[id].item, s.moves[id].src)
    ensures id in s.moves && id in Assign(s, id, cands).value.moves
    ensures var s' := Assign(s, id, cands).value; var mv := s.moves[id];
      Unheld(s', item, loc) == Unheld(s, item, loc)
        - (if mv.item == item && mv.src == loc then MoveQty(s'.lines, id) - MoveQty(s.lines, id) else 0.0)
  {
    AssignHeld(s, id, cands, false);
    AssignTouchesNothingElse(s, id, cands, false, id + 1);
    AssignedSound(s, id, cands);
    HeldBy(s, id, item, loc);
    hide Sound, Reservations, Assign, HeldAt;
    var s', more := Assign(s, id, cands).value, Reservations(s, id, cands).lines;
    HeldBy(s', id, item, loc);
    SameStockAt(s.quants, s'.quants, item, loc);
    SumConcat(s.lines, more, OtherShelfW(id, item, loc));
    forall i | 0 <= i < |more| ensures OtherShelfW(id, item, loc)(more[i]) == 0.0 { assert more[i] in more; }
    SumZero(more, OtherShelfW(id, item, loc));
    SumEqual(s'.lines, s.lines + more, OtherShelfW(id, item, loc), OtherShelfW(id, item, loc));
  }

  lemma AssignedSound(s: Estate, id: Id, cands: seq<Dims>)
    requires Sound(s, false) && Assign(s, id, cands).Ok? && CandidatesOf(cands, s.moves[id].item, s.moves[id].src)
    ensures var s' := Assign(s, id, cands).value;
      && Sound(s', false) && s'.locs == s.locs && id in s'.moves && Live(s'.moves[id].state) && Live(s.moves[id].state)
      && s.quants.Keys <= s'.quants.Keys
  {
    AssignCoreSound(s, id, cands, false, None);
    ReservationsKeepTriangle(s, id, cands, false, None);
    hide Sound, Reservations;
  }

  /** An unreserve gives what the move held back to the shelf it was held on. */
  lemma UnreserveUnheld(s: Estate, id: Id, item: Item, loc: Loc)
    requires Sound(s, false) && id in s.moves
    ensures Unheld(UnreserveLines(s, id), item, loc) == Unheld(s, item, loc) + HeldThere(s, id, item, loc)
  {
    HeldBy(s, id, item, loc);
    hide Sound;
    var s' := UnreserveLines(s, id);
    SameStockAt(s.quants, s'.quants, item, loc);
    SumEqual(s'.lines, s.lines, ShelfLineW(item, loc), OtherShelfW(id, item, loc));
  }

  // ---- done -------------------------------------------------------------------------------------

  lemma {:induction false} DrawKeys(quants: map<Dims, Quant>, ls: seq<Line>, fromSrc: bool, toDst: bool)
    ensures var r := DrawAll(quants, ls, fromSrc, toDst); r.Ok? ==> quants.Keys <= r.value.Keys
  {
    if ls != [] { DrawKeys(quants, ls[..|ls| - 1], fromSrc, toDst); }
  }

  lemma DoneKeys(s: Estate, id: Id)
    requires id in s.moves && DoneQuants(s, id).Ok?
    ensures s.quants.Keys <= DoneQuants(s, id).value.Keys
  {
    var mv, released := s.moves[id], Recompute(s.quants, DoneLines(s, id), DrawnAt(s.lines, id));
    DrawKeys(released, LinesOf(s.lines, id), IsInternal(s.locs, mv.src), IsInternal(s.locs, mv.dst));
    assert s.quants.Keys <= released.Keys;
  }

  /** A done on its way out of the shelves takes only what was held: nothing changes in what is not. */
  lemma FinishUnheld(s: Estate, id: Id, child: Id, item: Item, loc: Loc)
    requires Sound(s, false) && Finish(s, id, Never, child, []).Ok?
    requires Sound(Finish(s, id, Never, child, []).value, false)
    requires IsInternal(s.locs, loc) && id in s.moves && !IsInternal(s.locs, s.moves[id].dst)
    ensures Unheld(Finish(s, id, Never, child, []).value, item, loc) == Unheld(s, item, loc)
  {
    var s' := Finish(s, id, Never, child, []).value;
    NeverFinishes(s, id, child);
    UnheldIs(s, item, loc);
    DonePointwise(s, id);
    hide Sound, DoneCore, Finish, Mirror, Unheld;
    UnheldIs(s', item, loc);
    SetSumPad(s.quants.Keys, s'.quants.Keys, UnheldW(s, item, loc));
    assert s.quants.Keys + s'.quants.Keys == s'.quants.Keys;
    SetSumEqual(s'.quants.Keys, UnheldW(s', item, loc), UnheldW(s, item, loc));
  }

  lemma DonePointwise(s: Estate, id: Id)
    requires Sound(s, false) && id in s.moves && DoneCore(s, id).Ok? && !IsInternal(s.locs, s.moves[id].dst)
    ensures var s' := DoneCore(s, id).value;
      && s'.locs == s.locs && s.quants.Keys <= s'.quants.Keys
      && (forall d: Dims :: IsInternal(s.locs, d.loc) ==>
            QuantAt(s'.quants, d).quantity - Mirror(s'.lines, d) == QuantAt(s.quants, d).quantity - Mirror(s.lines, d))
      && (forall d: Dims :: IsInternal(s.locs, d.loc) && d !in s.quants ==> Mirror(s.lines, d) == 0.0)
  {
    var s', mv, own := DoneCore(s, id).value, s.moves[id], LinesOf(s.lines, id);
    DoneCoreParts(s, id, false);
    DoneStock(s, id, false);
    DoneKeys(s, id);
    OwnLive(s, id, false);
    forall d: Dims | IsInternal(s.locs, d.loc)
      ensures QuantAt(s'.quants, d).quantity - Mirror(s'.lines, d) == QuantAt(s.quants, d).quantity - Mirror(s.lines, d)
      ensures d !in s.quants ==> Mirror(s.lines, d) == 0.0
    {
      DrawnExactly(s, id, false, d);
      DoneMirror(s.lines, id, d);
      assert Corner(s.lines, QuantAt(s.quants, d), d, false);
      OwnBetween(s.locs, s.moves, s.lines, id);
    }
    hide Sound, Mirror, Triangle;
  }

  lemma DstNonNegative(own: seq<Line>, d: Dims)
    requires forall l :: l in own ==> l.qty >= 0.0
    ensures Sum(own, LandsW(d)) >= 0.0
  {
    forall i | 0 <= i < |own| ensures LandsW(d)(own[i]) >= 0.0 { assert own[i] in own; }
    SumNonNegative(own, LandsW(d));
  }

  /** At every internal quant a done leaves at least as much free as there was: what it draws it had
      reserved. */
  lemma DoneFrees(s: Estate, id: Id, d: Dims)
    requires Sound(s, false) && id in s.moves && Live(s.moves[id].state) && IsInternal(s.locs, d.loc)
    requires DoneQuants(s, id).Ok?
    ensures Free(s.quants, d) <= Free(DoneQuants(s, id).value, d)
  {
    var mv, own := s.moves[id], LinesOf(s.lines, id);
    OwnLive(s, id, false);
    OwnBetween(s.locs, s.moves, s.lines, id);
    DrawnExactly(s, id, false, d);
    DoneMirror(s.lines, id, d);
    assert Corner(s.lines, QuantAt(s.quants, d), d, false);
    LinesOfMembers(s.lines, id);
    DstNonNegative(own, d);
    hide Sound, DoneQuants, Mirror;
    if !IsInternal(s.locs, mv.src) {
      assert forall l :: l in s.lines && l.mv == id && l.qty > 0.0 ==> l.src != d;
    }
  }

  lemma FreeGrows(quants: map<Dims, Quant>, after: map<Dims, Quant>, item: Item, loc: Loc)
    requires quants.Keys <= after.Keys && forall d: Dims :: d.loc == loc ==> Free(quants, d) <= Free(after, d)
    ensures FreeAt(quants, item, loc) <= FreeAt(after, item, loc)
  {
    SetSumPad(quants.Keys, after.Keys, ShelfFreeW(quants, item, loc));
    assert quants.Keys + after.Keys == after.Keys;
    SetSumLe(after.Keys, ShelfFreeW(quants, item, loc), ShelfFreeW(after, item, loc));
  }

  /** A reserved move is done on request, and frees no less than it takes. */
  lemma FinishCompletes(s: Estate, id: Id, child: Id)
    requires Sound(s, false) && id in s.moves && s.moves[id].state == Assigned && MoveQty(s.lines, id) > 0.0
    ensures var r := Finish(s, id, Never, child, []);
      && r.Ok? && id in r.value.moves && r.value.moves[id].state == Done && r.value.locs == s.locs
      && forall item, loc :: IsInternal(s.locs, loc) ==>
           FreeAt(s.quants, item, loc) <= FreeAt(r.value.quants, item, loc)
  {
    if LinesOf(s.lines, id) == [] { NoLinesNoQty(s.lines, id); }
    ReservationIsGuarantee(s, id, false);
    DoneCoreParts(s, id, false);
    DoneStock(s, id, false);
    DoneKeys(s, id);
    NeverFinishes(s, id, child);
    hide DoneCore, Sound, DoneQuants, Mint, Free;
    var after := DoneQuants(s, id).value;
    forall item, loc | IsInternal(s.locs, loc) ensures FreeAt(s.quants, item, loc) <= FreeAt(after, item, loc) {
      forall d: Dims | d.loc == loc ensures Free(s.quants, d) <= Free(after, d) { DoneFrees(s, id, d); }
      FreeGrows(s.quants, after, item, loc);
    }
  }

  // ---- assign -------------------------------------------------------------------------------------

  lemma SpendOne(quants: map<Dims, Quant>, d: Dims, take: real, item: Item, loc: Loc)
    requires Free(quants, d) > 0.0
    ensures var q := QuantAt(quants, d);
      FreeAt(quants[d := Quant(q.quantity, q.reserved + take)], item, loc) ==
      FreeAt(quants, item, loc) - (if OnShelf(d, item, loc) then take else 0.0)
  {
    var q := QuantAt(quants, d);
    var q1 := quants[d := Quant(q.quantity, q.reserved + take)];
    assert q1.Keys == quants.Keys + {d};
    SetSumUpdate(quants.Keys, d, ShelfFreeW(quants, item, loc), ShelfFreeW(q1, item, loc));
  }

  /** A reservation uses up, on its shelf, exactly what it takes, and nothing on any other. */
  lemma {:induction false} ReserveSpends(quants: map<Dims, Quant>, cands: seq<Dims>, need: real, m: Id, dstLoc: Loc,
      st: MoveState, from: Item, at: Loc, item: Item, loc: Loc)
    requires CandidatesOf(cands, from, at)
    ensures var r := Reserve(quants, cands, need, m, dstLoc, st);
      FreeAt(r.quants, item, loc) == FreeAt(quants, item, loc) - (if from == item && at == loc then r.took else 0.0)
    decreases |cands|
  {
    if cands != [] && need > 0.0 {
      var d, free := cands[0], Free(quants, cands[0]);
      if free <= 0.0 {
        ReserveSpends(quants, cands[1..], need, m, dstLoc, st, from, at, item, loc);
      } else {
        var take := if free < need then free else need;
        var q := QuantAt(quants, d);
        var q1 := quants[d := Quant(q.quantity, q.reserved + take)];
        ReserveSpends(q1, cands[1..], need - take, m, dstLoc, st, from, at, item, loc);
        SpendOne(quants, d, take, item, loc);
        hide FreeAt;
      }
    }
  }

  lemma NothingFree(quants: map<Dims, Quant>, item: Item, loc: Loc)
    requires forall d: Dims {:trigger Free(quants, d)} :: OnShelf(d, item, loc) ==> Free(quants, d) <= 0.0
    ensures FreeAt(quants, item, loc) <= 0.0
  {
    var nothing := (d: Dims) => 0.0;
    SetSumPad({}, quants.Keys, nothing);
    assert {} + quants.Keys == quants.Keys;
    SetSumLe(quants.Keys, ShelfFreeW(quants, item, loc), nothing);
  }

  /** The free stock covers what the move still needs; a move from outside needs none. */
  ghost predicate Suffices(s: Estate, id: Id)
    requires id in s.moves
  {
    var mv := s.moves[id];
    IsInternal(s.locs, mv.src) ==> mv.demand - MoveQty(s.lines, id) <= FreeAt(s.quants, mv.item, mv.src)
  }

  /** The reservation then covers the demand. */
  lemma ReservationsCover(s: Estate, id: Id, cands: seq<Dims>)
    requires Sound(s, false) && id in s.moves && s.moves[id].demand > 0.0 && Suffices(s, id)
    requires Complete(s.quants, s.moves[id].item, s.moves[id].src, cands)
    requires s.moves[id].state == Confirmed || s.moves[id].state == PartiallyAvailable
    ensures var r := Reservations(s, id, cands); var mv := s.moves[id];
      && r.took == mv.demand && (!IsInternal(s.locs, mv.src) ==> r.quants == s.quants)
      && (forall item, loc :: IsInternal(s.locs, loc) ==>
            FreeAt(r.quants, item, loc) == FreeAt(s.quants, item, loc) -
              (if mv.item == item && mv.src == loc then mv.demand - MoveQty(s.lines, id) else 0.0))
  {
    ReservationsFit(s, id, cands, false, None);
    hide Sound, FreeAt;
    var mv, need := s.moves[id], s.moves[id].demand - MoveQty(s.lines, id);
    if IsInternal(s.locs, mv.src) {
      var r := Reserve(s.quants, cands, need, id, mv.dst, mv.state);
      forall item, loc
        ensures FreeAt(r.quants, item, loc) ==
          FreeAt(s.quants, item, loc) - (if mv.item == item && mv.src == loc then r.took else 0.0)
      {
        ReserveSpends(s.quants, cands, need, id, mv.dst, mv.state, mv.item, mv.src, item, loc);
      }
      ReserveTakes(s.quants, cands, need, id, mv.dst, mv.state);
      hide Reserve;
      if r.took < need {
        Exhausted(s.quants, r.quants, mv.item, mv.src, cands);
        NothingFree(r.quants, mv.item, mv.src);
      }
    }
  }

  lemma Exhausted(quants: map<Dims, Quant>, after: map<Dims, Quant>, item: Item, loc: Loc, cands: seq<Dims>)
    requires Complete(quants, item, loc, cands) && forall d :: d in cands ==> Free(after, d) <= 0.0
    requires forall d :: Free(after, d) <= Free(quants, d)
    ensures forall d: Dims {:trigger Free(after, d)} :: OnShelf(d, item, loc) ==> Free(after, d) <= 0.0
  {
    hide Free;
    forall d: Dims {:trigger Free(after, d)} | OnShelf(d, item, loc) ensures Free(after, d) <= 0.0 {
      assert Free(after, d) <= Free(quants, d);
    }
  }

  /** An assign offered all that is free reserves the whole demand when that suffices. */
  lemma AssignReaches(s: Estate, id: Id, cands: seq<Dims>)
    requires Sound(s, false) && id in s.moves && s.moves[id].demand > 0.0 && Suffices(s, id)
    requires Complete(s.quants, s.moves[id].item, s.moves[id].src, cands)
    requires s.moves[id].state == Confirmed || s.moves[id].state == PartiallyAvailable
    ensures var r := Assign(s, id, cands); var mv := s.moves[id];
      && r.Ok? && r.value.moves == s.moves[id := mv.(state := Assigned)] && r.value.locs == s.locs
      && MoveQty(r.value.lines, id) == mv.demand
      && (forall item, loc :: IsInternal(s.locs, loc) ==>
            FreeAt(r.value.quants, item, loc) == FreeAt(s.quants, item, loc) -
              (if mv.item == item && mv.src == loc then mv.demand - MoveQty(s.lines, id) else 0.0))
  {
    ReservationsCover(s, id, cands);
    AssignOk(s, id, cands);
    AssignHeld(s, id, cands, false);
    AssignTakesAllItCan(s, id, cands, false);
    hide Sound, Reservations, Assign, FreeAt, Suffices;
  }

  lemma AssignOk(s: Estate, id: Id, cands: seq<Dims>)
    requires Sound(s, false) && id in s.moves && s.moves[id].demand > 0.0
    requires s.moves[id].state == Confirmed || s.moves[id].state == PartiallyAvailable
    requires Reservations(s, id, cands).took == s.moves[id].demand
    ensures Assign(s, id, cands).Ok?
  {
    assert MoveOk(s.locs, s.moves[id]);
    hide Sound, Reservations;
  }
}
