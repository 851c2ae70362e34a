/** The done verb keeps the estate sound, and a standing reservation is never refused. */
module SoundDone {
  import opened Common
  import opened StockTypes
  import opened Valuation
  import opened ValuationLaws
  import opened Reservation
  import opened StockTotals
  import opened Engine
  import opened Invariants
  import opened Soundness

  // ---- the quants and the bins -------------------------------------------------------

  function DoneLines(s: Estate, id: Id): seq<Line> { StampLines(s.lines, id, Done) }

  function DoneQuants(s: Estate, id: Id): Outcome<map<Dims, Quant>>
    requires id in s.moves
  {
    var mv := s.moves[id];
    DrawAll(Recompute(s.quants, DoneLines(s, id), DrawnAt(s.lines, id)), LinesOf(s.lines, id),
      IsInternal(s.locs, mv.src), IsInternal(s.locs, mv.dst))
  }

  /** What a sound move's stock write does: no draw is refused, the triangle stands, and each
      warehouse's stock changes by the move's legs. */
  lemma DoneStock(s: Estate, id: Id, exact: bool)
    requires Sound(s, exact) && id in s.moves && Live(s.moves[id].state)
    ensures var mv := s.moves[id]; var r := DoneQuants(s, id); var qty := MoveQty(s.lines, id);
      && r.Ok? && Triangle(s.locs, DoneLines(s, id), r.value, exact)
      && (forall k {:trigger BinAt(s.books.bins, k)} :: OnHand(s.locs, r.value, k)
            == BinAt(s.books.bins, k).qty + LegAt(mv.item, LocAt(s.locs, mv.src), LocAt(s.locs, mv.dst), qty, qty, k))
  {
    var mv := s.moves[id];
    QtysOk(s.locs, s.moves, s.lines);
    OwnBetween(s.locs, s.moves, s.lines, id);
    forall l | l in s.lines && l.mv == id ensures Live(l.state) { assert LineOk(s.moves[l.mv], l); }
    DoneKeepsTriangle(s.locs, s.lines, s.quants, exact, id, mv.src, mv.dst, DrawnAt(s.lines, id));
    var released := Recompute(s.quants, DoneLines(s, id), DrawnAt(s.lines, id));
    forall k {:trigger BinAt(s.books.bins, k)} ensures OnHand(s.locs, DoneQuants(s, id).value, k)
      == BinAt(s.books.bins, k).qty +
        LegAt(mv.item, LocAt(s.locs, mv.src), LocAt(s.locs, mv.dst), MoveQty(s.lines, id), MoveQty(s.lines, id), k)
    {
      RecomputeKeepsAgree(s.locs, s.quants, DoneLines(s, id), DrawnAt(s.lines, id), k);
      DrawTotal(s.locs, released, LinesOf(s.lines, id), mv.item, mv.src, mv.dst, k);
    }
  }

  /** Once the quants cover the draw, the bin does too. */
  lemma BinCovers(s: Estate, id: Id, exact: bool)
    requires Sound(s, exact) && id in s.moves && Live(s.moves[id].state)
    ensures var mv := s.moves[id];
      Mint(s.books, mv, id, LocAt(s.locs, mv.src), LocAt(s.locs, mv.dst), MoveQty(s.lines, id)).Ok?
  {
    var mv := s.moves[id];
    var src, dst := LocAt(s.locs, mv.src), LocAt(s.locs, mv.dst);
    var qty := MoveQty(s.lines, id);
    MintRefused(s.books, mv, id, src, dst, qty);
    DoneStock(s, id, exact);
    if KeyOf(mv.item, src) != KeyOf(mv.item, dst) && KeyOf(mv.item, src).Some? {
      var k := KeyOf(mv.item, src).value;
      var after := DoneQuants(s, id).value;
      forall d: Dims {:trigger QuantAt(after, d)} | IsInternal(s.locs, d.loc)
        ensures QuantAt(after, d).quantity >= 0.0 {
        assert Corner(DoneLines(s, id), QuantAt(after, d), d, exact);
      }
      OnHandNonNegative(s.locs, after, k, after.Keys);
      assert OnHand(s.locs, after, k) == BinAt(s.books.bins, k).qty - qty;
    }
  }

  /** A live, ready move with something on its lines, or nothing demanded of it, is done: no stock
      guard, at the quant or at the bin, refuses it in any sound state. */
  lemma ReservationIsGuarantee(s: Estate, id: Id, exact: bool)
    requires Sound(s, exact) && id in s.moves && Ready(s.moves[id].state)
    requires LinesOf(s.lines, id) != [] && (MoveQty(s.lines, id) > 0.0 || s.moves[id].demand == 0.0)
    ensures DoneCore(s, id).Ok?
  {
    var mv := s.moves[id];
    OwnBetween(s.locs, s.moves, s.lines, id);
    assert MoveOk(s.locs, mv);
    DoneStock(s, id, exact);
    BinCovers(s, id, exact);
  }

  /** A positive reservation at an internal source stands only on a move that can be done. */
  lemma StandingReservationIsDone(s: Estate, id: Id, exact: bool)
    requires Sound(s, exact) && id in s.moves && Live(s.moves[id].state)
    requires IsInternal(s.locs, s.moves[id].src) && MoveQty(s.lines, id) > 0.0
    ensures DoneCore(s, id).Ok?
  {
    assert MoveMirror(s.moves[id], true, MoveQty(s.lines, id), exact);
    if LinesOf(s.lines, id) == [] { NoLinesNoQty(s.lines, id); }
    ReservationIsGuarantee(s, id, exact);
  }

  // ---- the done core keeps everything but its children's release -------------------------

  lemma DoneChained(moves: map<Id, Move>, after: map<Id, Move>, id: Id)
    requires Chained(moves, None) && id in moves && id in after && Ready(moves[id].state)
    requires after == moves[id := moves[id].(state := Done, quantity := after[id].quantity)]
    ensures Chained(after, Some(id))
  {
    forall c {:trigger InOrder(after, c, Some(id))} | c in after ensures InOrder(after, c, Some(id)) {
      assert InOrder(moves, c, None);
      assert after[c].orig == moves[c].orig;
      if id !in moves[c].orig { SameParents(moves, after, moves[c], after[c]); }
    }
    forall c, p {:trigger Linked(after, c, p)} ensures Linked(after, c, p) {
      assert Linked(moves, c, p);
    }
  }

  lemma DonePosted(s: Estate, id: Id, qty: real)
    requires Posted(s.locs, s.moves, s.books.rows) && id in s.moves && s.moves[id].state != Done
    requires s.moves[id].src in s.locs && s.moves[id].dst in s.locs
    requires Mint(s.books, s.moves[id], id, s.locs[s.moves[id].src], s.locs[s.moves[id].dst], qty).Ok?
    ensures var mv := s.moves[id]; var m := Mint(s.books, mv, id, s.locs[mv.src], s.locs[mv.dst], qty).value;
      Posted(s.locs, s.moves[id := mv.(state := Done, quantity := qty)], m.books.rows)
  {
    var mv := s.moves[id];
    var src, dst := s.locs[mv.src], s.locs[mv.dst];
    var rows := Mint(s.books, mv, id, src, dst, qty).value.books.rows;
    var after := s.moves[id := mv.(state := Done, quantity := qty)];
    MintBins(s.books, mv, id, src, dst, qty);
    forall m {:trigger Unposted(rows, StockEntry(m))}
      ensures (m in after && after[m].state == Done) || Unposted(rows, StockEntry(m)) {
      assert (m in s.moves && s.moves[m].state == Done) || Unposted(s.books.rows, StockEntry(m));
    }
    forall m | m in after && after[m].state == Done ensures PostedOnce(s.locs, after[m], rows, StockEntry(m)) {
      if m == id { OwnPosting(s, id, qty); } else { OtherPosting(s, id, qty, m); }
    }
  }

  lemma OtherPosting(s: Estate, id: Id, qty: real, m: Id)
    requires id in s.moves && s.moves[id].src in s.locs && s.moves[id].dst in s.locs && m != id && m in s.moves
    requires Mint(s.books, s.moves[id], id, s.locs[s.moves[id].src], s.locs[s.moves[id].dst], qty).Ok?
    requires PostedOnce(s.locs, s.moves[m], s.books.rows, StockEntry(m))
    ensures var mv := s.moves[id];
      var rows := Mint(s.books, mv, id, s.locs[mv.src], s.locs[mv.dst], qty).value.books.rows;
      PostedOnce(s.locs, s.moves[m], rows, StockEntry(m))
  {
    var mv := s.moves[id];
    forall k {
      MintPosts(s.books, mv, id, s.locs[mv.src], s.locs[mv.dst], qty, StockEntry(m), k);
    }
  }

  lemma OwnPosting(s: Estate, id: Id, qty: real)
    requires id in s.moves && s.moves[id].src in s.locs && s.moves[id].dst in s.locs
    requires Unposted(s.books.rows, StockEntry(id))
    requires Mint(s.books, s.moves[id], id, s.locs[s.moves[id].src], s.locs[s.moves[id].dst], qty).Ok?
    ensures var mv := s.moves[id];
      var rows := Mint(s.books, mv, id, s.locs[mv.src], s.locs[mv.dst], qty).value.books.rows;
      PostedOnce(s.locs, mv.(state := Done, quantity := qty), rows, StockEntry(id))
  {
    var mv := s.moves[id];
    var src, dst := s.locs[mv.src], s.locs[mv.dst];
    var rows := Mint(s.books, mv, id, src, dst, qty).value.books.rows;
    if KeyOf(mv.item, src) != KeyOf(mv.item, dst) { MintValues(s.books, mv, id, src, dst, qty); }
    if mv.forced.None? && src.usage != Internal && KeyOf(mv.item, dst).Some? {
      MintReceipt(s.books, mv, id, src, dst, qty);
    }
    hide Mint, Amount;
    forall k
      ensures VoucherQty(rows, StockEntry(id), k) == LegAt(mv.item, src, dst, qty, qty, k)
      ensures mv.forced.Some? ==>
        VoucherValue(rows, StockEntry(id), k) == LegAt(mv.item, src, dst, mv.forced.value, mv.forced.value, k)
      ensures mv.forced.None? && src.usage != Internal && mv.price > 0.0 ==>
        VoucherValue(rows, StockEntry(id), k) == LegAt(mv.item, src, dst, 0.0, Amount(qty, mv.price), k)
    {
      MintPosts(s.books, mv, id, src, dst, qty, StockEntry(id), k);
      SumZero(s.books.rows, VoucherQtyW(StockEntry(id), k));
      SumZero(s.books.rows, VoucherValueW(StockEntry(id), k));
    }
  }

  /** The estate a successful done core leaves, its parts named. */
  lemma DoneCoreParts(s: Estate, id: Id, exact: bool)
    requires Sound(s, exact) && id in s.moves && DoneCore(s, id).Ok?
    ensures var mv := s.moves[id]; var qty := MoveQty(s.lines, id);
      && Ready(mv.state) && (qty > 0.0 || mv.demand == 0.0)
      && mv.src in s.locs && mv.dst in s.locs && DoneQuants(s, id).Ok?
      && Mint(s.books, mv, id, s.locs[mv.src], s.locs[mv.dst], qty).Ok?
      && DoneCore(s, id).value ==
         s.(moves := s.moves[id := mv.(state := Done, quantity := qty)], lines := DoneLines(s, id),
           quants := DoneQuants(s, id).value,
           books := Mint(s.books, mv, id, s.locs[mv.src], s.locs[mv.dst], qty).value.books)
  {
    OwnBetween(s.locs, s.moves, s.lines, id);
    hide Posted, Splits, Triangle, Chained, Agree, Reconstructs, Shape;
    assert MoveMirror(s.moves[id], IsInternal(s.locs, s.moves[id].src), MoveQty(s.lines, id), exact);
  }

  lemma DoneCoreSound(s: Estate, id: Id, exact: bool)
    requires Sound(s, exact) && id in s.moves && DoneCore(s, id).Ok?
    ensures SoundBut(DoneCore(s, id).value, exact, Some(id))
  {
    hide DoneCore, DoneQuants, Mint, Triangle, Mirrored, Chained, Posted, Reconstructs, Splits, Shape;
    var mv := s.moves[id];
    var s' := DoneCore(s, id).value;
    var qty := MoveQty(s.lines, id);
    DoneCoreParts(s, id, exact);
    DoneStock(s, id, exact);
    StampShape(s.locs, s.moves, s'.moves, s.lines, id, Done);
    DoneChained(s.moves, s'.moves, id);
    DonePosted(s, id, qty);
    MintReconstructs(s.books, mv, id, s.locs[mv.src], s.locs[mv.dst], qty);
    MintBins(s.books, mv, id, s.locs[mv.src], s.locs[mv.dst], qty);
    SplitsFrame(s.moves, s'.moves, s.backorders);
    DoneMirrored(s, s'.moves, id, exact);
    forall k {:trigger BinAt(s'.books.bins, k)} ensures OnHand(s.locs, s'.quants, k) == BinAt(s'.books.bins, k).qty {
      var _ := BinAt(s.books.bins, k);
    }
  }

  lemma DoneMirrored(s: Estate, after: map<Id, Move>, id: Id, exact: bool)
    requires Sound(s, exact) && id in s.moves && Ready(s.moves[id].state)
    requires MoveQty(s.lines, id) > 0.0 || s.moves[id].demand == 0.0
    requires after == s.moves[id := s.moves[id].(state := Done, quantity := MoveQty(s.lines, id))]
    ensures Mirrored(s.locs, after, DoneLines(s, id), exact)
  {
    forall m {:trigger after[m]} | m in after
      ensures MoveMirror(after[m], IsInternal(s.locs, after[m].src), MoveQty(DoneLines(s, id), m), exact) {
      MoveQtyStamp(s.lines, id, Done, m);
      assert MoveMirror(s.moves[m], IsInternal(s.locs, s.moves[m].src), MoveQty(s.lines, m), exact);
    }
  }

  // ---- backorder and release ----------------------------------------------------------------

  /** The split's remainder, inserted and confirmed: the announced backorder. */
  lemma SplitInserts(s: Estate, id: Id, child: Id, exact: bool)
    requires SoundBut(s, exact, Some(id)) && id in s.moves && s.moves[id].state == Done
      && s.moves[id].quantity < s.moves[id].demand
    requires Fresh(s.moves, child)
    ensures var s0 := s.(moves := Insert(s.moves, child, Remainder(s.moves[id], id)));
      && Confirm(s0, child).Ok?
      && SoundBut(Confirm(s0, child).value.(backorders := s.backorders[id := child]), exact, Some(id))
  {
    hide Posted, Chained, Triangle, Agree, Reconstructs, Shape, Insert;
    var mv := s.moves[id];
    var m := Remainder(mv, id);
    RemainderOk(s, id, exact);
    InsertKeeps(s, child, m, exact, Some(id));
    InsertAt(s.moves, child, m, id);
    InsertedDraft(s.moves, child, m);
    var s0 := s.(moves := Insert(s.moves, child, m));
    ConfirmSound(s0, child, exact, Some(id));
    var s1 := Confirm(s0, child).value.(backorders := s.backorders[id := child]);
    forall p | p in s1.backorders ensures SplitOk(s1.moves, p, s1.backorders[p]) {
      if p != id { assert SplitOk(s0.moves, p, s0.backorders[p]); }
    }
  }

  lemma RemainderOk(s: Estate, id: Id, exact: bool)
    requires SoundBut(s, exact, Some(id)) && id in s.moves && s.moves[id].state == Done
      && s.moves[id].quantity < s.moves[id].demand
    ensures MoveOk(s.locs, DraftOf(Remainder(s.moves[id], id))) && 0.0 < s.moves[id].quantity
  {
    assert MoveOk(s.locs, s.moves[id]);
    assert MoveMirror(s.moves[id], IsInternal(s.locs, s.moves[id].src), MoveQty(s.lines, id), exact);
  }

  lemma InsertedDraft(moves: map<Id, Move>, id: Id, m: NewMove)
    requires id !in m.orig
    ensures id in Insert(moves, id, m) && Insert(moves, id, m)[id] == DraftOf(m)
  {
  }

  lemma SplitSound(s: Estate, id: Id, policy: Policy, child: Id, cands: seq<Dims>, exact: bool)
    requires SoundBut(s, exact, Some(id)) && id in s.moves && s.moves[id].state == Done
    requires Fresh(s.moves, child) && CandidatesOf(cands, s.moves[id].item, s.moves[id].src)
    requires Split(s, id, policy, child, cands).Ok?
    ensures SoundBut(Split(s, id, policy, child, cands).value, exact, Some(id))
  {
    hide SoundBut, Insert, AssignCore;
    var mv := s.moves[id];
    if mv.quantity < mv.demand && policy != Never {
      SplitInserts(s, id, child, exact);
      InsertedDraft(s.moves, child, Remainder(mv, id));
      var s0 := s.(moves := Insert(s.moves, child, Remainder(mv, id)));
      var s1 := Confirm(s0, child).value.(backorders := s.backorders[id := child]);
      if policy == Always && s1.moves[child].state == Confirmed {
        AssignCoreSound(s1, child, cands, exact, Some(id));
      }
    }
  }

  lemma ReleaseChained(moves: map<Id, Move>, kids: seq<Id>, id: Id)
    requires Chained(moves, Some(id))
    requires forall c :: c in moves && moves[c].state == Waiting && id in moves[c].orig ==> c in kids
    ensures Chained(Release(moves, kids), None)
  {
    var after := Release(moves, kids);
    forall c {:trigger InOrder(after, c, None)} | c in after ensures InOrder(after, c, None) {
      assert InOrder(moves, c, Some(id));
      SameParents(moves, after, moves[c], after[c]);
    }
    forall c, p {:trigger Linked(after, c, p)} ensures Linked(after, c, p) {
      assert Linked(moves, c, p);
    }
  }

  lemma ReleaseSound(s: Estate, kids: seq<Id>, id: Id, exact: bool)
    requires SoundBut(s, exact, Some(id))
    requires forall c :: c in s.moves && s.moves[c].state == Waiting && id in s.moves[c].orig ==> c in kids
    ensures Sound(s.(moves := Release(s.moves, kids)), exact)
  {
    var after := Release(s.moves, kids);
    hide Posted, Splits, Chained, Triangle, Agree, Reconstructs;
    ReleaseChained(s.moves, kids, id);
    RestatedLedger(s.locs, s.moves, after, s.books.rows, s.backorders);
    RestatedShape(s, after);
    forall m {:trigger after[m]} | m in after
      ensures MoveMirror(after[m], IsInternal(s.locs, after[m].src), MoveQty(s.lines, m), exact) {
      assert MoveMirror(s.moves[m], IsInternal(s.locs, s.moves[m].src), MoveQty(s.lines, m), exact);
    }
  }

  /** The split adds one move and changes only the links and the new move's state. */
  lemma SplitMoves(s: Estate, id: Id, policy: Policy, child: Id, cands: seq<Dims>)
    requires id in s.moves && s.moves[id].state == Done && child !in s.moves && Split(s, id, policy, child, cands).Ok?
    ensures var s' := Split(s, id, policy, child, cands).value;
      forall c :: c in s'.moves && s'.moves[c].state == Waiting ==>
        c in s.moves && s.moves[c].state == Waiting && s.moves[c].orig == s'.moves[c].orig
  {
    var mv := s.moves[id];
    if mv.quantity < mv.demand && policy != Never {
      var inserted := Insert(s.moves, child, Remainder(mv, id));
      InsertAt(s.moves, child, Remainder(mv, id), id);
      assert ConfirmedState(inserted, inserted[child]) == Confirmed;
    }
  }

  /** The whole done verb, its backorder and its releases included, keeps the estate sound. */
  lemma FinishSound(s: Estate, id: Id, policy: Policy, child: Id, cands: seq<Dims>, exact: bool)
    requires Sound(s, exact) && Finish(s, id, policy, child, cands).Ok?
    requires Fresh(s.moves, child) && CandidatesOf(cands, s.moves[id].item, s.moves[id].src)
    ensures Sound(Finish(s, id, policy, child, cands).value, exact)
  {
    hide DoneCore, Posted, Splits, Triangle, Mirrored, Shape, Agree, Reconstructs, Split, Release;
    var s1 := DoneCore(s, id).value;
    DoneCoreParts(s, id, exact);
    DoneCoreSound(s, id, exact);
    SplitSound(s1, id, policy, child, cands, exact);
    SplitMoves(s1, id, policy, child, cands);
    var s2 := Split(s1, id, policy, child, cands).value;
    forall c | c in s2.moves && s2.moves[c].state == Waiting && id in s2.moves[c].orig ensures c in s.moves[id].dest {
      assert c in s.moves && id in s.moves[c].orig;
      assert Linked(s.moves, c, id);
    }
    ReleaseSound(s2, s.moves[id].dest, id, exact);
  }
}
