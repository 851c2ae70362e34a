/** What every committed state of the estate satisfies, one predicate per concern. */
module Invariants {
  import opened Common
  import opened StockTypes
  import opened Valuation
  import opened ValuationLaws
  import opened Reservation
  import opened StockTotals
  import opened Engine

  // ---- shape ---------------------------------------------------------------------

  predicate MoveOk(locs: map<Loc, Location>, mv: Move) {
    mv.demand >= 0.0 && mv.price >= 0.0 && mv.src != mv.dst && mv.src in locs && mv.dst in locs
  }

  predicate LineOk(mv: Move, l: Line) {
    l.src.item == mv.item && l.src.loc == mv.src && l.dstLoc == mv.dst && l.qty >= 0.0
      && (Live(l.state) <==> Live(mv.state))
  }

  /** Lines run between their move's locations and are live exactly when their move is. */
  ghost predicate Shape(locs: map<Loc, Location>, moves: map<Id, Move>, lines: seq<Line>) {
    && (forall m :: m in moves ==> MoveOk(locs, moves[m]))
    && (forall l :: l in lines ==> l.mv in moves && LineOk(moves[l.mv], l))
  }

  // ---- the mirror and the demand ---------------------------------------------------

  /** A move's lines never exceed its demand, a reservation only stands on a reserved move, and a
      done move did at most its demand. `exact` excludes operator edits of line quantities: then
      a move from outside holds all or nothing and is done whole, an assigned move likewise. */
  predicate MoveMirror(mv: Move, internal: bool, held: real, exact: bool) {
    && 0.0 <= held <= mv.demand
    && (mv.state == Draft ==> held == 0.0)
    && (internal && Live(mv.state) && held > 0.0 ==> mv.state == Assigned || mv.state == PartiallyAvailable)
    && (mv.state == Done ==> 0.0 <= mv.quantity <= mv.demand && (mv.demand > 0.0 ==> mv.quantity > 0.0))
    && (exact && Live(mv.state) && (!internal || mv.state == Assigned) ==> held == 0.0 || held == mv.demand)
    && (exact && mv.state == Done && !internal ==> mv.quantity == mv.demand)
  }

  ghost predicate Mirrored(locs: map<Loc, Location>, moves: map<Id, Move>, lines: seq<Line>, exact: bool) {
    forall m {:trigger moves[m]} ::
      m in moves ==> MoveMirror(moves[m], IsInternal(locs, moves[m].src), MoveQty(lines, m), exact)
  }

  /** The strict form of the mirror for one move: nobody edited the quantities of its lines. */
  ghost predicate Whole(s: Estate, m: Id)
    requires m in s.moves
  {
    MoveMirror(s.moves[m], IsInternal(s.locs, s.moves[m].src), MoveQty(s.lines, m), true)
  }

  // ---- chains ----------------------------------------------------------------------

  predicate Past(st: MoveState) { Ready(st) || st == Done }

  /** A move that names an existing parent is named by it. */
  predicate Linked(moves: map<Id, Move>, c: Id, p: Id) {
    c in moves && p in moves && p in moves[c].orig ==> c in moves[p].dest
  }

  /** A move past waiting has all its existing parents done; a waiting one still has one that is
      not, unless `just`, done in this very transaction and still to release its children, is
      one of them. */
  predicate InOrder(moves: map<Id, Move>, c: Id, just: Option<Id>)
    requires c in moves
  {
    && (Past(moves[c].state) ==> ParentsDone(moves, moves[c]))
    && (moves[c].state == Waiting ==> !ParentsDone(moves, moves[c]) || (just.Some? && just.value in moves[c].orig))
  }

  ghost predicate Chained(moves: map<Id, Move>, just: Option<Id>) {
    && (forall c, p {:trigger Linked(moves, c, p)} :: Linked(moves, c, p))
    && (forall c {:trigger InOrder(moves, c, just)} :: c in moves ==> InOrder(moves, c, just))
  }

  // ---- the ledger per move -----------------------------------------------------------

  /** What the ledger shows under a move's own voucher. */
  ghost predicate PostedOnce(locs: map<Loc, Location>, mv: Move, rows: seq<Row>, v: Voucher) {
    var src, dst := LocAt(locs, mv.src), LocAt(locs, mv.dst);
    && (forall k :: VoucherQty(rows, v, k) == LegAt(mv.item, src, dst, mv.quantity, mv.quantity, k))
    && (mv.forced.Some? ==>
       forall k :: VoucherValue(rows, v, k) == LegAt(mv.item, src, dst, mv.forced.value, mv.forced.value, k))
    && (mv.forced.None? && src.usage != Internal && mv.price > 0.0 ==>
          forall k :: VoucherValue(rows, v, k) == LegAt(mv.item, src, dst, 0.0, Amount(mv.quantity, mv.price), k))
  }

  /** Only done moves have ledger rows, and each shows its done quantity moved exactly once. */
  ghost predicate Posted(locs: map<Loc, Location>, moves: map<Id, Move>, rows: seq<Row>) {
    && (forall m {:trigger Unposted(rows, StockEntry(m))} ::
       (m in moves && moves[m].state == Done) || Unposted(rows, StockEntry(m)))
    && (forall m :: m in moves && moves[m].state == Done ==> PostedOnce(locs, moves[m], rows, StockEntry(m)))
  }

  // ---- backorders ----------------------------------------------------------------------

  /** A backorder carries exactly the demand its done parent left, and less than the parent's. */
  predicate SplitOk(moves: map<Id, Move>, p: Id, c: Id) {
    && p in moves && c in moves && p != c
    && moves[p].state == Done
    && moves[c].demand == moves[p].demand - moves[p].quantity
    && 0.0 < moves[c].demand < moves[p].demand
  }

  ghost predicate Splits(moves: map<Id, Move>, backorders: map<Id, Id>) {
    forall p :: p in backorders ==> SplitOk(moves, p, backorders[p])
  }

  // ---- together ------------------------------------------------------------------------

  ghost predicate Sound(s: Estate, exact: bool) { SoundBut(s, exact, None) }

  ghost predicate SoundBut(s: Estate, exact: bool, just: Option<Id>) {
    && Shape(s.locs, s.moves, s.lines)
    && Triangle(s.locs, s.lines, s.quants, exact)
    && Mirrored(s.locs, s.moves, s.lines, exact)
    && Chained(s.moves, just)
    && Agree(s.locs, s.quants, s.books.bins)
    && Reconstructs(s.books)
    && Posted(s.locs, s.moves, s.books.rows)
    && Splits(s.moves, s.backorders)
  }

  lemma QtysOk(locs: map<Loc, Location>, moves: map<Id, Move>, lines: seq<Line>)
    requires Shape(locs, moves, lines)
    ensures QtysNonNegative(lines)
  {
    forall l | l in lines ensures l.qty >= 0.0 { assert LineOk(moves[l.mv], l); }
  }

  lemma OwnBetween(locs: map<Loc, Location>, moves: map<Id, Move>, lines: seq<Line>, m: Id)
    requires Shape(locs, moves, lines) && m in moves
    ensures Between(LinesOf(lines, m), moves[m].src, moves[m].dst)
    ensures forall l :: l in LinesOf(lines, m) ==> l.src.item == moves[m].item
    ensures Sum(LinesOf(lines, m), QtyOf) == MoveQty(lines, m)
  {
    LinesOfMembers(lines, m);
    SumLinesOf(lines, m, QtyOf, OfW(m));
    assert MoveOk(locs, moves[m]);
    forall l | l in LinesOf(lines, m) ensures LineOk(moves[m], l) { assert l in lines; }
  }

  // ---- frames over the moves -------------------------------------------------------------

  /** `after` differs from `moves` only in states, and in none of them reaches or leaves done. */
  predicate StatesOnly(moves: map<Id, Move>, after: map<Id, Move>) {
    && after.Keys == moves.Keys
    && forall m {:trigger after[m]} ::
       m in moves ==>
         && after[m] == moves[m].(state := after[m].state)
         && (after[m].state == Done <==> moves[m].state == Done)
  }

  /** Whether a move's parents are done depends only on which of them exist and are done. */
  lemma SameParents(moves: map<Id, Move>, after: map<Id, Move>, a: Move, b: Move)
    requires a.orig == b.orig
    requires forall p :: p in a.orig ==>
      (p in moves <==> p in after) && (p in moves ==> (moves[p].state == Done <==> after[p].state == Done))
    ensures ParentsDone(after, b) <==> ParentsDone(moves, a)
  {
  }

  lemma ChainedFrame(moves: map<Id, Move>, after: map<Id, Move>, just: Option<Id>)
    requires Chained(moves, just) && StatesOnly(moves, after)
    requires forall m {:trigger after[m]} :: m in moves && Past(after[m].state) ==> Past(moves[m].state)
    requires forall m {:trigger after[m]} :: m in moves && after[m].state == Waiting ==> moves[m].state == Waiting
    ensures Chained(after, just)
  {
    forall c {:trigger InOrder(after, c, just)} | c in after ensures InOrder(after, c, just) {
      assert InOrder(moves, c, just);
      SameParents(moves, after, moves[c], after[c]);
    }
    forall c, p {:trigger Linked(after, c, p)} ensures Linked(after, c, p) {
      assert Linked(moves, c, p);
      if c in after && p in after { assert after[c].orig == moves[c].orig && after[p].dest == moves[p].dest; }
    }
  }

  lemma PostedFrame(locs: map<Loc, Location>, moves: map<Id, Move>, after: map<Id, Move>, rows: seq<Row>)
    requires Posted(locs, moves, rows) && moves.Keys <= after.Keys
    requires forall m {:trigger after[m]} :: m in after ==>
      if m in moves then (after[m].state == Done <==> moves[m].state == Done)
        && (after[m].state == Done ==> SameOnLedger(moves[m], after[m]))
      else after[m].state != Done
    ensures Posted(locs, after, rows)
  {
    forall m {:trigger Unposted(rows, StockEntry(m))}
      ensures (m in after && after[m].state == Done) || Unposted(rows, StockEntry(m)) {
      if m in moves && moves[m].state == Done { var _ := after[m]; }
    }
    forall m | m in after && after[m].state == Done ensures PostedOnce(locs, after[m], rows, StockEntry(m)) {
      assert PostedOnce(locs, moves[m], rows, StockEntry(m));
    }
  }

  predicate SameOnLedger(a: Move, b: Move) {
    a.item == b.item && a.quantity == b.quantity && a.src == b.src && a.dst == b.dst && a.forced == b.forced
      && a.price == b.price
  }

  lemma SplitsFrame(moves: map<Id, Move>, after: map<Id, Move>, backorders: map<Id, Id>)
    requires Splits(moves, backorders) && moves.Keys <= after.Keys
    requires forall m {:trigger after[m]} :: m in moves ==>
      after[m].demand == moves[m].demand
        && (moves[m].state == Done ==> after[m].state == Done && after[m].quantity == moves[m].quantity)
    ensures Splits(after, backorders)
  {
    forall p | p in backorders ensures SplitOk(after, p, backorders[p]) { assert SplitOk(moves, p, backorders[p]); }
  }

  /** A change of states alone, none reaching or leaving done, keeps the ledger and the backorders. */
  lemma RestatedLedger(locs: map<Loc, Location>, moves: map<Id, Move>, after: map<Id, Move>, rows: seq<Row>,
      backorders: map<Id, Id>)
    requires StatesOnly(moves, after) && Posted(locs, moves, rows) && Splits(moves, backorders)
    ensures Posted(locs, after, rows) && Splits(after, backorders)
  {
    hide Posted, Splits;
    PostedFrame(locs, moves, after, rows);
    SplitsFrame(moves, after, backorders);
  }

  // ---- what lines of one move add up to, under each edit --------------------------------------

  lemma MoveQtyAppend(lines: seq<Line>, more: seq<Line>, id: Id, m: Id)
    requires forall l :: l in more ==> l.mv == id
    ensures MoveQty(lines + more, m) == MoveQty(lines, m) + (if m == id then Sum(more, QtyOf) else 0.0)
  {
    SumConcat(lines, more, OfW(m));
    forall i | 0 <= i < |more| ensures more[i].mv == id { assert more[i] in more; }
    if m == id { SumEqual(more, more, OfW(m), QtyOf); } else { SumZero(more, OfW(m)); }
  }

  lemma MoveQtyStamp(lines: seq<Line>, id: Id, st: MoveState, m: Id)
    ensures MoveQty(StampLines(lines, id, st), m) == MoveQty(lines, m)
  {
    SumEqual(StampLines(lines, id, st), lines, OfW(m), OfW(m));
  }

  lemma MoveQtyZero(lines: seq<Line>, id: Id, m: Id)
    ensures MoveQty(ZeroLines(lines, id), m) == if m == id then 0.0 else MoveQty(lines, m)
  {
    if m == id {
      SumZero(ZeroLines(lines, id), OfW(m));
    } else {
      SumEqual(ZeroLines(lines, id), lines, OfW(m), OfW(m));
    }
  }

  lemma MoveQtyNone(lines: seq<Line>, m: Id)
    requires forall l :: l in lines ==> l.mv != m
    ensures MoveQty(lines, m) == 0.0
  {
    SumZero(lines, OfW(m));
  }
}
