/** The stock of a warehouse as the sum of its quants, and how each quant write moves it. */
module StockTotals {
  import opened Common
  import opened StockTypes
  import opened Valuation
  import opened ValuationLaws
  import opened Reservation

  function StockW(locs: map<Loc, Location>, quants: map<Dims, Quant>, k: BinKey): Dims -> real {
    (d: Dims) => if KeyOf(d.item, LocAt(locs, d.loc)) == Some(k) then QuantAt(quants, d).quantity else 0.0
  }

  /** The stock of an item over all internal locations of a warehouse. */
  ghost function OnHand(locs: map<Loc, Location>, quants: map<Dims, Quant>, k: BinKey): real {
    SetSum(quants.Keys, StockW(locs, quants, k))
  }

  /** Every bin's quantity is the stock of its warehouse's quants. */
  ghost predicate Agree(locs: map<Loc, Location>, quants: map<Dims, Quant>, bins: map<BinKey, Bin>) {
    forall k {:trigger BinAt(bins, k)} :: OnHand(locs, quants, k) == BinAt(bins, k).qty
  }

  /** Writes that keep every quantity keep the stock of every warehouse. */
  lemma SameQuantities(locs: map<Loc, Location>, quants: map<Dims, Quant>, after: map<Dims, Quant>, k: BinKey)
    requires quants.Keys <= after.Keys
    requires forall d :: QuantAt(after, d).quantity == QuantAt(quants, d).quantity
    ensures OnHand(locs, after, k) == OnHand(locs, quants, k)
  {
    SetSumPad(quants.Keys, after.Keys, StockW(locs, quants, k));
    assert quants.Keys + after.Keys == after.Keys;
    SetSumEqual(after.Keys, StockW(locs, after, k), StockW(locs, quants, k));
  }

  lemma SetQuant(locs: map<Loc, Location>, quants: map<Dims, Quant>, d: Dims, q: Quant, k: BinKey)
    ensures OnHand(locs, quants[d := q], k) == OnHand(locs, quants, k)
      + (if KeyOf(d.item, LocAt(locs, d.loc)) == Some(k) then q.quantity - QuantAt(quants, d).quantity else 0.0)
  {
    var after := quants[d := q];
    assert after.Keys == quants.Keys + {d};
    SetSumUpdate(quants.Keys, d, StockW(locs, quants, k), StockW(locs, after, k));
  }

  lemma DrawOneTotal(locs: map<Loc, Location>, quants: map<Dims, Quant>, l: Line, k: BinKey)
    requires l.src.loc != l.dstLoc && l.qty >= 0.0
    requires DrawOne(quants, l, IsInternal(locs, l.src.loc), IsInternal(locs, l.dstLoc)).Ok?
    ensures OnHand(locs, DrawOne(quants, l, IsInternal(locs, l.src.loc), IsInternal(locs, l.dstLoc)).value, k)
      == OnHand(locs, quants, k) + LegAt(l.src.item, LocAt(locs, l.src.loc), LocAt(locs, l.dstLoc), l.qty, l.qty, k)
  {
    if l.qty > 0.0 {
      var q := QuantAt(quants, l.src);
      var q1 := if IsInternal(locs, l.src.loc) then quants[l.src := Quant(q.quantity - l.qty, q.reserved)] else quants;
      if IsInternal(locs, l.src.loc) { SetQuant(locs, quants, l.src, Quant(q.quantity - l.qty, q.reserved), k); }
      var t := QuantAt(q1, DstDims(l));
      if IsInternal(locs, l.dstLoc) { SetQuant(locs, q1, DstDims(l), Quant(t.quantity + l.qty, t.reserved), k); }
    }
  }

  /** The lines of a move shift the stock of warehouses by what its ledger legs carry. */
  lemma {:induction false} DrawTotal(locs: map<Loc, Location>, quants: map<Dims, Quant>, ls: seq<Line>, item: Item,
      s: Loc, t: Loc, k: BinKey)
    requires Between(ls, s, t) && forall l :: l in ls ==> l.src.item == item
    requires DrawAll(quants, ls, IsInternal(locs, s), IsInternal(locs, t)).Ok?
    ensures OnHand(locs, DrawAll(quants, ls, IsInternal(locs, s), IsInternal(locs, t)).value, k)
      == OnHand(locs, quants, k) + LegAt(item, LocAt(locs, s), LocAt(locs, t), Sum(ls, QtyOf), Sum(ls, QtyOf), k)
  {
    if ls != [] {
      var n := |ls| - 1;
      assert ls[n] in ls;
      DrawTotal(locs, quants, ls[..n], item, s, t, k);
      DrawOneTotal(locs, DrawAll(quants, ls[..n], IsInternal(locs, s), IsInternal(locs, t)).value, ls[n], k);
    }
  }

  lemma {:induction false} OnHandNonNegative(locs: map<Loc, Location>, quants: map<Dims, Quant>, k: BinKey,
      ks: set<Dims>)
    requires forall d: Dims {:trigger QuantAt(quants, d)} | IsInternal(locs, d.loc) ::
      QuantAt(quants, d).quantity >= 0.0
    ensures SetSum(ks, StockW(locs, quants, k)) >= 0.0
    decreases |ks|
  {
    if ks != {} {
      var d :| d in ks;
      SetSumPick(ks, d, StockW(locs, quants, k));
      OnHandNonNegative(locs, quants, k, ks - {d});
      assert QuantAt(quants, d).quantity == QuantAt(quants, d).quantity;
    }
  }

  // ---- by lot and owner -------------------------------------------------------------

  predicate SameLot(d: Dims, item: Item, lot: Option<Id>, owner: Option<Id>) {
    d.item == item && d.lot == lot && d.owner == owner
  }

  function LotW(locs: map<Loc, Location>, quants: map<Dims, Quant>, item: Item, lot: Option<Id>, owner: Option<Id>):
      Dims -> real {
    (d: Dims) => if SameLot(d, item, lot, owner) && IsInternal(locs, d.loc) then QuantAt(quants, d).quantity else 0.0
  }

  /** The stock of one lot of an item, of one owner, over all internal locations and packages. */
  ghost function LotStock(locs: map<Loc, Location>, quants: map<Dims, Quant>, item: Item, lot: Option<Id>,
      owner: Option<Id>): real {
    SetSum(quants.Keys, LotW(locs, quants, item, lot, owner))
  }

  function LotLineW(item: Item, lot: Option<Id>, owner: Option<Id>): Line -> real {
    (l: Line) => if SameLot(l.src, item, lot, owner) then l.qty else 0.0
  }

  lemma SameLotStock(locs: map<Loc, Location>, quants: map<Dims, Quant>, after: map<Dims, Quant>, item: Item,
      lot: Option<Id>, owner: Option<Id>)
    requires quants.Keys <= after.Keys
    requires forall d :: QuantAt(after, d).quantity == QuantAt(quants, d).quantity
    ensures LotStock(locs, after, item, lot, owner) == LotStock(locs, quants, item, lot, owner)
  {
    SetSumPad(quants.Keys, after.Keys, LotW(locs, quants, item, lot, owner));
    assert quants.Keys + after.Keys == after.Keys;
    SetSumEqual(after.Keys, LotW(locs, after, item, lot, owner), LotW(locs, quants, item, lot, owner));
  }

  lemma SetLotQuant(locs: map<Loc, Location>, quants: map<Dims, Quant>, d: Dims, q: Quant, item: Item,
      lot: Option<Id>, owner: Option<Id>)
    ensures LotStock(locs, quants[d := q], item, lot, owner) == LotStock(locs, quants, item, lot, owner) +
      (if SameLot(d, item, lot, owner) && IsInternal(locs, d.loc)
       then q.quantity - QuantAt(quants, d).quantity else 0.0)
  {
    var after := quants[d := q];
    assert after.Keys == quants.Keys + {d};
    SetSumUpdate(quants.Keys, d, LotW(locs, quants, item, lot, owner), LotW(locs, after, item, lot, owner));
  }

  lemma DrawOneKeepsLots(locs: map<Loc, Location>, quants: map<Dims, Quant>, l: Line, item: Item, lot: Option<Id>,
      owner: Option<Id>)
    requires l.src.loc != l.dstLoc && l.qty >= 0.0
    requires DrawOne(quants, l, IsInternal(locs, l.src.loc), IsInternal(locs, l.dstLoc)).Ok?
    ensures var after := DrawOne(quants, l, IsInternal(locs, l.src.loc), IsInternal(locs, l.dstLoc)).value;
      LotStock(locs, after, item, lot, owner) == LotStock(locs, quants, item, lot, owner)
        + (if IsInternal(locs, l.dstLoc) then LotLineW(item, lot, owner)(l) else 0.0)
        - (if IsInternal(locs, l.src.loc) then LotLineW(item, lot, owner)(l) else 0.0)
  {
    if l.qty > 0.0 {
      var q := QuantAt(quants, l.src);
      var q1 := if IsInternal(locs, l.src.loc) then quants[l.src := Quant(q.quantity - l.qty, q.reserved)] else quants;
      if IsInternal(locs, l.src.loc) {
        SetLotQuant(locs, quants, l.src, Quant(q.quantity - l.qty, q.reserved), item, lot, owner);
      }
      var t := QuantAt(q1, DstDims(l));
      if IsInternal(locs, l.dstLoc) {
        SetLotQuant(locs, q1, DstDims(l), Quant(t.quantity + l.qty, t.reserved), item, lot, owner);
      }
    }
  }

  /** Stock keeps its lot and its owner: between two internal locations the stock of every lot and owner
      is conserved, and with one end outside it rises or falls by exactly the lines of that lot and owner. */
  lemma {:induction false} DrawKeepsLots(locs: map<Loc, Location>, quants: map<Dims, Quant>, ls: seq<Line>, s: Loc,
      t: Loc, item: Item, lot: Option<Id>, owner: Option<Id>)
    requires Between(ls, s, t) && DrawAll(quants, ls, IsInternal(locs, s), IsInternal(locs, t)).Ok?
    ensures var after := DrawAll(quants, ls, IsInternal(locs, s), IsInternal(locs, t)).value;
      var moved := Sum(ls, LotLineW(item, lot, owner));
      LotStock(locs, after, item, lot, owner) == LotStock(locs, quants, item, lot, owner)
        + (if IsInternal(locs, t) then moved else 0.0) - (if IsInternal(locs, s) then moved else 0.0)
  {
    if ls != [] {
      var n := |ls| - 1;
      assert ls[n] in ls;
      DrawKeepsLots(locs, quants, ls[..n], s, t, item, lot, owner);
      DrawOneKeepsLots(locs, DrawAll(quants, ls[..n], IsInternal(locs, s), IsInternal(locs, t)).value, ls[n], item, lot,
        owner);
    }
  }
}
