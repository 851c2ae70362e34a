/** The moving-average engine: one bin per item and warehouse, moved only by appending
    ledger rows. Receipts blend the rate, outflows consume it, a drain flushes the residual. */
module Valuation {
  import opened Common
  import opened Rounding
  import opened StockTypes

  const EmptyBin := Bin(0.0, 0.0, 0.0)

  function BinAt(bins: map<BinKey, Bin>, k: BinKey): Bin { if k in bins then bins[k] else EmptyBin }

  /** The bin a location's stock is valued in: only an internal location of a warehouse has one. */
  function KeyOf(item: Item, l: Location): Option<BinKey> {
    if l.usage == Internal && l.warehouse.Some? then Some(BinKey(item, l.warehouse.value)) else None
  }

  // ---- one bin ----------------------------------------------------------------

  datatype BinOp =
    | In(qty: real, carried: real)
    | Out(qty: real)
    | ForcedOut(qty: real, worth: real)
    | Revalue(delta: real)

  /** The value an outflow carries: a forced amount, the whole residual on a drain, or the average. */
  function OutValue(b: Bin, qty: real, forced: Option<real>): real {
    match forced
    case Some(fv) => fv
    case None => if b.qty - qty == 0.0 then b.value else Amount(qty, b.rate)
  }

  function Blend(qty: real, value: real): Bin {
    Bin(qty, if qty > 0.0 then Rate6(value / qty) else 0.0, value)
  }

  function StepBin(b: Bin, op: BinOp): Bin {
    match op
    case In(qty, carried) => Blend(b.qty + qty, b.value + carried)
    case Revalue(delta) => Blend(b.qty, b.value + delta)
    case ForcedOut(qty, worth) => Blend(b.qty - qty, b.value - worth)
    case Out(qty) =>
      var left := b.qty - qty;
      Bin(left, if left > 0.0 then b.rate else 0.0, b.value - OutValue(b, qty, None))
  }

  function OutOp(qty: real, forced: Option<real>): BinOp {
    match forced case Some(fv) => ForcedOut(qty, fv) case None => Out(qty)
  }

  // ---- the books --------------------------------------------------------------

  function Post(books: Books, v: Voucher, k: BinKey, actual: real, incoming: real, after: Bin, diff: real): Books {
    Books(books.bins[k := after], books.rows + [Row(v, k, actual, incoming, after, diff)])
  }

  datatype Minted = Minted(books: Books, rows: nat, outValue: real, inValue: real)

  /** A line's amount: quantity at a unit price, to the cent. */
  function Amount(qty: real, price: real): real { Money(qty * price) }

  /** A receipt is worth its line amount; a zero price carries the bin's current average. */
  function ReceiptValue(qty: real, price: real, rate: real): real {
    if price > 0.0 then Amount(qty, price) else Amount(qty, rate)
  }

  /** The value the incoming leg carries; `b` is the destination bin before the move. */
  function Carried(mv: Move, src: Location, b: Bin, qty: real, outValue: real): real {
    match mv.forced
    case Some(fv) => fv
    case None =>
      if src.usage == Internal then outValue else ReceiptValue(qty, mv.price, b.rate)
  }

  function MintOut(books: Books, mv: Move, id: Id, ks: Option<BinKey>, qty: real): Outcome<Minted> {
    match ks
    case None => Ok(Minted(books, 0, 0.0, 0.0))
    case Some(k) =>
      var b := BinAt(books.bins, k);
      if b.qty - qty < 0.0 then Err(InsufficientStock) else
      var ov := OutValue(b, qty, mv.forced);
      Ok(Minted(Post(books, StockEntry(id), k, -qty, 0.0, StepBin(b, OutOp(qty, mv.forced)), -ov), 1, ov, 0.0))
  }

  function MintIn(m: Minted, mv: Move, id: Id, src: Location, kd: Option<BinKey>, qty: real): Minted {
    match kd
    case None => m
    case Some(k) =>
      var b := BinAt(m.books.bins, k);
      var carried := Carried(mv, src, b, qty, m.outValue);
      Minted(Post(m.books, StockEntry(id), k, qty, mv.price, StepBin(b, In(qty, carried)), carried), m.rows + 1,
        m.outValue, carried)
  }

  /** The valuation of a done move: nothing inside one warehouse, otherwise the outgoing leg at
      the source bin's average and then the incoming leg. */
  function Mint(books: Books, mv: Move, id: Id, src: Location, dst: Location, qty: real): Outcome<Minted> {
    var ks, kd := KeyOf(mv.item, src), KeyOf(mv.item, dst);
    if ks == kd then Ok(Minted(books, 0, 0.0, 0.0)) else
    match MintOut(books, mv, id, ks, qty)
    case Err(e) => Err(e)
    case Ok(m) => Ok(MintIn(m, mv, id, src, kd, qty))
  }

  /** The value-only revaluation of a done move's destination bin; a zero delta or a row that
      already landed under the same landed cost and line changes nothing. */
  function AdjustMoveValue(books: Books, item: Item, dst: Location, lc: Id, line: Id, delta: real): Outcome<Books> {
    if delta == 0.0 then Ok(books) else
    match KeyOf(item, dst)
    case None => Err(LandedCostNoValuationAccount)
    case Some(k) =>
      if exists r :: r in books.rows && r.voucher == LandedCost(lc, line) then Ok(books) else
      Ok(Post(books, LandedCost(lc, line), k, 0.0, 0.0, StepBin(BinAt(books.bins, k), Revalue(delta)), delta))
  }

  // ---- the ledger reconstructs the bins ----------------------------------------

  function QtyW(k: BinKey): Row -> real { (r: Row) => if r.key == k then r.actual else 0.0 }
  function ValueW(k: BinKey): Row -> real { (r: Row) => if r.key == k then r.diff else 0.0 }

  predicate LastAt(rows: seq<Row>, i: nat)
    requires i < |rows|
  {
    forall j :: i < j < |rows| ==> rows[j].key != rows[i].key
  }

  /** Every bin is the sum of its ledger rows, and its latest row shows exactly the bin. */
  ghost predicate Reconstructs(books: Books) {
    && (forall k {:trigger BinAt(books.bins, k)} ::
          BinAt(books.bins, k).qty == Sum(books.rows, QtyW(k))
            && BinAt(books.bins, k).value == Sum(books.rows, ValueW(k)))
    && (forall i :: 0 <= i < |books.rows| && LastAt(books.rows, i) ==>
       books.rows[i].after == BinAt(books.bins, books.rows[i].key))
  }

  lemma PostReconstructs(books: Books, v: Voucher, k: BinKey, actual: real, incoming: real, after: Bin, diff: real)
    requires Reconstructs(books)
    requires after.qty == BinAt(books.bins, k).qty + actual && after.value == BinAt(books.bins, k).value + diff
    ensures Reconstructs(Post(books, v, k, actual, incoming, after, diff))
  {
    var post := Post(books, v, k, actual, incoming, after, diff);
    var row := Row(v, k, actual, incoming, after, diff);
    forall j {:trigger BinAt(post.bins, j)}
      ensures BinAt(post.bins, j).qty == Sum(post.rows, QtyW(j))
        && BinAt(post.bins, j).value == Sum(post.rows, ValueW(j))
    {
      SumAppend(books.rows, row, QtyW(j));
      SumAppend(books.rows, row, ValueW(j));
      var _ := BinAt(books.bins, j);
    }
    forall i | 0 <= i < |post.rows| && LastAt(post.rows, i)
      ensures post.rows[i].after == BinAt(post.bins, post.rows[i].key)
    {
      if i < |books.rows| {
        assert post.rows[|books.rows|].key != post.rows[i].key;
        assert LastAt(books.rows, i) by {
          forall j | i < j < |books.rows| ensures books.rows[j].key != books.rows[i].key {
            assert post.rows[j] == books.rows[j];
          }
        }
      }
    }
  }

  lemma MintOutReconstructs(books: Books, mv: Move, id: Id, ks: Option<BinKey>, qty: real)
    requires Reconstructs(books)
    ensures var r := MintOut(books, mv, id, ks, qty);
      r.Ok? ==>
        && Reconstructs(r.value.books) && books.rows <= r.value.books.rows
        && |r.value.books.rows| == |books.rows| + r.value.rows
  {
    if ks.Some? {
      var b := BinAt(books.bins, ks.value);
      PostReconstructs(books, StockEntry(id), ks.value, -qty, 0.0, StepBin(b, OutOp(qty, mv.forced)),
        -OutValue(b, qty, mv.forced));
    }
  }

  lemma MintInReconstructs(m: Minted, mv: Move, id: Id, src: Location, kd: Option<BinKey>, qty: real)
    requires Reconstructs(m.books)
    ensures var r := MintIn(m, mv, id, src, kd, qty);
      Reconstructs(r.books) && m.books.rows <= r.books.rows && |r.books.rows| - r.rows == |m.books.rows| - m.rows
  {
    if kd.Some? {
      var b := BinAt(m.books.bins, kd.value);
      var c := Carried(mv, src, b, qty, m.outValue);
      PostReconstructs(m.books, StockEntry(id), kd.value, qty, mv.price, StepBin(b, In(qty, c)), c);
    }
  }

  /** Both legs of a move keep the ledger and the bins in agreement, and only append rows. */
  lemma MintReconstructs(books: Books, mv: Move, id: Id, src: Location, dst: Location, qty: real)
    requires Reconstructs(books)
    ensures var r := Mint(books, mv, id, src, dst, qty);
      r.Ok? ==>
        && Reconstructs(r.value.books) && books.rows <= r.value.books.rows
        && |r.value.books.rows| == |books.rows| + r.value.rows
  {
    var ks, kd := KeyOf(mv.item, src), KeyOf(mv.item, dst);
    MintOutReconstructs(books, mv, id, ks, qty);
    var m := MintOut(books, mv, id, ks, qty);
    if ks != kd && m.Ok? { MintInReconstructs(m.value, mv, id, src, kd, qty); }
  }

  /** One line of a landed cost lands at most once: repeating it, whatever the delta, changes nothing. */
  lemma AdjustLandsOnce(books: Books, item: Item, dst: Location, lc: Id, line: Id, delta: real, again: real)
    requires AdjustMoveValue(books, item, dst, lc, line, delta).Ok? && delta != 0.0
    ensures var after := AdjustMoveValue(books, item, dst, lc, line, delta).value;
      AdjustMoveValue(after, item, dst, lc, line, again) == Ok(after)
  {
    hide StepBin;
    var after := AdjustMoveValue(books, item, dst, lc, line, delta).value;
    if after != books {
      assert after.rows[|books.rows|].voucher == LandedCost(lc, line);
      assert after.rows[|books.rows|] in after.rows;
    }
  }

  lemma AdjustReconstructs(books: Books, item: Item, dst: Location, lc: Id, line: Id, delta: real)
    requires Reconstructs(books)
    ensures var r := AdjustMoveValue(books, item, dst, lc, line, delta);
      r.Ok? ==> Reconstructs(r.value) && books.rows <= r.value.rows
  {
    if KeyOf(item, dst).Some? {
      var k := KeyOf(item, dst).value;
      PostReconstructs(books, LandedCost(lc, line), k, 0.0, 0.0, StepBin(BinAt(books.bins, k), Revalue(delta)), delta);
    }
  }
}
