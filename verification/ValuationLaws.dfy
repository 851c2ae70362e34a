/** What the moving average promises over whole runs: bounded drift between value and
    quantity times rate, nothing lost when a bin drains, exact reversals, and one posting
    per voucher. */
module ValuationLaws {
  import opened Common
  import opened Rounding
  import opened StockTypes
  import opened Valuation

  // ---- drift of one bin over every run ------------------------------------------

  /** A bin with what its drift depends on: the quantity at its last reblend and the number
      of average-priced outflows since. */
  datatype Tracked = Tracked(bin: Bin, base: real, outs: nat)

  function Track(t: Tracked, op: BinOp): Tracked {
    var b := StepBin(t.bin, op);
    if op.Out? then Tracked(b, t.base, t.outs + 1) else Tracked(b, b.qty, 0)
  }

  function TrackRun(ops: seq<BinOp>): Tracked {
    if ops == [] then Tracked(EmptyBin, 0.0, 0) else Track(TrackRun(ops[..|ops| - 1]), ops[|ops| - 1])
  }

  predicate LegalStep(b: Bin, op: BinOp) {
    match op
    case In(qty, _) => qty >= 0.0
    case Revalue(_) => true
    case _ => 0.0 <= op.qty <= b.qty
  }

  /** No operation of the run is negative or overdraws the bin. */
  predicate LegalRun(ops: seq<BinOp>) {
    ops == [] || (var n := |ops| - 1; LegalRun(ops[..n]) && LegalStep(TrackRun(ops[..n]).bin, ops[n]))
  }

  function DriftBound(t: Tracked): real { t.base * 0.0000005 + t.outs as real * 0.005 }

  /** A bin's value is within `bound` of its quantity times its rate. */
  ghost predicate Near(b: Bin, bound: real) { Abs(b.value - b.qty * b.rate) <= bound }

  ghost predicate Bounded(t: Tracked) {
    0.0 <= t.bin.qty <= t.base && (t.bin.qty > 0.0 ==> Near(t.bin, DriftBound(t)))
  }

  lemma MulLe(a: real, b: real, c: real)
    requires a >= 0.0 && b <= c
    ensures a * b <= a * c
  {
  }

  lemma BlendDrift(qty: real, value: real)
    requires qty > 0.0
    ensures Near(Blend(qty, value), qty * 0.0000005)
  {
    var r := Rate6(value / qty);
    Rate6Near(value / qty);
    assert qty * (value / qty) == value;
    MulLe(qty, r - value / qty, 0.0000005);
    MulLe(qty, value / qty - r, 0.0000005);
    assert qty * (r - value / qty) == qty * r - value;
    assert qty * (value / qty - r) == value - qty * r;
  }

  lemma OutDrift(b: Bin, qty: real, bound: real)
    requires b.qty - qty > 0.0 && Near(b, bound)
    ensures Near(StepBin(b, Out(qty)), bound + 0.005)
  {
    MoneyFacts(qty * b.rate);
    assert (b.qty - qty) * b.rate == b.qty * b.rate - qty * b.rate;
  }

  lemma TrackBounded(t: Tracked, op: BinOp)
    requires Bounded(t) && LegalStep(t.bin, op)
    ensures Bounded(Track(t, op))
  {
    match op
    case Out(qty) => if t.bin.qty - qty > 0.0 { OutDrift(t.bin, qty, DriftBound(t)); }
    case In(qty, carried) => if t.bin.qty + qty > 0.0 { BlendDrift(t.bin.qty + qty, t.bin.value + carried); }
    case ForcedOut(qty, worth) => if t.bin.qty - qty > 0.0 { BlendDrift(t.bin.qty - qty, t.bin.value - worth); }
    case Revalue(delta) => if t.bin.qty > 0.0 { BlendDrift(t.bin.qty, t.bin.value + delta); }
  }

  /** Over every legal run, forced reversals and landed costs included, a bin with stock has
      value within the drift bound of quantity times rate. */
  lemma {:induction false} DriftOverEveryRun(ops: seq<BinOp>)
    requires LegalRun(ops)
    ensures Bounded(TrackRun(ops))
  {
    if ops != [] {
      var n := |ops| - 1;
      DriftOverEveryRun(ops[..n]);
      TrackBounded(TrackRun(ops[..n]), ops[n]);
    }
  }

  lemma DrainEmpties(b: Bin)
    requires b.qty > 0.0
    ensures OutValue(b, b.qty, None) == b.value && StepBin(b, Out(b.qty)) == EmptyBin
  {
    assert b.qty - b.qty == 0.0;
  }

  /** Hence the residual the final draining outflow flushes, the whole value, is that close to
      quantity times rate. */
  lemma FlushBound(ops: seq<BinOp>)
    requires LegalRun(ops) && TrackRun(ops).bin.qty > 0.0
    ensures var b := TrackRun(ops).bin;
      && StepBin(b, Out(b.qty)) == EmptyBin
      && OutValue(b, b.qty, None) == b.value
      && Near(b.(value := OutValue(b, b.qty, None)), DriftBound(TrackRun(ops)))
  {
    DriftOverEveryRun(ops);
    var b := TrackRun(ops).bin;
    DrainEmpties(b);
    assert b.(value := b.value) == b;
  }

  // ---- the books are the product of their bins -----------------------------------

  datatype BooksOp =
    | Moved(mv: Move, id: Id, src: Location, dst: Location, qty: real)
    | Adjusted(item: Item, dst: Location, lc: Id, line: Id, delta: real)

  /** A refused operation rolls back. */
  function StepBooks(books: Books, op: BooksOp): Books {
    match op
    case Moved(mv, id, src, dst, qty) =>
      (match Mint(books, mv, id, src, dst, qty) case Ok(m) => m.books case Err(_) => books)
    case Adjusted(item, dst, lc, line, delta) =>
      (match AdjustMoveValue(books, item, dst, lc, line, delta) case Ok(b) => b case Err(_) => books)
  }

  const EmptyBooks := Books(map[], [])

  function RunBooks(ops: seq<BooksOp>): Books {
    if ops == [] then EmptyBooks else StepBooks(RunBooks(ops[..|ops| - 1]), ops[|ops| - 1])
  }

  /** What one operation does to bin `k`. */
  function LegsAt(books: Books, op: BooksOp, k: BinKey): seq<BinOp> {
    match op
    case Moved(mv, id, src, dst, qty) =>
      var ks, kd := KeyOf(mv.item, src), KeyOf(mv.item, dst);
      var m := MintOut(books, mv, id, ks, qty);
      if ks == kd || m.Err? then []
      else if ks == Some(k) then [OutOp(qty, mv.forced)]
      else if kd == Some(k) then [In(qty, Carried(mv, src, BinAt(books.bins, k), qty, m.value.outValue))]
      else []
    case Adjusted(item, dst, lc, line, delta) =>
      if delta == 0.0 || KeyOf(item, dst) != Some(k)
        || (exists r :: r in books.rows && r.voucher == LandedCost(lc, line))
      then [] else [Revalue(delta)]
  }

  function Trail(ops: seq<BooksOp>, k: BinKey): seq<BinOp> {
    if ops == [] then [] else
    var n := |ops| - 1;
    Trail(ops[..n], k) + LegsAt(RunBooks(ops[..n]), ops[n], k)
  }

  predicate NonNegative(op: BooksOp) { op.Moved? ==> op.qty >= 0.0 }

  lemma StepBooksAt(books: Books, op: BooksOp, k: BinKey)
    requires NonNegative(op)
    ensures |LegsAt(books, op, k)| <= 1
    ensures var b := BinAt(books.bins, k); var legs := LegsAt(books, op, k);
      BinAt(StepBooks(books, op).bins, k) == if legs == [] then b else StepBin(b, legs[0])
    ensures var legs := LegsAt(books, op, k); legs != [] ==> LegalStep(BinAt(books.bins, k), legs[0])
  {
  }

  /** Each bin of the books is the run of its own trail, and that run is legal. */
  lemma {:induction false} BinIsItsTrail(ops: seq<BooksOp>, k: BinKey)
    requires forall op :: op in ops ==> NonNegative(op)
    ensures BinAt(RunBooks(ops).bins, k) == TrackRun(Trail(ops, k)).bin
    ensures LegalRun(Trail(ops, k))
  {
    if ops != [] {
      var n := |ops| - 1;
      BinIsItsTrail(ops[..n], k);
      var legs := LegsAt(RunBooks(ops[..n]), ops[n], k);
      StepBooksAt(RunBooks(ops[..n]), ops[n], k);
      var trail := Trail(ops[..n], k);
      if legs == [] {
        assert trail + legs == trail;
      } else {
        assert legs == [legs[0]];
        assert (trail + legs)[..|trail|] == trail;
      }
    }
  }

  /** Every bin of any run of moves and landed costs meets the drift bound of its trail. */
  lemma BooksDrift(ops: seq<BooksOp>, k: BinKey)
    requires forall op :: op in ops ==> NonNegative(op)
    ensures var b := BinAt(RunBooks(ops).bins, k);
      b.qty >= 0.0 && (b.qty > 0.0 ==> Near(b, DriftBound(TrackRun(Trail(ops, k)))))
  {
    BinIsItsTrail(ops, k);
    DriftOverEveryRun(Trail(ops, k));
  }

  lemma {:induction false} RunReconstructs(ops: seq<BooksOp>)
    ensures Reconstructs(RunBooks(ops))
  {
    if ops != [] {
      var n := |ops| - 1;
      RunReconstructs(ops[..n]);
      match ops[n]
      case Moved(mv, id, src, dst, qty) => MintReconstructs(RunBooks(ops[..n]), mv, id, src, dst, qty);
      case Adjusted(item, dst, lc, line, delta) => AdjustReconstructs(RunBooks(ops[..n]), item, dst, lc, line, delta);
    }
  }

  // ---- nothing is lost on drain ---------------------------------------------------

  /** An ordinary operation: a move that carries no forced value. */
  predicate Ordinary(op: BooksOp) { op.Moved? && op.mv.forced.None? && op.qty >= 0.0 }

  /** An empty bin holds no value. */
  ghost predicate NothingStranded(books: Books) {
    forall k {:trigger BinAt(books.bins, k)} :: Settled(BinAt(books.bins, k))
  }

  ghost predicate Settled(b: Bin) { b.qty >= 0.0 && (b.qty == 0.0 ==> b.value == 0.0) }

  lemma StepSettled(b: Bin, op: BinOp)
    requires Settled(b) && LegalStep(b, op)
    requires op.Out? || (op.In? && (op.qty == 0.0 ==> op.carried == 0.0))
    ensures Settled(StepBin(b, op))
  {
    hide Amount, Rate6;
  }

  lemma ReceiptOfNothing(price: real, rate: real)
    ensures ReceiptValue(0.0, price, rate) == 0.0
  {
    assert 0.0 * price == 0.0 && 0.0 * rate == 0.0;
  }

  lemma OutOfNothing(b: Bin)
    requires Settled(b)
    ensures OutValue(b, 0.0, None) == 0.0
  {
    assert 0.0 * b.rate == 0.0;
  }

  lemma OrdinaryLegs(books: Books, op: BooksOp, k: BinKey)
    requires NothingStranded(books) && Ordinary(op)
    ensures var legs := LegsAt(books, op, k);
      legs != [] ==> legs[0].Out? || (legs[0].In? && (legs[0].qty == 0.0 ==> legs[0].carried == 0.0))
  {
    hide ReceiptValue, OutValue, StepBin;
    var ks := KeyOf(op.mv.item, op.src);
    ReceiptOfNothing(op.mv.price, BinAt(books.bins, k).rate);
    if ks.Some? { OutOfNothing(BinAt(books.bins, ks.value)); }
  }

  lemma StepStrandsNothing(books: Books, op: BooksOp)
    requires NothingStranded(books) && Ordinary(op)
    ensures NothingStranded(StepBooks(books, op))
  {
    hide StepBin, StepBooks, LegsAt;
    forall k {:trigger BinAt(StepBooks(books, op).bins, k)} ensures Settled(BinAt(StepBooks(books, op).bins, k)) {
      StepBooksAt(books, op, k);
      OrdinaryLegs(books, op, k);
      var legs := LegsAt(books, op, k);
      assert Settled(BinAt(books.bins, k));
      if legs != [] { StepSettled(BinAt(books.bins, k), legs[0]); }
    }
  }

  lemma {:induction false} RunStrandsNothing(ops: seq<BooksOp>)
    requires forall op :: op in ops ==> Ordinary(op)
    ensures NothingStranded(RunBooks(ops))
  {
    if ops != [] {
      var n := |ops| - 1;
      RunStrandsNothing(ops[..n]);
      assert ops[n] in ops;
      StepStrandsNothing(RunBooks(ops[..n]), ops[n]);
    }
  }

  function CarriedInW(k: BinKey): Row -> real { (r: Row) => if r.key == k && r.actual >= 0.0 then r.diff else 0.0 }
  function CarriedOutW(k: BinKey): Row -> real { (r: Row) => if r.key == k && r.actual < 0.0 then -r.diff else 0.0 }
  function NegatedW(w: Row -> real): Row -> real { (r: Row) => -w(r) }

  lemma {:induction false} SumNegated(rows: seq<Row>, w: Row -> real)
    ensures Sum(rows, NegatedW(w)) == -Sum(rows, w)
  {
    if rows != [] { SumNegated(rows[..|rows| - 1], w); }
  }

  /** In any run of ordinary moves, a bin that ends empty has carried out exactly the value it
      took in, to the cent, whatever the rounding of the outflows between. */
  lemma NothingLostOnDrain(ops: seq<BooksOp>, k: BinKey)
    requires forall op :: op in ops ==> Ordinary(op)
    requires BinAt(RunBooks(ops).bins, k).qty == 0.0
    ensures Sum(RunBooks(ops).rows, CarriedOutW(k)) == Sum(RunBooks(ops).rows, CarriedInW(k))
  {
    var books := RunBooks(ops);
    RunStrandsNothing(ops);
    RunReconstructs(ops);
    assert BinAt(books.bins, k).value == 0.0;
    SumAdd(books.rows, books.rows, books.rows, ValueW(k), CarriedInW(k), NegatedW(CarriedOutW(k)));
    SumNegated(books.rows, CarriedOutW(k));
  }

  // ---- each voucher posts once -----------------------------------------------------

  function VoucherQtyW(v: Voucher, k: BinKey): Row -> real {
    (r: Row) => if r.voucher == v && r.key == k then r.actual else 0.0
  }
  function VoucherValueW(v: Voucher, k: BinKey): Row -> real {
    (r: Row) => if r.voucher == v && r.key == k then r.diff else 0.0
  }

  function VoucherQty(rows: seq<Row>, v: Voucher, k: BinKey): real { Sum(rows, VoucherQtyW(v, k)) }
  function VoucherValue(rows: seq<Row>, v: Voucher, k: BinKey): real { Sum(rows, VoucherValueW(v, k)) }

  /** `into` on the destination bin, minus `from` on the source bin, zero within one bin. */
  function LegAt(item: Item, src: Location, dst: Location, from: real, into: real, k: BinKey): real {
    var ks, kd := KeyOf(item, src), KeyOf(item, dst);
    if ks == kd then 0.0 else (if kd == Some(k) then into else 0.0) - (if ks == Some(k) then from else 0.0)
  }

  predicate Unposted(rows: seq<Row>, v: Voucher) { forall i :: 0 <= i < |rows| ==> rows[i].voucher != v }

  lemma PostVoucher(books: Books, v: Voucher, key: BinKey, actual: real, incoming: real, after: Bin, diff: real,
      w: Voucher, k: BinKey)
    ensures var post := Post(books, v, key, actual, incoming, after, diff);
      && VoucherQty(post.rows, w, k) == VoucherQty(books.rows, w, k) + (if v == w && key == k then actual else 0.0)
      && VoucherValue(post.rows, w, k) == VoucherValue(books.rows, w, k) + (if v == w && key == k then diff else 0.0)
  {
    SumAppend(books.rows, Row(v, key, actual, incoming, after, diff), VoucherQtyW(w, k));
    SumAppend(books.rows, Row(v, key, actual, incoming, after, diff), VoucherValueW(w, k));
  }

  /** A valued move posts its quantity and its two leg values on its own voucher and leaves the
      postings of every other voucher alone. */
  lemma MintPosts(books: Books, mv: Move, id: Id, src: Location, dst: Location, qty: real, w: Voucher, k: BinKey)
    requires Mint(books, mv, id, src, dst, qty).Ok?
    ensures var m := Mint(books, mv, id, src, dst, qty).value; var own := w == StockEntry(id);
      && VoucherQty(m.books.rows, w, k) == VoucherQty(books.rows, w, k) +
         (if own then LegAt(mv.item, src, dst, qty, qty, k) else 0.0)
      && VoucherValue(m.books.rows, w, k) == VoucherValue(books.rows, w, k) +
         (if own then LegAt(mv.item, src, dst, m.outValue, m.inValue, k) else 0.0)
  {
    var ks, kd := KeyOf(mv.item, src), KeyOf(mv.item, dst);
    if ks != kd {
      if ks.Some? {
        var b := BinAt(books.bins, ks.value);
        PostVoucher(books, StockEntry(id), ks.value, -qty, 0.0, StepBin(b, OutOp(qty, mv.forced)),
          -OutValue(b, qty, mv.forced), w, k);
      }
      var m := MintOut(books, mv, id, ks, qty).value;
      if kd.Some? {
        var b := BinAt(m.books.bins, kd.value);
        var c := Carried(mv, src, b, qty, m.outValue);
        PostVoucher(m.books, StockEntry(id), kd.value, qty, mv.price, StepBin(b, In(qty, c)), c, w, k);
      }
    }
  }

  /** The bins' quantities move by the same legs, and no other voucher gains a row. */
  lemma MintBins(books: Books, mv: Move, id: Id, src: Location, dst: Location, qty: real)
    requires Mint(books, mv, id, src, dst, qty).Ok?
    ensures var m := Mint(books, mv, id, src, dst, qty).value;
      && (forall k {:trigger BinAt(m.books.bins, k)} ::
         BinAt(m.books.bins, k).qty == BinAt(books.bins, k).qty + LegAt(mv.item, src, dst, qty, qty, k))
      && (forall w {:trigger Unposted(m.books.rows, w)} ::
         w != StockEntry(id) && Unposted(books.rows, w) ==> Unposted(m.books.rows, w))
  {
    hide Amount, Rate6, OutValue, ReceiptValue;
  }

  /** A move is refused by its bin exactly when the source bin holds less than the quantity. */
  lemma MintRefused(books: Books, mv: Move, id: Id, src: Location, dst: Location, qty: real)
    ensures var ks, kd := KeyOf(mv.item, src), KeyOf(mv.item, dst);
      Mint(books, mv, id, src, dst, qty).Err? <==> ks != kd && ks.Some? && BinAt(books.bins, ks.value).qty < qty
  {
  }

  /** A forced value is carried on both legs, and a move between two bins carries out what it
      carries in. */
  lemma MintValues(books: Books, mv: Move, id: Id, src: Location, dst: Location, qty: real)
    requires Mint(books, mv, id, src, dst, qty).Ok?
    requires KeyOf(mv.item, src) != KeyOf(mv.item, dst)
    ensures var m := Mint(books, mv, id, src, dst, qty).value; var ks, kd := KeyOf(mv.item, src), KeyOf(mv.item, dst);
      && (mv.forced.Some? && ks.Some? ==> m.outValue == mv.forced.value)
      && (mv.forced.Some? && kd.Some? ==> m.inValue == mv.forced.value)
      && (ks.None? ==> m.outValue == 0.0)
      && (kd.None? ==> m.inValue == 0.0)
      && (ks.Some? && kd.Some? ==> m.inValue == m.outValue)
  {
    hide Amount;
  }

  /** An ordinary receipt into a bin carries the receipt value and takes nothing out. */
  lemma MintReceipt(books: Books, mv: Move, id: Id, src: Location, dst: Location, qty: real)
    requires mv.forced.None? && src.usage != Internal && KeyOf(mv.item, dst).Some?
    ensures var r := Mint(books, mv, id, src, dst, qty); var b := BinAt(books.bins, KeyOf(mv.item, dst).value);
      r.Ok? && r.value.outValue == 0.0 && r.value.inValue == ReceiptValue(qty, mv.price, b.rate)
  {
    hide ReceiptValue;
  }

  // ---- what each leg carries and leaves, in figures ---------------------------------------

  /** A stocked bin shows its average to half a millionth, an empty one no rate. */
  predicate Averaged(b: Bin) {
    if b.qty > 0.0 then Abs(b.rate - b.value / b.qty) <= 0.0000005 else b.rate == 0.0
  }

  /** `value` is the quantity at the rate, to half a cent. */
  predicate AtRate(value: real, qty: real, rate: real) { Abs(value - qty * rate) <= 0.005 }

  lemma AmountAtRate(qty: real, rate: real)
    ensures AtRate(Amount(qty, rate), qty, rate)
  {
    MoneyFacts(qty * rate);
  }

  lemma BlendAverages(qty: real, value: real)
    ensures Averaged(Blend(qty, value)) && Blend(qty, value).qty == qty && Blend(qty, value).value == value
  {
    if qty > 0.0 { Rate6Near(value / qty); }
  }

  lemma OutBin(b: Bin, qty: real, forced: Option<real>)
    ensures var after := StepBin(b, OutOp(qty, forced)); var worth := OutValue(b, qty, forced);
      && after.qty == b.qty - qty && after.value == b.value - worth
      && (forced.Some? ==> worth == forced.value && Averaged(after))
      && (forced.None? ==>
            && (qty == b.qty ==> worth == b.value)
            && (qty != b.qty ==> AtRate(worth, qty, b.rate))
            && after.rate == if b.qty > qty then b.rate else 0.0)
  {
    if forced.Some? { BlendAverages(b.qty - qty, b.value - forced.value); } else { AmountAtRate(qty, b.rate); }
    hide Amount, Blend, Averaged, AtRate;
  }

  lemma InBin(mv: Move, src: Location, b: Bin, qty: real, outValue: real)
    ensures var carried := Carried(mv, src, b, qty, outValue); var after := StepBin(b, In(qty, carried));
      && after.qty == b.qty + qty && after.value == b.value + carried && Averaged(after)
      && (mv.forced.Some? ==> carried == mv.forced.value)
      && (mv.forced.None? && src.usage == Internal ==> carried == outValue)
      && (mv.forced.None? && src.usage != Internal && mv.price > 0.0 ==> AtRate(carried, qty, mv.price))
      && (mv.forced.None? && src.usage != Internal && mv.price <= 0.0 ==> AtRate(carried, qty, b.rate))
  {
    BlendAverages(b.qty + qty, b.value + Carried(mv, src, b, qty, outValue));
    AmountAtRate(qty, mv.price);
    AmountAtRate(qty, b.rate);
    hide Amount, Blend, Averaged, AtRate;
  }

  lemma MintLegs(books: Books, mv: Move, id: Id, src: Location, dst: Location, qty: real)
    requires Mint(books, mv, id, src, dst, qty).Ok? && KeyOf(mv.item, src) != KeyOf(mv.item, dst)
    ensures var m := Mint(books, mv, id, src, dst, qty).value; var ks, kd := KeyOf(mv.item, src), KeyOf(mv.item, dst);
      && (ks.Some? ==> var b := BinAt(books.bins, ks.value);
            && m.outValue == OutValue(b, qty, mv.forced)
            && BinAt(m.books.bins, ks.value) == StepBin(b, OutOp(qty, mv.forced)))
      && (kd.Some? ==> var b := BinAt(books.bins, kd.value);
            && m.inValue == Carried(mv, src, b, qty, m.outValue)
            && BinAt(m.books.bins, kd.value) == StepBin(b, In(qty, m.inValue)))
  {
    hide StepBin, OutValue, Carried, OutOp;
  }

  /** What leaves a bin: the forced value, the whole value with the last unit, and otherwise its quantity at
      the bin's average, to half a cent. The average of what stays is untouched, unless a forced value
      makes it anew. */
  lemma OutflowCarries(books: Books, mv: Move, id: Id, src: Location, dst: Location, qty: real)
    requires Mint(books, mv, id, src, dst, qty).Ok?
    requires KeyOf(mv.item, src).Some? && KeyOf(mv.item, src) != KeyOf(mv.item, dst)
    ensures var m := Mint(books, mv, id, src, dst, qty).value; var k := KeyOf(mv.item, src).value;
      var b, after := BinAt(books.bins, k), BinAt(m.books.bins, k);
      && after.qty == b.qty - qty && after.value == b.value - m.outValue
      && (mv.forced.Some? ==> m.outValue == mv.forced.value && Averaged(after))
      && (mv.forced.None? ==>
            && (qty == b.qty ==> m.outValue == b.value)
            && (qty != b.qty ==> AtRate(m.outValue, qty, b.rate))
            && after.rate == if b.qty > qty then b.rate else 0.0)
  {
    hide StepBin, OutValue, Carried, OutOp, Mint, Averaged, AtRate;
    MintLegs(books, mv, id, src, dst, qty);
    OutBin(BinAt(books.bins, KeyOf(mv.item, src).value), qty, mv.forced);
  }

  /** What enters a bin: the forced value, what left an internal source, and from outside the quantity at
      its price, or at the bin's own average when it has none, to half a cent. The average is made
      anew over old and new stock. */
  lemma InflowCarries(books: Books, mv: Move, id: Id, src: Location, dst: Location, qty: real)
    requires Mint(books, mv, id, src, dst, qty).Ok?
    requires KeyOf(mv.item, dst).Some? && KeyOf(mv.item, src) != KeyOf(mv.item, dst)
    ensures var m := Mint(books, mv, id, src, dst, qty).value; var k := KeyOf(mv.item, dst).value;
      var b, after := BinAt(books.bins, k), BinAt(m.books.bins, k);
      && after.qty == b.qty + qty && after.value == b.value + m.inValue && Averaged(after)
      && (mv.forced.Some? ==> m.inValue == mv.forced.value)
      && (mv.forced.None? && src.usage == Internal ==> m.inValue == m.outValue)
      && (mv.forced.None? && src.usage != Internal && mv.price > 0.0 ==> AtRate(m.inValue, qty, mv.price))
      && (mv.forced.None? && src.usage != Internal && mv.price <= 0.0 ==> AtRate(m.inValue, qty, b.rate))
  {
    hide StepBin, OutValue, Carried, OutOp, Mint, Averaged, AtRate;
    MintLegs(books, mv, id, src, dst, qty);
    InBin(mv, src, BinAt(books.bins, KeyOf(mv.item, dst).value), qty,
      Mint(books, mv, id, src, dst, qty).value.outValue);
  }

  /** So a receipt without a price leaves the bin's average where it was, within the bin's own drift, the
      half cent of the receipt and the rounding of the rate. */
  lemma PricelessReceiptKeepsTheAverage(books: Books, mv: Move, id: Id, src: Location, dst: Location, qty: real,
      bound: real)
    requires mv.forced.None? && src.usage != Internal && mv.price == 0.0 && qty >= 0.0
    requires KeyOf(mv.item, dst).Some?
    requires var b := BinAt(books.bins, KeyOf(mv.item, dst).value); b.qty > 0.0 && Near(b, bound)
    ensures var r := Mint(books, mv, id, src, dst, qty); var k := KeyOf(mv.item, dst).value;
      && r.Ok?
      && var b, after := BinAt(books.bins, k), BinAt(r.value.books.bins, k);
      after.qty * Abs(after.rate - b.rate) <= bound + 0.005 + after.qty * 0.0000005
  {
    hide Mint, ReceiptValue;
    var k := KeyOf(mv.item, dst).value;
    var b := BinAt(books.bins, k);
    MintReceipt(books, mv, id, src, dst, qty);
    InflowCarries(books, mv, id, src, dst, qty);
    var m := Mint(books, mv, id, src, dst, qty).value;
    AverageShift(b, BinAt(m.books.bins, k), qty, m.inValue, bound);
  }

  lemma AverageShift(b: Bin, after: Bin, qty: real, carried: real, bound: real)
    requires b.qty > 0.0 && qty >= 0.0 && Near(b, bound) && AtRate(carried, qty, b.rate)
    requires after.qty == b.qty + qty && after.value == b.value + carried && Averaged(after)
    ensures after.qty * Abs(after.rate - b.rate) <= bound + 0.005 + after.qty * 0.0000005
  {
    hide AtRate, Near;
    DriftsAdd(b, after, qty, carried, bound);
    MeanTimes(after.qty, after.value);
    ShiftParts(after.qty, after.rate, after.value / after.qty, b.rate, bound + 0.005);
  }

  lemma MeanTimes(n: real, value: real)
    requires n > 0.0
    ensures n * (value / n) == value
  {
  }

  lemma DriftsAdd(b: Bin, after: Bin, qty: real, carried: real, bound: real)
    requires Near(b, bound) && AtRate(carried, qty, b.rate)
    requires after.qty == b.qty + qty && after.value == b.value + carried
    ensures Abs(after.value - after.qty * b.rate) <= bound + 0.005
  {
    var x, y := b.qty * b.rate, qty * b.rate;
    Distribute(b.qty, qty, b.rate);
    assert after.qty * b.rate == x + y;
    assert -bound <= b.value - x <= bound && -0.005 <= carried - y <= 0.005;
  }

  lemma Distribute(a: real, b: real, r: real)
    ensures (a + b) * r == a * r + b * r
  {
  }

  lemma ShiftParts(n: real, rate: real, mean: real, was: real, shift: real)
    requires n > 0.0 && Abs(rate - mean) <= 0.0000005 && Abs(n * mean - n * was) <= shift
    ensures n * Abs(rate - was) <= shift + n * 0.0000005
  {
    MulLe(n, rate - mean, 0.0000005);
    MulLe(n, mean - rate, 0.0000005);
    assert n * (rate - mean) == n * rate - n * mean;
    assert n * (mean - rate) == n * mean - n * rate;
    assert n * (rate - was) == n * rate - n * was;
    assert n * (was - rate) == n * was - n * rate;
  }

  /** The rows of a move, in order: the leg out, at no incoming rate, then the leg in, at the move's price,
      each showing its bin as it is left. No other bin is written. */
  lemma MintRows(books: Books, mv: Move, id: Id, src: Location, dst: Location, qty: real, k: BinKey)
    requires Mint(books, mv, id, src, dst, qty).Ok?
    ensures var m := Mint(books, mv, id, src, dst, qty).value; var ks, kd := KeyOf(mv.item, src), KeyOf(mv.item, dst);
      && m.books.rows == books.rows
         + (if ks != kd && ks.Some?
            then [Row(StockEntry(id), ks.value, -qty, 0.0, BinAt(m.books.bins, ks.value), -m.outValue)] else [])
         + (if ks != kd && kd.Some?
            then [Row(StockEntry(id), kd.value, qty, mv.price, BinAt(m.books.bins, kd.value), m.inValue)] else [])
      && m.rows == |m.books.rows| - |books.rows|
      && (ks == kd || (Some(k) != ks && Some(k) != kd) ==> BinAt(m.books.bins, k) == BinAt(books.bins, k))
      && (ks == kd ==> m.outValue == 0.0 && m.inValue == 0.0)
  {
    hide StepBin, OutValue, Carried;
  }

  /** A revaluation is refused exactly when it has a value but no bin to put it on. One that has not landed
      yet adds its value to the bin and makes the average anew, its quantity untouched, on one row. */
  lemma AdjustIsExact(books: Books, item: Item, dst: Location, lc: Id, line: Id, delta: real)
    ensures var r := AdjustMoveValue(books, item, dst, lc, line, delta);
      && (r.Err? <==> delta != 0.0 && KeyOf(item, dst).None?)
      && (r.Err? ==> r.error == LandedCostNoValuationAccount)
      && (r.Ok? ==>
            if delta == 0.0 || exists row :: row in books.rows && row.voucher == LandedCost(lc, line)
            then r.value == books
            else var k := KeyOf(item, dst).value; var b, after := BinAt(books.bins, k), BinAt(r.value.bins, k);
              && r.value == Books(books.bins[k := after],
                   books.rows + [Row(LandedCost(lc, line), k, 0.0, 0.0, after, delta)])
              && after.qty == b.qty && after.value == b.value + delta && Averaged(after))
  {
    if KeyOf(item, dst).Some? {
      var b := BinAt(books.bins, KeyOf(item, dst).value);
      BlendAverages(b.qty, b.value + delta);
    }
    hide Averaged, Blend;
  }

  // ---- exact reversals of one bin ---------------------------------------------------

  /** Reversing an inflow at its own value, or an outflow at its own cost, with nothing between
      restores quantity and value exactly. The rate comes back exactly when it was the rounded
      average of the old balance. */
  lemma ReversalRestores(b: Bin, qty: real, carried: real)
    requires 0.0 <= qty && 0.0 <= b.qty
    ensures var back := StepBin(StepBin(b, In(qty, carried)), ForcedOut(qty, carried));
      back.qty == b.qty && back.value == b.value && (back == b <==> b == Blend(b.qty, b.value))
    ensures qty <= b.qty ==>
      var back := StepBin(StepBin(b, Out(qty)), In(qty, OutValue(b, qty, None)));
      back.qty == b.qty && back.value == b.value && (back == b <==> b == Blend(b.qty, b.value))
  {
    assert b.qty + qty - qty == b.qty && b.value + carried - carried == b.value;
    assert b.qty - qty + qty == b.qty;
  }

  /** Three units for 10.00, one shipped, then one received and that receipt cancelled: quantity
      and value return, the rate does not. */
  lemma ReversalNeedNotRestoreTheRate()
    ensures var b := TrackRun([In(3.0, 10.0), Out(1.0)]).bin;
      && b == Bin(2.0, 3.333333, 6.67)
      && StepBin(StepBin(b, In(1.0, 5.0)), ForcedOut(1.0, 5.0)) == Bin(2.0, 3.335, 6.67)
  {
    var ops := [In(3.0, 10.0), Out(1.0)];
    assert ops[..1] == [In(3.0, 10.0)] && ops[..1][..0] == [];
    assert TrackRun(ops[..1]).bin == StepBin(EmptyBin, In(3.0, 10.0));
    assert 10.0 / 3.0 * 1000000.0 + 0.5 < 3333334.0;
    assert Rate6(10.0 / 3.0) == 3.333333;
    assert Money(3.333333) == 3.33;
    assert Rate6(3.335) == 3.335;
  }

  // ---- the total value of all bins ---------------------------------------------------

  function BinValueW(bins: map<BinKey, Bin>): BinKey -> real { (k: BinKey) => BinAt(bins, k).value }

  ghost function TotalValue(books: Books): real { SetSum(books.bins.Keys, BinValueW(books.bins)) }

  lemma PostTotal(books: Books, v: Voucher, k: BinKey, actual: real, incoming: real, after: Bin, diff: real)
    requires after.value == BinAt(books.bins, k).value + diff
    ensures TotalValue(Post(books, v, k, actual, incoming, after, diff)) == TotalValue(books) + diff
  {
    var post := Post(books, v, k, actual, incoming, after, diff);
    assert post.bins.Keys == books.bins.Keys + {k};
    SetSumUpdate(books.bins.Keys, k, BinValueW(books.bins), BinValueW(post.bins));
  }

  /** A valued move changes the value of all bins together by what came in less what went out. */
  lemma MintTotal(books: Books, mv: Move, id: Id, src: Location, dst: Location, qty: real)
    requires Mint(books, mv, id, src, dst, qty).Ok?
    ensures var m := Mint(books, mv, id, src, dst, qty).value;
      TotalValue(m.books) == TotalValue(books) + m.inValue - m.outValue
  {
    var ks, kd := KeyOf(mv.item, src), KeyOf(mv.item, dst);
    if ks != kd {
      if ks.Some? {
        var b := BinAt(books.bins, ks.value);
        PostTotal(books, StockEntry(id), ks.value, -qty, 0.0, StepBin(b, OutOp(qty, mv.forced)),
          -OutValue(b, qty, mv.forced));
      }
      var m := MintOut(books, mv, id, ks, qty).value;
      if kd.Some? {
        var b := BinAt(m.books.bins, kd.value);
        var c := Carried(mv, src, b, qty, m.outValue);
        PostTotal(m.books, StockEntry(id), kd.value, qty, mv.price, StepBin(b, In(qty, c)), c);
      }
    }
  }
}
