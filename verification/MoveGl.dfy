/** The GL envelope of a done move: which legs it posts, and why they tie to the bins. */
module MoveGl {
  import opened Common
  import opened Rounding
  import opened StockTypes
  import opened Valuation
  import opened ValuationLaws

  /** The accounts the caller supplies; a leg whose accounts are absent is not posted. */
  datatype Directive = Directive(cogs: Option<Acct>, inventory: Option<Acct>, grir: Option<Acct>,
    adjustment: Option<Acct>)

  datatype Leg = InventoryLeg | AdjustmentLeg | CogsLeg | GrirLeg | LandedCostLeg

  datatype GlLine = GlLine(account: Acct, leg: Leg, debit: real, credit: real)

  function Debit(a: Acct, leg: Leg, amount: real): GlLine { GlLine(a, leg, amount, 0.0) }
  function Credit(a: Acct, leg: Leg, amount: real): GlLine { GlLine(a, leg, 0.0, amount) }

  function Or(a: Option<Acct>, b: Option<Acct>): Option<Acct> { if a.Some? then a else b }

  predicate ShapeAccountsSet(mv: Move, src: Location, dst: Location, gl: Directive) {
    if mv.isInventory then gl.inventory.Some? && gl.adjustment.Some?
    else if src.usage == Internal && dst.usage != Internal then gl.cogs.Some? && gl.inventory.Some?
    else if src.usage != Internal && dst.usage == Internal then gl.inventory.Some? && gl.grir.Some?
    else false
  }

  predicate ShouldCreateAccountMove(value: real, qty: real, accountsConfigured: bool) {
    accountsConfigured && !(value == 0.0 && qty == 0.0)
  }

  /** The lines a done move posts, or nothing when its shape, accounts or posture post none. */
  function Envelope(mv: Move, src: Location, dst: Location, gl: Directive, outValue: real, inValue: real,
      periodic: bool): Option<seq<GlLine>> {
    if periodic || !ShouldCreateAccountMove(outValue + inValue, mv.quantity, ShapeAccountsSet(mv, src, dst, gl))
    then None
    else if mv.isInventory then
      var inv := Or(if dst.usage == Internal then dst.valuationAccount else src.valuationAccount, gl.inventory).value;
      var adj := gl.adjustment.value;
      if inValue > outValue then Some([Debit(inv, InventoryLeg, inValue - outValue),
        Credit(adj, AdjustmentLeg, inValue - outValue)])
      else if outValue > inValue then Some([Debit(adj, AdjustmentLeg, outValue - inValue),
        Credit(inv, InventoryLeg, outValue - inValue)])
      else None
    else if src.usage == Internal then
      Some([Debit(gl.cogs.value, CogsLeg, outValue),
        Credit(Or(src.valuationAccount, gl.inventory).value, InventoryLeg, outValue)])
    else
      Some([Debit(Or(dst.valuationAccount, gl.inventory).value, InventoryLeg, inValue),
        Credit(gl.grir.value, GrirLeg, inValue)])
  }

  const DebitW := (l: GlLine) => l.debit
  const CreditW := (l: GlLine) => l.credit

  function LegW(leg: Leg): GlLine -> real { (l: GlLine) => if l.leg == leg then l.debit - l.credit else 0.0 }

  predicate Balanced(lines: seq<GlLine>) { Sum(lines, DebitW) == Sum(lines, CreditW) }

  lemma TwoLines(a: GlLine, b: GlLine, w: GlLine -> real)
    ensures Sum([a, b], w) == w(a) + w(b)
  {
    SumAppend([], a, w);
    SumAppend([a], b, w);
    assert [] + [a] == [a] && [a] + [b] == [a, b];
  }

  /** The envelope of a move balances, and its inventory leg is the net change of all bin values
      the move's valuation made. */
  lemma EnvelopeTiesToBins(books: Books, mv: Move, id: Id, src: Location, dst: Location, qty: real, gl: Directive,
      periodic: bool)
    requires Mint(books, mv, id, src, dst, qty).Ok?
    ensures var m := Mint(books, mv, id, src, dst, qty).value;
      var env := Envelope(mv, src, dst, gl, m.outValue, m.inValue, periodic);
      env.Some? ==> Balanced(env.value) && Sum(env.value, LegW(InventoryLeg)) == TotalValue(m.books) - TotalValue(books)
  {
    var m := Mint(books, mv, id, src, dst, qty).value;
    var env := Envelope(mv, src, dst, gl, m.outValue, m.inValue, periodic);
    MintTotal(books, mv, id, src, dst, qty);
    if KeyOf(mv.item, src) != KeyOf(mv.item, dst) { MintValues(books, mv, id, src, dst, qty); }
    if env.Some? {
      hide Mint;
      var lines := env.value;
      assert lines == [lines[0], lines[1]];
      TwoLines(lines[0], lines[1], DebitW);
      TwoLines(lines[0], lines[1], CreditW);
      TwoLines(lines[0], lines[1], LegW(InventoryLeg));
    }
  }

  /** A real-time posture with the accounts of the move's shape posts exactly when there is something to
      post; the inventory leg is on the valued location's own account, the caller's in its absence,
      and the other leg on the account of the shape. */
  lemma EnvelopePostsWhen(mv: Move, src: Location, dst: Location, gl: Directive, outValue: real, inValue: real,
      periodic: bool)
    ensures var env := Envelope(mv, src, dst, gl, outValue, inValue, periodic);
      && (env.Some? <==>
            && !periodic && AccountsFor(mv, src.usage == Internal, dst.usage == Internal, gl)
            && (outValue + inValue != 0.0 || mv.quantity != 0.0)
            && (mv.isInventory ==> inValue != outValue))
      && (env.Some? ==> |env.value| == 2)
      && (env.Some? ==> (env.value[0].leg == InventoryLeg <==> env.value[1].leg != InventoryLeg))
      && (env.Some? ==> OnAccount(env.value[0], mv, src, dst, gl) && OnAccount(env.value[1], mv, src, dst, gl))
  {
  }

  /** Both accounts of the move's kind: an adjustment's inventory and adjustment accounts; a sale's cost and
      inventory accounts; a purchase's inventory and clearing accounts. A move that crosses neither way has none. */
  predicate AccountsFor(mv: Move, fromStock: bool, toStock: bool, gl: Directive) {
    && (mv.isInventory ==> gl.inventory.Some? && gl.adjustment.Some?)
    && (!mv.isInventory ==> fromStock != toStock && gl.inventory.Some?)
    && (!mv.isInventory && fromStock ==> gl.cogs.Some?)
    && (!mv.isInventory && toStock ==> gl.grir.Some?)
  }

  /** A line is the inventory leg or the one its move's kind posts against it, on the account of that leg. */
  predicate OnAccount(line: GlLine, mv: Move, src: Location, dst: Location, gl: Directive) {
    && (line.leg != InventoryLeg ==>
          line.leg == if mv.isInventory then AdjustmentLeg else if src.usage == Internal then CogsLeg else GrirLeg)
    && Some(line.account) ==
       if line.leg == InventoryLeg then Or(ValuedAt(mv, src, dst).valuationAccount, gl.inventory)
       else if mv.isInventory then gl.adjustment
       else if src.usage == Internal then gl.cogs
       else gl.grir
  }

  /** The internal end whose account override the inventory leg takes; the destination's when both are. */
  function ValuedAt(mv: Move, src: Location, dst: Location): Location {
    if dst.usage == Internal && (mv.isInventory || src.usage != Internal) then dst else src
  }

  /** A move between two bins, or inside one, conserves the value of all bins and posts nothing,
      whether its value is forced or not and whatever the accounts. */
  lemma TransferIsValueNeutral(books: Books, mv: Move, id: Id, src: Location, dst: Location, qty: real, gl: Directive,
      periodic: bool)
    requires KeyOf(mv.item, src).Some? && KeyOf(mv.item, dst).Some?
    requires Mint(books, mv, id, src, dst, qty).Ok?
    ensures var m := Mint(books, mv, id, src, dst, qty).value;
      TotalValue(m.books) == TotalValue(books) && Envelope(mv, src, dst, gl, m.outValue, m.inValue, periodic).None?
  {
    MintTotal(books, mv, id, src, dst, qty);
    if KeyOf(mv.item, src) != KeyOf(mv.item, dst) { MintValues(books, mv, id, src, dst, qty); }
  }

  // ---- the repost, from what the ledger shows ------------------------------------------------

  function ReadOutW(id: Id): Row -> real {
    (r: Row) => if r.voucher == StockEntry(id) && r.diff < 0.0 then -r.diff else 0.0
  }

  function ReadInW(id: Id): Row -> real {
    (r: Row) => if r.voucher == StockEntry(id) && r.diff > 0.0 then r.diff else 0.0
  }

  /** The leg values read back from a move's ledger rows, told apart by their sign alone. */
  function ReadOut(rows: seq<Row>, id: Id): real { Sum(rows, ReadOutW(id)) }

  function ReadIn(rows: seq<Row>, id: Id): real { Sum(rows, ReadInW(id)) }

  function Positive(v: real): real { if v > 0.0 then v else 0.0 }

  lemma ReadPost(books: Books, v: Voucher, k: BinKey, actual: real, incoming: real, after: Bin, diff: real, id: Id)
    ensures var rows := Post(books, v, k, actual, incoming, after, diff).rows;
      && ReadOut(rows, id) == ReadOut(books.rows, id) + (if v == StockEntry(id) then Positive(-diff) else 0.0)
      && ReadIn(rows, id) == ReadIn(books.rows, id) + (if v == StockEntry(id) then Positive(diff) else 0.0)
  {
    SumAppend(books.rows, Row(v, k, actual, incoming, after, diff), ReadOutW(id));
    SumAppend(books.rows, Row(v, k, actual, incoming, after, diff), ReadInW(id));
  }

  /** What the read-back of a freshly valued move finds: each leg on the side of its sign. */
  lemma ReadBack(books: Books, mv: Move, id: Id, src: Location, dst: Location, qty: real)
    requires Mint(books, mv, id, src, dst, qty).Ok? && Unposted(books.rows, StockEntry(id))
    ensures var m := Mint(books, mv, id, src, dst, qty).value;
      && ReadOut(m.books.rows, id) == Positive(m.outValue) + Positive(-m.inValue)
      && ReadIn(m.books.rows, id) == Positive(m.inValue) + Positive(-m.outValue)
  {
    SumZero(books.rows, ReadOutW(id));
    SumZero(books.rows, ReadInW(id));
    var ks, kd := KeyOf(mv.item, src), KeyOf(mv.item, dst);
    hide ReadOut, ReadIn, Positive;
    assert Positive(0.0) == 0.0 by { PositiveOfZero(); }
    if ks != kd {
      if ks.Some? {
        var b := BinAt(books.bins, ks.value);
        ReadPost(books, StockEntry(id), ks.value, -qty, 0.0, StepBin(b, OutOp(qty, mv.forced)),
          -OutValue(b, qty, mv.forced), id);
      }
      var m := MintOut(books, mv, id, ks, qty).value;
      if kd.Some? {
        var b := BinAt(m.books.bins, kd.value);
        var c := Carried(mv, src, b, qty, m.outValue);
        ReadPost(m.books, StockEntry(id), kd.value, qty, mv.price, StepBin(b, In(qty, c)), c, id);
      }
    }
  }

  lemma PositiveOfZero()
    ensures Positive(0.0) == 0.0
  {
  }

  /** The read-back gives the leg values the done transaction used exactly when neither is negative. */
  lemma ReadBackIff(books: Books, mv: Move, id: Id, src: Location, dst: Location, qty: real)
    requires Mint(books, mv, id, src, dst, qty).Ok? && Unposted(books.rows, StockEntry(id))
    ensures var m := Mint(books, mv, id, src, dst, qty).value;
      (ReadOut(m.books.rows, id) == m.outValue && ReadIn(m.books.rows, id) == m.inValue)
        <==> m.outValue >= 0.0 && m.inValue >= 0.0
  {
    ReadBack(books, mv, id, src, dst, qty);
  }

  /** The envelope a repost builds: the stored done quantity and the leg values of the ledger. */
  function Reposted(rows: seq<Row>, mv: Move, id: Id, src: Location, dst: Location, doneQty: real,
      gl: Directive): Option<seq<GlLine>> {
    Envelope(mv.(quantity := doneQty), src, dst, gl, ReadOut(rows, id), ReadIn(rows, id), false)
  }

  /** A repost of a move that armed an envelope always posts. It posts the same lines for every
      adjustment, whose amount is the difference of the legs, and for any other move exactly when no
      leg is negative: a negative leg is read back on the other side and posted as nothing. */
  lemma RepostRebuildsTheEnvelope(books: Books, mv: Move, id: Id, src: Location, dst: Location, qty: real,
      gl: Directive)
    requires Mint(books, mv, id, src, dst, qty).Ok? && Unposted(books.rows, StockEntry(id)) && mv.quantity == 0.0
    requires var m := Mint(books, mv, id, src, dst, qty).value;
      Envelope(mv, src, dst, gl, m.outValue, m.inValue, false).Some?
    ensures var m := Mint(books, mv, id, src, dst, qty).value;
      var first, again := Envelope(mv, src, dst, gl, m.outValue, m.inValue, false),
        Reposted(m.books.rows, mv, id, src, dst, qty, gl);
      && again.Some? && Balanced(again.value)
      && (again == first <==> mv.isInventory || (m.outValue >= 0.0 && m.inValue >= 0.0))
  {
    ReadBack(books, mv, id, src, dst, qty);
    if KeyOf(mv.item, src) != KeyOf(mv.item, dst) { MintValues(books, mv, id, src, dst, qty); }
    LegsOf(books, mv, id, src, dst, qty);
    hide Mint, ReadOut, ReadIn;
    var m := Mint(books, mv, id, src, dst, qty).value;
    var again := Reposted(m.books.rows, mv, id, src, dst, qty, gl).value;
    assert again == [again[0], again[1]];
    TwoLines(again[0], again[1], DebitW);
    TwoLines(again[0], again[1], CreditW);
  }

  /** A move between bins carries one value, any other move at most one leg. */
  lemma LegsOf(books: Books, mv: Move, id: Id, src: Location, dst: Location, qty: real)
    requires Mint(books, mv, id, src, dst, qty).Ok?
    ensures var m := Mint(books, mv, id, src, dst, qty).value;
      m.outValue == 0.0 || m.inValue == 0.0 || m.outValue == m.inValue
    ensures src.usage != Internal ==> Mint(books, mv, id, src, dst, qty).value.outValue == 0.0
    ensures dst.usage != Internal ==> Mint(books, mv, id, src, dst, qty).value.inValue == 0.0
  {
    if KeyOf(mv.item, src) != KeyOf(mv.item, dst) { MintValues(books, mv, id, src, dst, qty); }
    hide MintOut, MintIn;
    assert KeyOf(mv.item, src) == KeyOf(mv.item, dst) ==>
      Mint(books, mv, id, src, dst, qty).value == Minted(books, 0, 0.0, 0.0);
  }

  /** When that happens: an ordinary issue at a rate the store allows carries a negative value out
      exactly when it drains a bin whose value rounding had left below zero. */
  lemma NegativeIssue(books: Books, mv: Move, id: Id, src: Location, dst: Location, qty: real)
    requires Mint(books, mv, id, src, dst, qty).Ok? && mv.forced.None? && qty >= 0.0
    requires KeyOf(mv.item, src).Some? && KeyOf(mv.item, src) != KeyOf(mv.item, dst)
    requires BinAt(books.bins, KeyOf(mv.item, src).value).rate >= 0.0
    ensures var b := BinAt(books.bins, KeyOf(mv.item, src).value);
      Mint(books, mv, id, src, dst, qty).value.outValue < 0.0 <==> b.qty == qty && b.value < 0.0
  {
    var b := BinAt(books.bins, KeyOf(mv.item, src).value);
    assert Mint(books, mv, id, src, dst, qty).value.outValue == OutValue(b, qty, None);
    AmountNonNegative(qty, b.rate);
    hide Amount, Mint;
  }

  lemma AmountNonNegative(qty: real, rate: real)
    requires qty >= 0.0 && rate >= 0.0
    ensures Amount(qty, rate) >= 0.0
  {
    assert qty * rate >= 0.0;
  }

  const Shop := Location(Internal, Some(0), None)

  const Buyer := Location(Customer, None, None)

  const IssueAccounts := Directive(Some(5), Some(6), None, None)

  function Issue(quantity: real): Move {
    Move(Named(0), 0, 1.0, quantity, 0.0, 1, 2, [], [], false, None, true, Assigned)
  }

  /** Four units received at 0.005 for 0.02; three issues of one at 0.01 leave one unit worth -0.01.
      The fourth posts a cost of -0.01, its repost a cost of nothing. */
  lemma RepostOfANegativeDrain()
    ensures var b := TrackRun([In(4.0, 0.02), Out(1.0), Out(1.0), Out(1.0)]).bin;
      var books := Books(map[BinKey(0, 0) := b], []);
      && b == Bin(1.0, 0.005, -0.01)
      && var m := Mint(books, Issue(0.0), 4, Shop, Buyer, 1.0);
      && m.Ok?
      && Envelope(Issue(0.0), Shop, Buyer, IssueAccounts, m.value.outValue, m.value.inValue, false)
           == Some([Debit(5, CogsLeg, -0.01), Credit(6, InventoryLeg, -0.01)])
      && Reposted(m.value.books.rows, Issue(0.0), 4, Shop, Buyer, 1.0, IssueAccounts)
           == Some([Debit(5, CogsLeg, 0.0), Credit(6, InventoryLeg, 0.0)])
  {
    var ops := [In(4.0, 0.02), Out(1.0), Out(1.0), Out(1.0)];
    assert ops[..3][..2] == ops[..2] && ops[..2][..1] == ops[..1] && ops[..1][..0] == [];
    assert Rate6(0.02 / 4.0) == 0.005 && Money(1.0 * 0.005) == 0.01;
    assert TrackRun(ops[..1]).bin == Bin(4.0, 0.005, 0.02);
    assert TrackRun(ops[..2]).bin == Bin(3.0, 0.005, 0.01);
    assert TrackRun(ops[..3]).bin == Bin(2.0, 0.005, 0.0);
    var b := TrackRun(ops).bin;
    assert b == Bin(1.0, 0.005, -0.01);
    var books := Books(map[BinKey(0, 0) := b], []);
    ReadBack(books, Issue(0.0), 4, Shop, Buyer, 1.0);
    assert Mint(books, Issue(0.0), 4, Shop, Buyer, 1.0).value.outValue == -0.01;
    hide ReadOut, ReadIn, TrackRun;
  }
}
