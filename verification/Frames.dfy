/** What no verb of the engine ever changes: a move's order, the states it cannot leave, and the
    ledger rows of a done move. */
module Frames {
  import opened Common
  import opened StockTypes
  import opened Valuation
  import opened Reservation
  import opened Engine
  import opened Runs

  predicate SameOrder(a: Move, b: Move) {
    && a.name == b.name && a.item == b.item && a.demand == b.demand && a.price == b.price
    && a.src == b.src && a.dst == b.dst && a.orig == b.orig && a.isInventory == b.isInventory && a.forced == b.forced
  }

  predicate Advances(a: MoveState, b: MoveState) {
    && (a == Done ==> b == Done)
    && (a == Cancelled ==> b == Cancelled)
    && (a == Assigned ==> b == Assigned || b == Done || b == Cancelled)
  }

  predicate Kept(a: Move, b: Move) {
    SameOrder(a, b) && Advances(a.state, b.state) && (a.state == Done ==> b.quantity == a.quantity)
  }

  /** The only way into done is the done verb on that very move, with the sum of its lines. */
  predicate KeptBy(s: Estate, after: map<Id, Move>, finished: Option<Id>, m: Id)
    requires m in s.moves
  {
    && m in after
    && Kept(s.moves[m], after[m])
    && (s.moves[m].state != Done && after[m].state == Done ==>
       finished == Some(m) && after[m].quantity == MoveQty(s.lines, m))
  }

  /** A move that was not there is a created one or the backorder of one, and not done. */
  predicate NewBy(after: map<Id, Move>, created: Option<(Id, NewMove)>, m: Id)
    requires m in after
  {
    && after[m].state != Done
    && (after[m].name.BackorderOf?
       || (created.Some? && created.value.0 == m && SameOrder(DraftOf(created.value.1), after[m])))
  }

  ghost predicate MovesKept(s: Estate, after: map<Id, Move>, finished: Option<Id>, created: Option<(Id, NewMove)>) {
    && (forall m {:trigger after[m]} {:trigger s.moves[m]} :: m in s.moves ==> KeptBy(s, after, finished, m))
    && (forall m {:trigger after[m]} :: m in after && m !in s.moves ==> NewBy(after, created, m))
  }

  function FinishedBy(c: Cmd): Option<Id> { if c.FinishCmd? then Some(c.id) else None }

  function CreatedBy(c: Cmd): Option<(Id, NewMove)> { if c.CreateCmd? then Some((c.id, c.m)) else None }

  lemma CreateKeeps(s: Estate, id: Id, m: NewMove)
    requires id !in s.moves && Create(s, id, m).Ok?
    ensures MovesKept(s, Create(s, id, m).value.moves, None, Some((id, m)))
  {
  }

  lemma AssignKeeps(s: Estate, id: Id, cands: seq<Dims>)
    requires id in s.moves && (s.moves[id].state == Confirmed || s.moves[id].state == PartiallyAvailable)
    requires AssignCore(s, id, cands).Ok?
    ensures MovesKept(s, AssignCore(s, id, cands).value.moves, None, None)
  {
    hide Reservations;
  }

  lemma DoneKeeps(s: Estate, id: Id)
    requires id in s.moves && DoneCore(s, id).Ok?
    ensures MovesKept(s, DoneCore(s, id).value.moves, Some(id), None)
    ensures DoneCore(s, id).value.moves.Keys == s.moves.Keys
  {
    SumLinesOf(s.lines, id, QtyOf, OfW(id));
    hide Mint, DrawAll, Recompute;
  }

  lemma SplitKeeps(s: Estate, id: Id, policy: Policy, child: Id, cands: seq<Dims>)
    requires id in s.moves && child !in s.moves && Split(s, id, policy, child, cands).Ok?
    ensures MovesKept(s, Split(s, id, policy, child, cands).value.moves, None, None)
  {
    hide Reservations;
  }

  lemma ReleaseKeeps(s: Estate, kids: seq<Id>)
    ensures MovesKept(s, Release(s.moves, kids), None, None)
    ensures Release(s.moves, kids).Keys == s.moves.Keys
  {
  }

  lemma KeptThrough(a: Move, b: Move, c: Move)
    requires Kept(a, b) && Kept(b, c)
    ensures Kept(a, c)
  {
  }

  lemma FinishKeeps(s: Estate, id: Id, policy: Policy, child: Id, cands: seq<Dims>)
    requires child !in s.moves && Finish(s, id, policy, child, cands).Ok?
    ensures MovesKept(s, Finish(s, id, policy, child, cands).value.moves, Some(id), None)
  {
    hide DoneCore, Split, Release, Kept, SameOrder;
    var s1 := DoneCore(s, id).value;
    DoneKeeps(s, id);
    var s2 := Split(s1, id, policy, child, cands).value;
    SplitKeeps(s1, id, policy, child, cands);
    var after := Release(s2.moves, s.moves[id].dest);
    ReleaseKeeps(s2, s.moves[id].dest);
    ThreeSteps(s, s1, s2, after, id);
  }

  lemma ThreeSteps(s: Estate, s1: Estate, s2: Estate, after: map<Id, Move>, id: Id)
    requires MovesKept(s, s1.moves, Some(id), None) && s1.moves.Keys == s.moves.Keys
    requires MovesKept(s1, s2.moves, None, None)
    requires MovesKept(s2, after, None, None) && after.Keys == s2.moves.Keys
    ensures MovesKept(s, after, Some(id), None)
  {
    forall m {:trigger after[m]} | m in s.moves ensures KeptBy(s, after, Some(id), m) {
      assert KeptBy(s, s1.moves, Some(id), m);
      assert KeptBy(s1, s2.moves, None, m);
      assert KeptBy(s2, after, None, m);
      KeptThrough(s.moves[m], s1.moves[m], s2.moves[m]);
      KeptThrough(s.moves[m], s2.moves[m], after[m]);
    }
    forall m {:trigger after[m]} | m in after && m !in s.moves ensures NewBy(after, None, m) {
      assert NewBy(s2.moves, None, m);
      assert KeptBy(s2, after, None, m);
    }
  }

  lemma CancelKeeps(s: Estate, root: Id)
    requires root in s.moves && Live(s.moves[root].state)
    ensures MovesKept(s, CancelAll(s, CancelSet(s.moves, root)).moves, None, None)
  {
    CancelSetLive(s.moves, root);
    hide CancelSet;
  }

  lemma ConfirmKeeps(s: Estate, id: Id)
    requires Confirm(s, id).Ok?
    ensures MovesKept(s, Confirm(s, id).value.moves, None, None)
  {
  }

  lemma SameMovesKept(s: Estate)
    ensures MovesKept(s, s.moves, None, None)
  {
  }

  /** Every command keeps every move's order and its final states, whoever issued it. */
  lemma StepKeeps(s: Estate, c: Cmd)
    requires Contract(s, c)
    ensures MovesKept(s, Step(s, c).moves, FinishedBy(c), CreatedBy(c))
  {
    hide MovesKept, Create, Finish, AssignCore, Confirm, CancelAll, CancelSet;
    SameMovesKept(s);
    if Exec(s, c).Ok? {
      match c
      case CreateCmd(id, m) => CreateKeeps(s, id, m);
      case ConfirmCmd(id) => ConfirmKeeps(s, id);
      case AssignCmd(id, cands) => AssignKeeps(s, id, cands);
      case FinishCmd(id, policy, child, cands) => FinishKeeps(s, id, policy, child, cands);
      case CancelCmd(id) => CancelKeeps(s, id);
      case _ =>
    }
    Weaker(s, Step(s, c).moves, FinishedBy(c), CreatedBy(c));
  }

  lemma Weaker(s: Estate, after: map<Id, Move>, finished: Option<Id>, created: Option<(Id, NewMove)>)
    requires MovesKept(s, after, finished, created) || MovesKept(s, after, None, None)
    ensures MovesKept(s, after, finished, created)
  {
  }

  // ---- the ledger rows of a done move ---------------------------------------------------------

  /** A weight that only rows of the voucher carry. */
  ghost predicate Under(v: Voucher, w: Row -> real) { forall r: Row :: r.voucher != v ==> w(r) == 0.0 }

  lemma PostElsewhere(books: Books, u: Voucher, k: BinKey, actual: real, incoming: real, after: Bin, diff: real,
      v: Voucher,
      w: Row -> real)
    requires Under(v, w) && u != v
    ensures Sum(Post(books, u, k, actual, incoming, after, diff).rows, w) == Sum(books.rows, w)
  {
    SumAppend(books.rows, Row(u, k, actual, incoming, after, diff), w);
  }

  lemma MintElsewhere(books: Books, mv: Move, id: Id, src: Location, dst: Location, qty: real, v: Voucher,
      w: Row -> real)
    requires Mint(books, mv, id, src, dst, qty).Ok? && Under(v, w) && v != StockEntry(id)
    ensures Sum(Mint(books, mv, id, src, dst, qty).value.books.rows, w) == Sum(books.rows, w)
  {
    hide Under, OutValue, StepBin, Carried, Sum;
    var ks, kd := KeyOf(mv.item, src), KeyOf(mv.item, dst);
    if ks != kd {
      if ks.Some? {
        var b := BinAt(books.bins, ks.value);
        PostElsewhere(books, StockEntry(id), ks.value, -qty, 0.0, StepBin(b, OutOp(qty, mv.forced)),
          -OutValue(b, qty, mv.forced), v, w);
      }
      var out := MintOut(books, mv, id, ks, qty).value;
      if kd.Some? {
        var b := BinAt(out.books.bins, kd.value);
        var c := Carried(mv, src, b, qty, out.outValue);
        PostElsewhere(out.books, StockEntry(id), kd.value, qty, mv.price, StepBin(b, In(qty, c)), c, v, w);
      }
    }
  }

  /** What a successful done writes to the books is its valuation. */
  lemma FinishBooks(s: Estate, id: Id, policy: Policy, child: Id, cands: seq<Dims>)
    requires Finish(s, id, policy, child, cands).Ok?
    ensures id in s.moves && Ready(s.moves[id].state) && s.moves[id].src in s.locs && s.moves[id].dst in s.locs
    ensures var mv := s.moves[id];
      var minted := Mint(s.books, mv, id, s.locs[mv.src], s.locs[mv.dst], Sum(LinesOf(s.lines, id), QtyOf));
      minted.Ok? && Finish(s, id, policy, child, cands).value.books == minted.value.books
  {
    hide Mint, DrawAll, Recompute, Reservations, Release;
  }

  lemma FinishElsewhere(s: Estate, id: Id, policy: Policy, child: Id, cands: seq<Dims>, m: Id, w: Row -> real)
    requires Finish(s, id, policy, child, cands).Ok? && Under(StockEntry(m), w)
    requires m in s.moves && s.moves[m].state == Done
    ensures Sum(Finish(s, id, policy, child, cands).value.books.rows, w) == Sum(s.books.rows, w)
  {
    hide Finish, Mint, LinesOf, Under;
    FinishBooks(s, id, policy, child, cands);
    var mv := s.moves[id];
    MintElsewhere(s.books, mv, id, s.locs[mv.src], s.locs[mv.dst], Sum(LinesOf(s.lines, id), QtyOf), StockEntry(m), w);
  }

  lemma RevalueElsewhere(s: Estate, id: Id, lc: Id, line: Id, delta: real, m: Id, w: Row -> real)
    requires Revalued(s, id, lc, line, delta).Ok? && Under(StockEntry(m), w)
    ensures Sum(Revalued(s, id, lc, line, delta).value.books.rows, w) == Sum(s.books.rows, w)
  {
    hide StepBin, Under;
    var key := KeyOf(s.moves[id].item, LocAt(s.locs, s.moves[id].dst));
    if key.Some? {
      PostElsewhere(s.books, LandedCost(lc, line), key.value, 0.0, 0.0,
        StepBin(BinAt(s.books.bins, key.value), Revalue(delta)), delta, StockEntry(m), w);
    }
  }

  lemma OtherKeepsBooks(s: Estate, c: Cmd)
    requires !c.FinishCmd? && !c.RevalueCmd?
    ensures Step(s, c).books == s.books
  {
  }

  /** Once a move is done, no verb adds a row to its voucher, so nothing summed over them changes. */
  lemma StepKeepsVoucher(s: Estate, c: Cmd, m: Id, w: Row -> real)
    requires m in s.moves && s.moves[m].state == Done && Under(StockEntry(m), w)
    ensures Sum(Step(s, c).books.rows, w) == Sum(s.books.rows, w)
  {
    hide Finish, Revalued, Under;
    if Exec(s, c).Ok? && c.FinishCmd? { FinishElsewhere(s, c.id, c.policy, c.child, c.cands, m, w); }
    if Exec(s, c).Ok? && c.RevalueCmd? { RevalueElsewhere(s, c.id, c.lc, c.line, c.delta, m, w); }
    if !c.FinishCmd? && !c.RevalueCmd? { OtherKeepsBooks(s, c); }
  }
}
