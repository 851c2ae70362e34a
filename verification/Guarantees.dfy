/** What soundness over every run gives a caller: reservations that cannot be refused, demand
    conserved through backorders, and the valuation laws on the engine's own books. */
module Guarantees {
  import opened Common
  import opened StockTypes
  import opened Valuation
  import opened ValuationLaws
  import opened Reservation
  import opened StockTotals
  import opened Engine
  import opened Invariants
  import opened Soundness
  import opened SoundDone
  import opened Runs

  // ---- the invariants of every run, spelled out -----------------------------------------------

  /** The reservation triangle over every run, at any internal quant. */
  lemma TriangleOverEveryRun(locs: map<Loc, Location>, cs: seq<Cmd>, exact: bool, d: Dims)
    requires Legal(EmptyEstate(locs), cs) && (exact ==> EngineOnly(cs)) && IsInternal(locs, d.loc)
    ensures var s := Run(EmptyEstate(locs), cs); var q := QuantAt(s.quants, d); var mirror := Sum(s.lines, LiveW(d));
      0.0 <= mirror <= q.reserved <= q.quantity && (exact ==> mirror == q.reserved)
  {
    EveryRunIsSound(locs, cs, exact);
    RunKeepsLocs(locs, cs);
    var s := Run(EmptyEstate(locs), cs);
    assert Corner(s.lines, QuantAt(s.quants, d), d, exact);
  }

  lemma {:induction false} RunKeepsLocs(locs: map<Loc, Location>, cs: seq<Cmd>)
    ensures Run(EmptyEstate(locs), cs).locs == locs
  {
    if cs != [] {
      var n := |cs| - 1;
      RunKeepsLocs(locs, cs[..n]);
      StepLocs(Run(EmptyEstate(locs), cs[..n]), cs[n]);
    }
  }

  lemma StepLocs(s: Estate, c: Cmd)
    ensures Step(s, c).locs == s.locs
  {
    hide Mint, DrawAll, Recompute;
  }

  /** The chain order over every run: a move confirmed or further has every existing parent done, and
      a waiting move still has an existing parent that is not, so no release was lost. */
  lemma ChainOrderOverEveryRun(locs: map<Loc, Location>, cs: seq<Cmd>, c: Id)
    requires Legal(EmptyEstate(locs), cs) && c in Run(EmptyEstate(locs), cs).moves
    ensures var moves := Run(EmptyEstate(locs), cs).moves; var st := moves[c].state;
      && (st == Confirmed || st == PartiallyAvailable || st == Assigned || st == Done ==>
         forall p :: p in moves[c].orig && p in moves ==> moves[p].state == Done)
      && (st == Waiting ==> exists p :: p in moves[c].orig && p in moves && moves[p].state != Done)
  {
    EveryRunIsSound(locs, cs, false);
    assert InOrder(Run(EmptyEstate(locs), cs).moves, c, None);
  }

  /** Over every run each bin's quantity is the stock of its warehouse's internal locations and the sum
      of its ledger rows, and its value the sum of theirs. */
  lemma BinsOverEveryRun(locs: map<Loc, Location>, cs: seq<Cmd>, k: BinKey)
    requires Legal(EmptyEstate(locs), cs)
    ensures var s := Run(EmptyEstate(locs), cs); var b := BinAt(s.books.bins, k);
      && b.qty == OnHand(locs, s.quants, k) == Sum(s.books.rows, QtyW(k))
      && b.value == Sum(s.books.rows, ValueW(k))
      && forall i :: 0 <= i < |s.books.rows| && s.books.rows[i].key == k && LastAt(s.books.rows, i) ==>
         s.books.rows[i].after == b
  {
    EveryRunIsSound(locs, cs, false);
    RunKeepsLocs(locs, cs);
  }

  // ---- a reservation is a guarantee -------------------------------------------------

  lemma {:induction false} StampKeepsOthers(lines: seq<Line>, id: Id, st: MoveState, m: Id)
    requires m != id
    ensures LinesOf(StampLines(lines, id, st), m) == LinesOf(lines, m)
  {
    if lines != [] {
      var n := |lines| - 1;
      StampKeepsOthers(lines[..n], id, st, m);
      assert StampLines(lines, id, st)[..n] == StampLines(lines[..n], id, st);
    }
  }

  predicate Holds(s: Estate, m: Id) {
    m in s.moves && Live(s.moves[m].state) && IsInternal(s.locs, s.moves[m].src) && MoveQty(s.lines, m) > 0.0
  }

  lemma NeverFinishes(s: Estate, id: Id, child: Id)
    requires id in s.moves && DoneCore(s, id).Ok?
    ensures var s1 := DoneCore(s, id).value;
      Finish(s, id, Never, child, []) == Ok(s1.(moves := Release(s1.moves, s.moves[id].dest)))
  {
    hide DoneCore;
  }

  /** In any sound state, a live move holding a positive reservation at an internal location is done
      on request, unrefused; every other move keeps its lines, and whatever another live move
      holds can still be done after it. */
  lemma ReservationHolds(s: Estate, exact: bool, id: Id, child: Id, other: Id)
    requires Sound(s, exact) && Holds(s, id) && Fresh(s.moves, child) && other != id
    ensures var r := Finish(s, id, Never, child, []);
      && r.Ok?
      && Sound(r.value, exact)
      && r.value.moves[id].state == Done && r.value.moves[id].quantity == MoveQty(s.lines, id)
      && LinesOf(r.value.lines, other) == LinesOf(s.lines, other)
      && (Holds(s, other) ==> DoneCore(r.value, other).Ok?)
  {
    hide DoneCore, Sound;
    StandingReservationIsDone(s, id, exact);
    DoneCoreParts(s, id, exact);
    NeverFinishes(s, id, child);
    FinishSound(s, id, Never, child, [], exact);
    StampKeepsOthers(s.lines, id, Done, other);
    MoveQtyStamp(s.lines, id, Done, other);
    if Holds(s, other) { StandingReservationIsDone(Finish(s, id, Never, child, []).value, other, exact); }
  }

  /** So after any run whatever other moves did in between. */
  lemma ReservationSurvivesEveryRun(locs: map<Loc, Location>, cs: seq<Cmd>, exact: bool, id: Id, child: Id, other: Id)
    requires Legal(EmptyEstate(locs), cs) && (exact ==> EngineOnly(cs))
    requires Holds(Run(EmptyEstate(locs), cs), id) && Fresh(Run(EmptyEstate(locs), cs).moves, child) && other != id
    ensures var s := Run(EmptyEstate(locs), cs); var r := Finish(s, id, Never, child, []);
      && r.Ok?
      && r.value.moves[id].quantity == MoveQty(s.lines, id)
      && LinesOf(r.value.lines, other) == LinesOf(s.lines, other)
      && (Holds(s, other) ==> DoneCore(r.value, other).Ok?)
  {
    hide DoneCore, Sound, Finish;
    EveryRunIsSound(locs, cs, exact);
    ReservationHolds(Run(EmptyEstate(locs), cs), exact, id, child, other);
  }

  // ---- demand is conserved through backorders -------------------------------------------

  predicate Lineage(backorders: map<Id, Id>, path: seq<Id>) {
    path != [] && forall i :: 0 <= i < |path| - 1 ==> path[i] in backorders && backorders[path[i]] == path[i + 1]
  }

  function QuantityW(moves: map<Id, Move>): Id -> real { (m: Id) => if m in moves then moves[m].quantity else 0.0 }

  /** Along any line of backorders, what was done plus what the last one demands is the original
      demand, and each demand is strictly smaller than the one before it. */
  lemma {:induction false} DemandConserved(moves: map<Id, Move>, backorders: map<Id, Id>, path: seq<Id>)
    requires Splits(moves, backorders) && Lineage(backorders, path) && path[0] in moves
    ensures var n := |path| - 1;
      && path[n] in moves
      && Sum(path[..n], QuantityW(moves)) + moves[path[n]].demand == moves[path[0]].demand
      && (n > 0 ==> 0.0 < moves[path[n]].demand < moves[path[0]].demand)
  {
    var n := |path| - 1;
    if n > 0 {
      var front := path[..n];
      assert Lineage(backorders, front) by {
        forall i | 0 <= i < |front| - 1 ensures front[i] in backorders && backorders[front[i]] == front[i + 1] {
          assert path[i] in backorders && backorders[path[i]] == path[i + 1];
        }
      }
      DemandConserved(moves, backorders, front);
      var last := path[n - 1];
      assert last in backorders && backorders[last] == path[n];
      assert SplitOk(moves, last, path[n]);
      assert front[..n - 1] == path[..n - 1] && front == path[..n - 1] + [last];
      SumAppend(path[..n - 1], last, QuantityW(moves));
    }
  }

  lemma SplitAnnounces(s: Estate, id: Id, policy: Policy, child: Id, cands: seq<Dims>)
    requires policy != Never && id in s.moves && s.moves[id].state == Done && s.moves[id].quantity < s.moves[id].demand
    requires Fresh(s.moves, child) && s.moves[id].src in s.locs
    ensures var r := Split(s, id, policy, child, cands);
      && r.Ok?
      && r.value.backorders == s.backorders[id := child]
      && child in r.value.moves && Ready(r.value.moves[child].state)
      && r.value.moves[child].demand == s.moves[id].demand - s.moves[id].quantity
      && SameRoute(s.moves[id], r.value.moves[child], id)
      && id in r.value.moves && r.value.moves[id].quantity == s.moves[id].quantity
  {
    var m := Remainder(s.moves[id], id);
    var inserted := Insert(s.moves, child, m);
    InsertedDraft(s.moves, child, m);
    InsertAt(s.moves, child, m, id);
    hide Insert, Reservations;
    assert ConfirmedState(inserted, inserted[child]) == Confirmed;
  }

  /** Under `Always` or `Delayed` a partial validation announces exactly one open backorder for the
      remainder; a whole one announces none. */
  lemma PartialValidationSplits(s: Estate, id: Id, policy: Policy, child: Id, cands: seq<Dims>, exact: bool)
    requires Sound(s, exact) && policy != Never && id in s.moves && DoneCore(s, id).Ok?
    requires Fresh(s.moves, child)
    ensures var r := Finish(s, id, policy, child, cands); var held := MoveQty(s.lines, id);
      && r.Ok? && id in r.value.moves && r.value.moves[id].quantity == held
      && (held >= s.moves[id].demand ==> r.value.backorders == s.backorders)
      && (held < s.moves[id].demand ==> OpenBackorder(s, r.value, id, child, s.moves[id].demand - held))
  {
    hide DoneCore, Split, Shape, Sound;
    DoneCoreParts(s, id, exact);
    var s1 := DoneCore(s, id).value;
    if s1.moves[id].quantity < s1.moves[id].demand {
      SplitAnnounces(s1, id, policy, child, cands);
    } else {
      WholeSplit(s1, id, policy, child, cands);
    }
  }

  /** A backorder runs its parent's route at its parent's price, as ordinary demand that follows it. */
  predicate SameRoute(parent: Move, bo: Move, id: Id) {
    && bo.item == parent.item && bo.src == parent.src && bo.dst == parent.dst && bo.price == parent.price
    && bo.isInventory == parent.isInventory && bo.forced.None? && bo.orig == [id] && bo.quantity == 0.0
    && bo.name == BackorderOf(parent.name) && bo.dest == parent.dest && bo.propagate
  }

  predicate OpenBackorder(s: Estate, s': Estate, id: Id, child: Id, demand: real) {
    && s'.backorders == s.backorders[id := child]
    && id in s.moves && child in s'.moves && Ready(s'.moves[child].state) && s'.moves[child].demand == demand
    && SameRoute(s.moves[id], s'.moves[child], id)
  }

  lemma WholeSplit(s: Estate, id: Id, policy: Policy, child: Id, cands: seq<Dims>)
    requires id in s.moves && s.moves[id].quantity >= s.moves[id].demand
    ensures Split(s, id, policy, child, cands) == Ok(s)
  {
  }

  // ---- the engine's books are a run of the valuation ---------------------------------------

  ghost function BooksOpOf(s: Estate, c: Cmd): seq<BooksOp> {
    if Exec(s, c).Err? then [] else
    match c
    case FinishCmd(id, _, _, _) =>
      var mv := s.moves[id];
      [Moved(mv, id, LocAt(s.locs, mv.src), LocAt(s.locs, mv.dst), MoveQty(s.lines, id))]
    case RevalueCmd(id, lc, line, delta) =>
      [Adjusted(s.moves[id].item, LocAt(s.locs, s.moves[id].dst), lc, line, delta)]
    case _ => []
  }

  ghost function BooksTrail(s: Estate, cs: seq<Cmd>): seq<BooksOp> {
    if cs == [] then [] else var n := |cs| - 1; BooksTrail(s, cs[..n]) + BooksOpOf(Run(s, cs[..n]), cs[n])
  }

  lemma SplitKeepsBooks(s: Estate, id: Id, policy: Policy, child: Id, cands: seq<Dims>)
    requires id in s.moves && Split(s, id, policy, child, cands).Ok?
    ensures Split(s, id, policy, child, cands).value.books == s.books
  {
  }

  lemma StepBooksIs(s: Estate, c: Cmd, exact: bool)
    requires Sound(s, exact)
    ensures var ops := BooksOpOf(s, c);
      && |ops| <= 1
      && Step(s, c).books == (if ops == [] then s.books else StepBooks(s.books, ops[0]))
      && (ops != [] ==> NonNegative(ops[0]))
  {
    if c.FinishCmd? && Exec(s, c).Ok? {
      DoneCoreParts(s, c.id, exact);
      SplitKeepsBooks(DoneCore(s, c.id).value, c.id, c.policy, c.child, c.cands);
      assert MoveMirror(s.moves[c.id], IsInternal(s.locs, s.moves[c.id].src), MoveQty(s.lines, c.id), exact);
    }
  }

  lemma {:induction false} EngineBooksAreARun(locs: map<Loc, Location>, cs: seq<Cmd>)
    requires Legal(EmptyEstate(locs), cs)
    ensures var ops := BooksTrail(EmptyEstate(locs), cs);
      RunBooks(ops) == Run(EmptyEstate(locs), cs).books && forall op :: op in ops ==> NonNegative(op)
  {
    if cs != [] {
      var n := |cs| - 1;
      var s := Run(EmptyEstate(locs), cs[..n]);
      var before := BooksTrail(EmptyEstate(locs), cs[..n]);
      var more := BooksOpOf(s, cs[n]);
      EngineBooksAreARun(locs, cs[..n]);
      EveryRunIsSound(locs, cs[..n], false);
      StepBooksIs(s, cs[n], false);
      if more == [] {
        assert before + more == before;
      } else {
        assert more == [more[0]] && (before + more)[..|before|] == before;
      }
    }
  }

  /** Every bin of every run of the engine stays within the drift bound of its own trail. */
  lemma EngineDrift(locs: map<Loc, Location>, cs: seq<Cmd>, k: BinKey)
    requires Legal(EmptyEstate(locs), cs)
    ensures var b := BinAt(Run(EmptyEstate(locs), cs).books.bins, k);
      b.qty >= 0.0 && (b.qty > 0.0 ==> Near(b, DriftBound(TrackRun(Trail(BooksTrail(EmptyEstate(locs), cs), k)))))
  {
    EngineBooksAreARun(locs, cs);
    BooksDrift(BooksTrail(EmptyEstate(locs), cs), k);
  }

  /** No forced value and no landed cost in the run. */
  predicate OrdinaryRun(cs: seq<Cmd>) { forall c :: c in cs ==> !c.RevalueCmd? && (c.CreateCmd? ==> c.m.forced.None?) }

  ghost predicate Unforced(moves: map<Id, Move>) {
    forall m {:trigger moves[m]} :: m in moves ==> moves[m].forced.None?
  }

  lemma StepUnforced(s: Estate, c: Cmd)
    requires Unforced(s.moves) && (c.CreateCmd? ==> c.m.forced.None?)
    ensures Unforced(Step(s, c).moves)
  {
    if c.FinishCmd? && Exec(s, c).Ok? { FinishUnforced(s, c.id, c.policy, c.child, c.cands); }
    hide Finish;
  }

  lemma FinishUnforced(s: Estate, id: Id, policy: Policy, child: Id, cands: seq<Dims>)
    requires Unforced(s.moves) && Finish(s, id, policy, child, cands).Ok?
    ensures Unforced(Finish(s, id, policy, child, cands).value.moves)
  {
    hide DoneCore, Split;
    DoneUnforced(s, id);
    SplitUnforced(DoneCore(s, id).value, id, policy, child, cands);
  }

  lemma DoneUnforced(s: Estate, id: Id)
    requires Unforced(s.moves) && id in s.moves && DoneCore(s, id).Ok?
    ensures Unforced(DoneCore(s, id).value.moves) && id in DoneCore(s, id).value.moves
  {
    hide Mint, DrawAll, Recompute;
  }

  lemma SplitUnforced(s: Estate, id: Id, policy: Policy, child: Id, cands: seq<Dims>)
    requires Unforced(s.moves) && id in s.moves && Split(s, id, policy, child, cands).Ok?
    ensures Unforced(Split(s, id, policy, child, cands).value.moves)
  {
    hide Reservations, AssignedState;
  }

  lemma {:induction false} OrdinaryTrail(locs: map<Loc, Location>, cs: seq<Cmd>)
    requires Legal(EmptyEstate(locs), cs) && OrdinaryRun(cs)
    ensures Unforced(Run(EmptyEstate(locs), cs).moves)
    ensures forall op :: op in BooksTrail(EmptyEstate(locs), cs) ==> Ordinary(op)
  {
    if cs != [] {
      var n := |cs| - 1;
      var s := Run(EmptyEstate(locs), cs[..n]);
      OrdinaryTrail(locs, cs[..n]);
      EveryRunIsSound(locs, cs[..n], false);
      assert cs[n] in cs;
      StepUnforced(s, cs[n]);
      StepBooksIs(s, cs[n], false);
      var more := BooksOpOf(s, cs[n]);
      if more != [] { assert more == [more[0]] && Ordinary(more[0]); }
    }
  }

  /** In every run of ordinary moves through the engine, a bin that ends empty has carried out
      exactly the value it took in. */
  lemma EngineLosesNothing(locs: map<Loc, Location>, cs: seq<Cmd>, k: BinKey)
    requires Legal(EmptyEstate(locs), cs) && OrdinaryRun(cs)
    requires BinAt(Run(EmptyEstate(locs), cs).books.bins, k).qty == 0.0
    ensures var rows := Run(EmptyEstate(locs), cs).books.rows; Sum(rows, CarriedOutW(k)) == Sum(rows, CarriedInW(k))
  {
    EngineBooksAreARun(locs, cs);
    OrdinaryTrail(locs, cs);
    NothingLostOnDrain(BooksTrail(EmptyEstate(locs), cs), k);
  }
}
