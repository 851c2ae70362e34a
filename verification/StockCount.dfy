/** The adjustment door: a count staged on one untracked quant, and the move that brings the stock to
    it. Between staging and the move's done the stock is what was counted against; after it, the
    count; and applying again changes nothing. */
module StockCount {
  import opened Common
  import opened StockTypes
  import opened Reservation
  import opened Engine
  import opened Invariants
  import opened Soundness
  import opened SoundDone
  import opened Runs
  import opened Guarantees
  import opened Frames
  import opened VerbContracts

  datatype Staging = NotStaged | Staged(counted: real, diff: real)

  datatype Decision = NothingStaged | Consume | Adjust(diff: real)

  function Untracked(item: Item, loc: Loc): Dims { Dims(item, loc, None, None, None) }

  /** No count while the quant holds reservations, and only where stock is ours to count. */
  function CheckCountable(locs: map<Loc, Location>, loc: Loc, q: Quant): Outcome<()> {
    if !IsInternal(locs, loc) then Err(ViewLocationHoldsNoStock)
    else if q.reserved > 0.0 then Err(CountReserved)
    else Ok(())
  }

  function Stage(locs: map<Loc, Location>, loc: Loc, q: Quant, counted: real): Outcome<Staging> {
    if counted < 0.0 then Err(NegativeQuantity) else
    match CheckCountable(locs, loc, q)
    case Err(e) => Err(e)
    case Ok(_) => Ok(Staged(counted, counted - q.quantity))
  }

  /** What an apply decides under the quant's lock. */
  function Gate(locs: map<Loc, Location>, loc: Loc, q: Quant, staging: Staging): Outcome<Decision> {
    match CheckCountable(locs, loc, q)
    case Err(e) => Err(e)
    case Ok(_) =>
      match staging
      case NotStaged => Ok(NothingStaged)
      case Staged(counted, diff) =>
        if q.quantity == counted then Ok(Consume)
        else if q.quantity != counted - diff then Err(OutdatedCount)
        else Ok(Adjust(diff))
  }

  /** A count is staged exactly when it is not negative and the quant is ours and unreserved, and it notes the
      distance from the stock it found. */
  lemma StageIsExact(locs: map<Loc, Location>, loc: Loc, q: Quant, counted: real)
    ensures var r := Stage(locs, loc, q, counted);
      && (r == Err(NegativeQuantity) <==> counted < 0.0)
      && (r == Err(ViewLocationHoldsNoStock) <==> counted >= 0.0 && !IsInternal(locs, loc))
      && (r == Err(CountReserved) <==> counted >= 0.0 && IsInternal(locs, loc) && q.reserved > 0.0)
      && (r.Ok? <==> counted >= 0.0 && IsInternal(locs, loc) && q.reserved <= 0.0)
      && (r.Ok? ==> r.value.Staged? && r.value.counted == counted && q.quantity + r.value.diff == counted)
  {
  }

  /** The gate, whatever became of the stock since the count was staged: an adjustment it offers brings
      exactly that stock to the count, the count is consumed exactly at the count, and it is outdated
      exactly when the stock is neither there nor where it was staged. */
  lemma GateReachesTheCount(locs: map<Loc, Location>, loc: Loc, q: Quant, staging: Staging)
    ensures var r := Gate(locs, loc, q, staging); var countable := IsInternal(locs, loc) && q.reserved <= 0.0;
      && (r == Err(ViewLocationHoldsNoStock) <==> !IsInternal(locs, loc))
      && (r == Err(CountReserved) <==> IsInternal(locs, loc) && q.reserved > 0.0)
      && (r == Ok(NothingStaged) <==> countable && staging.NotStaged?)
      && (r == Ok(Consume) <==> countable && staging.Staged? && q.quantity == staging.counted)
      && (r == Err(OutdatedCount) <==>
            && countable && staging.Staged? && q.quantity != staging.counted
            && q.quantity != staging.counted - staging.diff)
      && (r.Ok? && r.value.Adjust? ==>
            staging.Staged? && r.value.diff != 0.0 && q.quantity + r.value.diff == staging.counted)
      && (r.Err? ==> r.error == ViewLocationHoldsNoStock || r.error == CountReserved || r.error == OutdatedCount)
  {
  }

  /** So a count staged on `was` is only ever applied to that very stock. */
  lemma StagedCountIsNeverStale(locs: map<Loc, Location>, loc: Loc, was: Quant, counted: real, now: Quant)
    requires Stage(locs, loc, was, counted).Ok?
    ensures var r := Gate(locs, loc, now, Stage(locs, loc, was, counted).value);
      r.Ok? && r.value.Adjust? ==> now.quantity == was.quantity && now.quantity + r.value.diff == counted
  {
    StageIsExact(locs, loc, was, counted);
    GateReachesTheCount(locs, loc, now, Stage(locs, loc, was, counted).value);
  }

  function AdjustmentMove(tag: Id, item: Item, loc: Loc, loss: Loc, diff: real): NewMove {
    if diff > 0.0 then NewMove(Named(tag), item, diff, 0.0, loss, loc, [], [], true, None, true)
    else NewMove(Named(tag), item, -diff, 0.0, loc, loss, [], [], true, None, true)
  }

  /** The far end of every adjustment, and the counted location. */
  predicate Places(locs: map<Loc, Location>, loc: Loc, loss: Loc) {
    loc in locs && loss in locs && IsInternal(locs, loc) && locs[loss].usage == InventoryLoss
  }

  // ---- the three verbs before the stock moves -----------------------------------------------

  /** Adjusting `d` by move `id`, not yet done: nothing moved, nobody else's stock reserved. */
  ghost predicate Pending(s0: Estate, s: Estate, id: Id, d: Dims, m: NewMove) {
    && Sound(s, true) && s.locs == s0.locs && id in s.moves && SameOrder(DraftOf(m), s.moves[id])
    && (forall x {:trigger QuantAt(s.quants, x)} :: QuantAt(s.quants, x).quantity == QuantAt(s0.quants, x).quantity)
    && (forall x {:trigger QuantAt(s.quants, x)} :: x != d ==> QuantAt(s.quants, x) == QuantAt(s0.quants, x))
  }

  lemma NoLinesYet(s: Estate, id: Id)
    requires Sound(s, true) && id !in s.moves
    ensures LinesOf(s.lines, id) == [] && MoveQty(s.lines, id) == 0.0
  {
    LinesOfMembers(s.lines, id);
    MoveQtyNone(s.lines, id);
    if LinesOf(s.lines, id) != [] { assert LinesOf(s.lines, id)[0] in LinesOf(s.lines, id); }
  }

  lemma Opens(s: Estate, id: Id, d: Dims, loss: Loc, m: NewMove)
    requires Sound(s, true) && Fresh(s.moves, id) && Places(s.locs, d.loc, loss) && m.demand > 0.0 && m.price == 0.0
      && m.orig == []
    requires (m.src == loss && m.dst == d.loc) || (m.src == d.loc && m.dst == loss)
    ensures var c := Create(s, id, m); var r := if c.Ok? then Confirm(c.value, id) else c;
      && c.Ok? && r.Ok? && Pending(s, c.value, id, d, m) && Pending(s, r.value, id, d, m)
      && r.value.moves[id].state == Confirmed && r.value.quants == s.quants
      && LinesOf(r.value.lines, id) == [] && MoveQty(r.value.lines, id) == 0.0
  {
    NoLinesYet(s, id);
    CreateSound(s, id, m, true);
    var s1 := Create(s, id, m).value;
    ConfirmSound(s1, id, true, None);
    hide Sound;
  }

  lemma {:induction false} LinesOfStamped(lines: seq<Line>, id: Id, st: MoveState)
    ensures LinesOf(StampLines(lines, id, st), id) == StampLines(LinesOf(lines, id), id, st)
  {
    if lines != [] {
      var n := |lines| - 1;
      LinesOfStamped(lines[..n], id, st);
      assert StampLines(lines, id, st)[..n] == StampLines(lines[..n], id, st);
    }
  }

  /** The assign holds the whole difference on one line at the counted place. */
  lemma HoldsOne(s: Estate, id: Id, l: Line, st: MoveState)
    requires LinesOf(s.lines, id) == [] && l.mv == id
    ensures LinesOf(StampLines(s.lines + [l], id, st), id) == [l.(state := st)]
  {
    LinesOfStamped(s.lines + [l], id, st);
    assert (s.lines + [l])[..|s.lines|] == s.lines;
    assert LinesOf(s.lines + [l], id) == [] + [l] == [l];
  }

  lemma OneCandidate(quants: map<Dims, Quant>, d: Dims, need: real, m: Id, dstLoc: Loc, st: MoveState)
    requires 0.0 < need <= Free(quants, d)
    ensures var r := Reserve(quants, [d], need, m, dstLoc, st); var q := QuantAt(quants, d);
      r == Reserved(quants[d := Quant(q.quantity, q.reserved + need)], [Line(m, d, dstLoc, None, need, st)], need)
  {
    var q := QuantAt(quants, d);
    assert [d][1..] == [] && [d][0] == d;
    var q1 := quants[d := Quant(q.quantity, q.reserved + need)];
    var rest := Reserve(q1, [], need - need, m, dstLoc, st);
    assert rest == Reserved(q1, [], 0.0);
    var l := Line(m, d, dstLoc, None, need, st);
    assert [l] + rest.lines == [l];
  }

  function AtSource(d: Dims, m: NewMove): real { if m.src == d.loc then m.demand else 0.0 }

  /** What the assign reserves: the whole difference, on one line, at the counted quant or outside. */
  lemma ReservesTheDifference(s: Estate, id: Id, d: Dims, loss: Loc, m: NewMove)
    requires id in s.moves && SameOrder(DraftOf(m), s.moves[id]) && Places(s.locs, d.loc, loss)
    requires MoveQty(s.lines, id) == 0.0 && d == Untracked(m.item, d.loc) && m.demand > 0.0
    requires (m.src == loss && m.dst == d.loc) || (m.src == d.loc && m.dst == loss && m.demand <= Free(s.quants, d))
    ensures var r := Reservations(s, id, if m.src == d.loc then [d] else []);
      && r.lines == [Line(id, Untracked(m.item, m.src), m.dst, None, m.demand, s.moves[id].state)] && r.took == m.demand
      && (forall x {:trigger QuantAt(r.quants, x)} :: QuantAt(r.quants, x).quantity == QuantAt(s.quants, x).quantity)
      && (forall x {:trigger QuantAt(r.quants, x)} :: x != d ==> QuantAt(r.quants, x) == QuantAt(s.quants, x))
      && QuantAt(r.quants, d).reserved == QuantAt(s.quants, d).reserved + AtSource(d, m)
  {
    if m.src == d.loc { OneCandidate(s.quants, d, m.demand, id, m.dst, s.moves[id].state); }
    hide Reserve;
  }

  lemma Assigns(s0: Estate, s: Estate, id: Id, d: Dims, loss: Loc, m: NewMove)
    requires Pending(s0, s, id, d, m) && s.moves[id].state == Confirmed && Places(s.locs, d.loc, loss)
    requires LinesOf(s.lines, id) == [] && MoveQty(s.lines, id) == 0.0 && d == Untracked(m.item, d.loc)
      && m.demand > 0.0
    requires (m.src == loss && m.dst == d.loc) || (m.src == d.loc && m.dst == loss && m.demand <= Free(s.quants, d))
    ensures var r := Assign(s, id, if m.src == d.loc then [d] else []);
      && r.Ok? && Pending(s0, r.value, id, d, m) && r.value.moves[id].state == Assigned
      && LinesOf(r.value.lines, id) == [Line(id, Untracked(m.item, m.src), m.dst, None, m.demand, Assigned)]
      && MoveQty(r.value.lines, id) == m.demand
      && QuantAt(r.value.quants, d).reserved == QuantAt(s.quants, d).reserved + AtSource(d, m)
  {
    hide Sound, Reservations, LinesOf, MoveQty;
    var cands := if m.src == d.loc then [d] else [];
    ReservesTheDifference(s, id, d, loss, m);
    AssignIs(s, id, cands);
    AssignedIsSound(s, id, cands);
    AssignHeld(s, id, cands, true);
    HoldsOne(s, id, Line(id, Untracked(m.item, m.src), m.dst, None, m.demand, s.moves[id].state), Assigned);
    var s' := Assign(s, id, cands).value;
    hide Assign;
    forall x {:trigger QuantAt(s'.quants, x)}
      ensures QuantAt(s'.quants, x).quantity == QuantAt(s0.quants, x).quantity
      ensures x != d ==> QuantAt(s'.quants, x) == QuantAt(s0.quants, x)
    {
      var _ := QuantAt(s.quants, x);
    }
  }

  lemma AssignIs(s: Estate, id: Id, cands: seq<Dims>)
    requires id in s.moves && s.moves[id].state == Confirmed && s.moves[id].src in s.locs
    requires Reservations(s, id, cands).took == s.moves[id].demand > 0.0
    ensures Assign(s, id, cands).Ok? && id in Assign(s, id, cands).value.moves
      && Assign(s, id, cands).value.moves[id].state == Assigned
  {
    hide Reservations;
  }

  lemma SumOne(l: Line, w: Line -> real)
    ensures Sum([l], w) == w(l)
  {
    SumAppend([], l, w);
    assert [] + [l] == [l];
  }

  /** The done brings the stock to the count and leaves every other quant as it was. */
  lemma Finishes(s0: Estate, s: Estate, id: Id, child: Id, d: Dims, loss: Loc, m: NewMove, x: Dims)
    requires Pending(s0, s, id, d, m) && s.moves[id].state == Assigned && Places(s.locs, d.loc, loss)
      && Fresh(s.moves, child)
    requires LinesOf(s.lines, id) == [Line(id, Untracked(m.item, m.src), m.dst, None, m.demand, Assigned)]
      && MoveQty(s.lines, id) == m.demand
    requires d == Untracked(m.item, d.loc) && m.demand > 0.0
    requires (m.src == loss && m.dst == d.loc) || (m.src == d.loc && m.dst == loss)
    ensures var r := Finish(s, id, Never, child, []); var diff := if m.dst == d.loc then m.demand else -m.demand;
      && r.Ok? && id in r.value.moves && r.value.moves[id].state == Done
      && QuantAt(r.value.quants, x).quantity == QuantAt(s0.quants, x).quantity + (if x == d then diff else 0.0)
      && (x == d ==> QuantAt(r.value.quants, d).reserved == QuantAt(s.quants, d).reserved - AtSource(d, m))
  {
    var l := LinesOf(s.lines, id)[0];
    ReservationIsGuarantee(s, id, true);
    DoneCoreParts(s, id, true);
    NeverFinishes(s, id, child);
    DoneMovesExactly(s, id, x);
    SumOne(l, SrcW(x));
    SumOne(l, LandsW(x));
    var _ := QuantAt(s.quants, x);
    hide Sound, DoneCore;
  }

  lemma FreshAfter(s: Estate, c: Cmd, id: Id, child: Id)
    requires Fresh(s.moves, child) && child != id
    requires c.ConfirmCmd? || c.AssignCmd? || (c.CreateCmd? && c.id == id && c.m.orig == [])
    ensures Exec(s, c).Ok? ==> Fresh(Exec(s, c).value.moves, child)
  {
    hide Reservations;
  }

  /** The verbs up to the done: mint, confirm, assign at the counted quant. */
  function Prepared(s: Estate, id: Id, m: NewMove, cands: seq<Dims>): Outcome<Estate> {
    match Create(s, id, m)
    case Err(e) => Err(e)
    case Ok(c) =>
      match Confirm(c, id)
      case Err(e) => Err(e)
      case Ok(f) => Assign(f, id, cands)
  }

  function CandidatesFor(d: Dims, m: NewMove): seq<Dims> { if m.src == d.loc then [d] else [] }

  lemma PreparesOk(s: Estate, id: Id, child: Id, d: Dims, loss: Loc, m: NewMove)
    requires Sound(s, true) && Fresh(s.moves, id) && Fresh(s.moves, child) && child != id
    requires Places(s.locs, d.loc, loss) && m.demand > 0.0 && m.price == 0.0 && m.orig == []
      && d == Untracked(m.item, d.loc)
    requires (m.src == loss && m.dst == d.loc) || (m.src == d.loc && m.dst == loss && m.demand <= Free(s.quants, d))
    ensures var r := Prepared(s, id, m, CandidatesFor(d, m));
      && r.Ok? && Pending(s, r.value, id, d, m) && r.value.moves[id].state == Assigned && Fresh(r.value.moves, child)
      && LinesOf(r.value.lines, id) == [Line(id, Untracked(m.item, m.src), m.dst, None, m.demand, Assigned)]
         && MoveQty(r.value.lines, id) == m.demand
      && QuantAt(r.value.quants, d).reserved == QuantAt(s.quants, d).reserved + AtSource(d, m)
  {
    hide Sound, Fresh, Assign, Confirm, Create, LinesOf, MoveQty;
    Opens(s, id, d, loss, m);
    var s1 := Create(s, id, m).value;
    var s2 := Confirm(s1, id).value;
    FreshAfter(s, CreateCmd(id, m), id, child);
    FreshAfter(s1, ConfirmCmd(id), id, child);
    FreshAfter(s2, AssignCmd(id, CandidatesFor(d, m)), id, child);
    Assigns(s, s2, id, d, loss, m);
  }

  /** Applying a staged difference to an unreserved quant: no verb is refused, the stock stays what was
      counted against until the move is done and is exactly the count after, no other quant changes,
      and a retry finds the count reached and consumes the staging. */
  lemma ApplyReachesTheCount(s: Estate, id: Id, child: Id, item: Item, loc: Loc, loss: Loc, tag: Id, counted: real,
      x: Dims)
    requires Sound(s, true) && Places(s.locs, loc, loss) && Fresh(s.moves, id) && Fresh(s.moves, child) && child != id
    requires counted >= 0.0
    requires QuantAt(s.quants, Untracked(item, loc)).reserved == 0.0
      && QuantAt(s.quants, Untracked(item, loc)).quantity != counted
    ensures var d := Untracked(item, loc); var q := QuantAt(s.quants, d); var diff := counted - q.quantity;
      var m := AdjustmentMove(tag, item, loc, loss, diff);
      && Stage(s.locs, loc, q, counted) == Ok(Staged(counted, diff))
      && Gate(s.locs, loc, q, Staged(counted, diff)) == Ok(Adjust(diff))
      && Gate(s.locs, loc, Quant(counted, 0.0), Staged(counted, diff)) == Ok(Consume)
      && m.isInventory && m.price == 0.0 && m.forced.None? && m.orig == [] && m.dest == []
      && Lands(s, Prepared(s, id, m, CandidatesFor(d, m)), id, child, d, counted, x)
  {
    var d := Untracked(item, loc);
    var diff := counted - QuantAt(s.quants, d).quantity;
    var m := AdjustmentMove(tag, item, loc, loss, diff);
    hide Sound, Fresh, Finish, LinesOf, MoveQty, Prepared;
    PreparesOk(s, id, child, d, loss, m);
    var s3 := Prepared(s, id, m, CandidatesFor(d, m)).value;
    Finishes(s, s3, id, child, d, loss, m, d);
    Finishes(s, s3, id, child, d, loss, m, x);
    var _ := QuantAt(s3.quants, d);
  }

  /** Prepared without moving stock, then done at the count, unreserved, elsewhere untouched. */
  ghost predicate Lands(s: Estate, ready: Outcome<Estate>, id: Id, child: Id, d: Dims, counted: real, x: Dims) {
    && ready.Ok? && QuantAt(ready.value.quants, d).quantity == QuantAt(s.quants, d).quantity
    && var done := Finish(ready.value, id, Never, child, []);
    && done.Ok?
    && QuantAt(done.value.quants, d) == Quant(counted, 0.0)
    && (x != d ==> QuantAt(done.value.quants, x).quantity == QuantAt(s.quants, x).quantity)
  }

  /** The retry of an interrupted application. Interrupted before its assign, it is offered the same
      adjustment again. Interrupted between the assign and the done, it is refused exactly when the
      count shrinks the stock, because its own reservation makes the quant uncountable; a growing
      count is offered the same adjustment again. */
  lemma RetryIsRefusedIff(s: Estate, id: Id, child: Id, item: Item, loc: Loc, loss: Loc, tag: Id, counted: real)
    requires Sound(s, true) && Places(s.locs, loc, loss) && Fresh(s.moves, id) && Fresh(s.moves, child) && child != id
    requires counted >= 0.0
    requires QuantAt(s.quants, Untracked(item, loc)).reserved == 0.0
      && QuantAt(s.quants, Untracked(item, loc)).quantity != counted
    ensures var q := QuantAt(s.quants, Untracked(item, loc));
      var m := AdjustmentMove(tag, item, loc, loss, counted - q.quantity);
      var staged := Staged(counted, counted - q.quantity);
      && AskedAgain(Create(s, id, m), item, loc, staged) == Ok(Adjust(staged.diff))
      && AskedAgain(Opened(s, id, m), item, loc, staged) == Ok(Adjust(staged.diff))
      && AskedAgain(Prepared(s, id, m, CandidatesFor(Untracked(item, loc), m)), item, loc, staged) ==
         (if counted < q.quantity then Err(CountReserved) else Ok(Adjust(staged.diff)))
  {
    var d := Untracked(item, loc);
    var diff := counted - QuantAt(s.quants, d).quantity;
    var m := AdjustmentMove(tag, item, loc, loss, diff);
    hide Prepared, Create, Confirm, Sound, LinesOf, MoveQty, Fresh, SameOrder;
    Opens(s, id, d, loss, m);
    CreateKeepsQuants(s, id, m);
    PreparesOk(s, id, child, d, loss, m);
    var _ := QuantAt(Prepared(s, id, m, CandidatesFor(d, m)).value.quants, d);
  }

  /** What the gate answers a retry that finds the stores as an interrupted application left them. */
  function AskedAgain(r: Outcome<Estate>, item: Item, loc: Loc, staged: Staging): Outcome<Decision> {
    match r
    case Err(e) => Err(e)
    case Ok(s) => Gate(s.locs, loc, QuantAt(s.quants, Untracked(item, loc)), staged)
  }

  function Opened(s: Estate, id: Id, m: NewMove): Outcome<Estate> {
    match Create(s, id, m)
    case Err(e) => Err(e)
    case Ok(c) => Confirm(c, id)
  }

  lemma CreateKeepsQuants(s: Estate, id: Id, m: NewMove)
    ensures Create(s, id, m).Ok? ==> Create(s, id, m).value.quants == s.quants
  {
  }
}
