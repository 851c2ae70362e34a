/** The stock-move service: the stored rows as fields, each verb one transaction that commits all
    its writes or, refused, none. */
module StockService {
  import opened Common
  import opened Rounding
  import opened StockTypes
  import opened Valuation
  import opened Reservation
  import opened Engine
  import opened EngineLoops
  import opened Soundness
  import opened CancelCascade
  import opened Runs

  datatype Assignment = Assignment(state: MoveState, reserved: real)
  datatype DoneOutcome = DoneOutcome(doneQty: real, backorder: Option<Id>, outValue: real)

  /** The verb's answer and the new state are the ones the engine function gives. */
  predicate Commits<T>(r: Outcome<T>, want: Outcome<Estate>, before: Estate, after: Estate) {
    match want
    case Ok(s) => r.Ok? && after == s
    case Err(e) => r == Err(e) && after == before
  }

  class StockService {
    const locs: map<Loc, Location>
    var moves: map<Id, Move>
    var lines: seq<Line>
    var quants: map<Dims, Quant>
    var books: Books
    var backorders: map<Id, Id>

    ghost function State(): Estate
      reads this
    {
      Estate(locs, moves, lines, quants, books, backorders)
    }

    constructor (locs: map<Loc, Location>)
      ensures this.locs == locs && State() == EmptyEstate(locs)
    {
      this.locs := locs;
      moves, lines, quants, books, backorders := map[], [], map[], Books(map[], []), map[];
    }

    method CreateMove(id: Id, m: NewMove) returns (r: Outcome<Id>)
      modifies this`moves
      ensures Commits(r, Create(old(State()), id, m), old(State()), State())
      ensures r.Ok? ==> r.value == id
    {
      if m.demand < 0.0 || m.price < 0.0 { return Err(NegativeQuantity); }
      if m.src == m.dst { return Err(SameLocation); }
      if m.src !in locs || m.dst !in locs { return Err(LocationNotFound); }
      if locs[m.src].usage == View || locs[m.dst].usage == View { return Err(ViewLocationHoldsNoStock); }
      moves := LinkAll(moves[id := DraftOf(m)], m.orig, id);
      r := Ok(id);
    }

    method ActionConfirm(id: Id) returns (r: Outcome<MoveState>)
      modifies this`moves
      ensures Commits(r, Confirm(old(State()), id), old(State()), State())
      ensures r.Ok? ==> id in moves && r.value == moves[id].state
    {
      if id !in moves { return Err(NotFound); }
      if moves[id].state != Draft { return Err(WrongMoveState); }
      var to := if ParentsDone(moves, moves[id]) then Confirmed else Waiting;
      moves := moves[id := moves[id].(state := to)];
      r := Ok(to);
    }

    /** Reserve for move `id` over rows read in the caller's transaction. */
    static method AssignRows(s: Estate, id: Id, cands: seq<Dims>) returns (r: Outcome<Estate>, total: real)
      requires id in s.moves
      ensures r == AssignCore(s, id, cands)
      ensures r.Ok? ==>
        total == (var held := MoveQty(r.value.lines, id);
                  if s.moves[id].demand < held then s.moves[id].demand else held)
    {
      var mv := s.moves[id];
      total := 0.0;
      if mv.src !in s.locs { return Err(LocationNotFound), total; }
      var already := MoveQty(s.lines, id);
      var reserved: Reserved;
      if s.locs[mv.src].usage == Internal {
        var found := ReserveCandidates(s.quants, cands, mv.demand - already, id, mv.dst, mv.state);
        reserved := found.(took := found.took + already);
      } else {
        reserved := Reserved(s.quants,
          if already < mv.demand then [DemandLine(mv, id, mv.demand - already)] else [], mv.demand);
      }
      assert reserved == Reservations(s, id, cands);
      total := if mv.demand < reserved.took then mv.demand else reserved.took;
      var to :=
        if total >= mv.demand && mv.demand > 0.0 then Assigned
        else if total > 0.0 then PartiallyAvailable else Confirmed;
      if mv.state == PartiallyAvailable && to == Confirmed { return Err(TransitionNotDeclared), total; }
      r := Ok(s.(moves := s.moves[id := mv.(state := to)], lines := StampLines(s.lines + reserved.lines, id, to),
        quants := reserved.quants));
      TookIsHeld(s, id, cands);
    }

    method ActionAssign(id: Id, cands: seq<Dims>) returns (r: Outcome<Assignment>)
      modifies this`moves, this`lines, this`quants
      ensures Commits(r, Assign(old(State()), id, cands), old(State()), State())
      ensures r.Ok? ==> id in moves && r.value.state == moves[id].state
      ensures r.Ok? ==>
        r.value.reserved == (var held := MoveQty(lines, id); if moves[id].demand < held then moves[id].demand else held)
    {
      if id !in moves { return Err(NotFound); }
      if moves[id].state != Confirmed && moves[id].state != PartiallyAvailable { return Err(WrongMoveState); }
      var done, total := AssignRows(Estate(locs, moves, lines, quants, books, backorders), id, cands);
      if done.Err? { return Err(done.error); }
      moves, lines, quants := done.value.moves, done.value.lines, done.value.quants;
      r := Ok(Assignment(moves[id].state, total));
    }

    method UnreserveMove(id: Id) returns (r: Outcome<real>)
      modifies this`lines, this`quants
      ensures Commits(r, Unreserve(old(State()), id), old(State()), State())
      ensures r.Ok? ==> r.value == Sum(old(lines), PositiveOfW(id))
    {
      if id !in moves { return Err(NotFound); }
      var zeroed, after, released := ReleaseLines(lines, quants, id);
      lines, quants := zeroed, after;
      r := Ok(released);
    }

    /** The external branch of preparing a move for a validate. */
    method MintDemand(id: Id) returns (r: Outcome<()>)
      modifies this`lines
      ensures Commits(r, MintDemandLine(old(State()), id), old(State()), State())
    {
      if id !in moves { return Err(NotFound); }
      var mv := moves[id];
      if !Live(mv.state) || mv.state == Draft { return Err(WrongMoveState); }
      if LinesOf(lines, id) == [] && !IsInternal(locs, mv.src) && mv.demand > 0.0 {
        lines := lines + [DemandLine(mv, id, mv.demand)];
      }
      r := Ok(());
    }

    /** The done write, the two stock steps and the valuation, over rows read in the transaction. */
    static method DoneRows(s: Estate, id: Id) returns (r: Outcome<Estate>, outValue: real)
      requires id in s.moves
      ensures r == DoneCore(s, id)
      ensures r.Ok? ==> outValue == Worth(s, id)
    {
      outValue := 0.0;
      var mv := s.moves[id];
      if !Ready(mv.state) { return Err(WrongMoveState), outValue; }
      var own := LinesOf(s.lines, id);
      if own == [] { return Err(MoveLinesRequired), outValue; }
      var total := TotalDone(own);
      if total.Err? { return Err(total.error), outValue; }
      if total.value <= 0.0 && mv.demand > 0.0 { return Err(MoveLinesRequired), outValue; }
      if mv.src !in s.locs || mv.dst !in s.locs { return Err(LocationNotFound), outValue; }
      var marked := StampLines(s.lines, id, Done);
      var released := ReleaseDrawn(s.quants, marked, own);
      LinesOfMembers(s.lines, id);
      assert DrawnOf(own) == DrawnAt(s.lines, id);
      var drawn := DrawLines(released, own, s.locs[mv.src].usage == Internal, s.locs[mv.dst].usage == Internal);
      if drawn.Err? { return Err(drawn.error), outValue; }
      var minted := Mint(s.books, mv, id, s.locs[mv.src], s.locs[mv.dst], total.value);
      if minted.Err? { return Err(minted.error), outValue; }
      SumLinesOf(s.lines, id, QtyOf, OfW(id));
      outValue := minted.value.outValue;
      r := Ok(s.(moves := s.moves[id := mv.(state := Done, quantity := total.value)], lines := marked,
        quants := drawn.value, books := minted.value.books));
    }

    /** The backorder split: insert the remainder, confirm it, and under `Always` reserve it. */
    static method SplitRows(s: Estate, id: Id, policy: Policy, child: Id, cands: seq<Dims>) returns (r: Outcome<Estate>)
      requires id in s.moves
      ensures r == Split(s, id, policy, child, cands)
    {
      var mv := s.moves[id];
      if mv.quantity >= mv.demand || policy == Never { return Ok(s); }
      var m := Remainder(mv, id);
      var inserted := LinkAll(s.moves[child := DraftOf(m)], m.orig, child);
      var bo := inserted[child];
      var to := if ParentsDone(inserted, bo) then Confirmed else Waiting;
      var s1 := s.(moves := inserted[child := bo.(state := to)], backorders := s.backorders[id := child]);
      if policy == Always && to == Confirmed {
        var total;
        r, total := AssignRows(s1, child, cands);
      } else {
        r := Ok(s1);
      }
    }

    method ActionDone(id: Id, policy: Policy, child: Id, cands: seq<Dims>) returns (r: Outcome<DoneOutcome>)
      modifies this`moves, this`lines, this`quants, this`books, this`backorders
      ensures Commits(r, Finish(old(State()), id, policy, child, cands), old(State()), State())
      ensures r.Ok? ==> id in old(moves) && id in moves && r.value.doneQty == Sum(LinesOf(old(lines), id), QtyOf)
      ensures r.Ok? ==>
        r.value.backorder == if r.value.doneQty < old(moves)[id].demand && policy != Never then Some(child) else None
      ensures r.Ok? ==> r.value.outValue == Worth(old(State()), id)
    {
      hide Mint, DrawAll, Recompute, Worth;
      if id !in moves { return Err(NotFound); }
      var s := Estate(locs, moves, lines, quants, books, backorders);
      var done, outValue := DoneRows(s, id);
      if done.Err? { return Err(done.error); }
      var split := SplitRows(done.value, id, policy, child, cands);
      if split.Err? { return Err(split.error); }
      var released := ReleaseChildren(split.value.moves, moves[id].dest);
      assert id in split.value.moves;
      var mv := done.value.moves[id];
      moves, lines, quants, books, backorders := released, split.value.lines, split.value.quants, split.value.books,
        split.value.backorders;
      r := Ok(DoneOutcome(mv.quantity,
        if mv.quantity < mv.demand && policy != Never then Some(child) else None, outValue));
    }

    /** Revalue a done move's destination bin for one line of a landed cost, at most once. */
    method AdjustValue(id: Id, lc: Id, line: Id, delta: real) returns (r: Outcome<()>)
      modifies this`books
      ensures Commits(r, Revalued(old(State()), id, lc, line, delta), old(State()), State())
    {
      if id !in moves { return Err(NotFound); }
      if delta == 0.0 { return Ok(()); }
      var dst := LocAt(locs, moves[id].dst);
      if dst.usage != Internal || dst.warehouse.None? { return Err(LandedCostNoValuationAccount); }
      for i := 0 to |books.rows|
        invariant forall k :: 0 <= k < i ==> books.rows[k].voucher != LandedCost(lc, line)
        invariant State() == old(State())
      {
        if books.rows[i].voucher == LandedCost(lc, line) { return Ok(()); }
      }
      var k := BinKey(moves[id].item, dst.warehouse.value);
      var bin := BinAt(books.bins, k);
      var value := bin.value + delta;
      var after := Bin(bin.qty, if bin.qty > 0.0 then Rate6(value / bin.qty) else 0.0, value);
      books := Post(books, LandedCost(lc, line), k, 0.0, 0.0, after, delta);
      r := Ok(());
    }

    /** Free, cancel and stamp one move of the cascade. */
    static method CancelRow(s: Estate, m: Id) returns (after: Estate, released: real)
      requires m in s.moves
      ensures after == CancelOne(s, m) && released == Sum(s.lines, PositiveOfW(m))
    {
      var zeroed, quants, freed := ReleaseLines(s.lines, s.quants, m);
      after := s.(moves := s.moves[m := s.moves[m].(state := Cancelled)], lines := StampLines(zeroed, m, Cancelled),
        quants := quants);
      released := freed;
    }

    /** Breadth first down the chain: every live descendant frees what it holds, cancels, and while
        it propagates hands on its own children; the visited set stops a chain that loops back. */
    method ActionCancel(id: Id) returns (r: Outcome<real>)
      modifies this`moves, this`lines, this`quants
      ensures Commits(r, Cancel(old(State()), id), old(State()), State())
      ensures r.Ok? ==> r.value == Sum(old(lines), PositiveOfW(id))
    {
      hide CancelOne, CancelAll, CancelSet, Walked, HandedOn, Reached, Members, Distinct;
      if id !in moves { return Err(NotFound); }
      if !Live(moves[id].state) { return Err(WrongMoveState); }
      var s0 := Estate(locs, moves, lines, quants, books, backorders);
      CancelNone(s0);
      CancelOneMore(s0, {}, id);
      var s, released := CancelRow(s0, id);
      ghost var gone := {id};
      assert {} + {id} == gone;
      WalkStarts(s0.moves, id);
      var visited := {id};
      var frontier := if moves[id].propagate then moves[id].dest else [];
      assert visited == {id};
      while frontier != []
        invariant s == CancelAll(s0, gone) && gone <= visited
        invariant Walked(s0.moves, id, gone, visited, frontier)
        invariant forall v :: v in visited && v in s0.moves && Live(s0.moves[v].state) ==> v in gone
        decreases |NamedChildren(s0.moves) - visited|, |frontier|
      {
        ghost var before := visited;
        var generation, seen := Retain(frontier, visited);
        visited := seen;
        NextGeneration(s0.moves, id, gone, before, frontier, generation);
        if generation == [] {
          frontier := [];
        } else {
          s, gone, frontier := CancelGeneration(s0, id, s, generation, visited, gone, before);
        }
      }
      WalkEnds(s0.moves, id, gone, visited);
      CancelAllKeeps(s0, gone);
      moves, lines, quants := s.moves, s.lines, s.quants;
      r := Ok(released);
    }

    /** One generation: cancel its live moves and gather the children they hand on. */
    static method CancelGeneration(ghost s0: Estate, ghost root: Id, s: Estate, generation: seq<Id>,
        ghost visited: set<Id>,
        ghost gone: set<Id>, ghost before: set<Id>) returns (after: Estate, ghost gone': set<Id>, frontier: seq<Id>)
      requires s == CancelAll(s0, gone) && gone <= before
      requires visited == before + Members(generation) && Distinct(generation)
        && forall f :: f in generation ==> f !in before
      requires Walked(s0.moves, root, gone, visited, []) && forall f :: f in generation ==> HandedOn(s0.moves, gone, f)
      requires forall v :: v in before && v in s0.moves && Live(s0.moves[v].state) ==> v in gone
      ensures after == CancelAll(s0, gone') && gone' <= visited
      ensures Walked(s0.moves, root, gone', visited, frontier)
      ensures forall v :: v in visited && v in s0.moves && Live(s0.moves[v].state) ==> v in gone'
    {
      hide CancelOne, CancelAll, Walked, HandedOn, Reached;
      after, gone', frontier := s, gone, [];
      for i := 0 to |generation|
        invariant after == CancelAll(s0, gone')
          && gone' == gone + (set f | f in generation[..i] && f in s0.moves && Live(s0.moves[f].state))
        invariant Walked(s0.moves, root, gone', visited, frontier)
      {
        var f := generation[i];
        assert generation[..i + 1] == generation[..i] + [f];
        assert f in generation && f !in gone';
        OutsideCancel(s0, gone', f);
        if f in after.moves && Live(after.moves[f].state) {
          var child := after.moves[f];
          assert child == s0.moves[f];
          HandedOnGrows(s0.moves, gone, gone', f);
          WalkExtends(s0.moves, root, gone', visited, frontier, f);
          CancelOneMore(s0, gone', f);
          var freed;
          after, freed := CancelRow(after, f);
          gone' := gone' + {f};
          frontier := frontier + (if child.propagate then child.dest else []);
        }
      }
      assert generation[..|generation|] == generation;
    }
  }

  predicate Distinct<T(==)>(xs: seq<T>) { forall i, j :: 0 <= i < j < |xs| ==> xs[i] != xs[j] }

  /** Keep the ids not visited before, each once, and mark them visited. */
  method Retain(ids: seq<Id>, visited: set<Id>) returns (kept: seq<Id>, seen: set<Id>)
    ensures Members(kept) == Members(ids) - visited && Distinct(kept)
    ensures seen == visited + Members(ids)
  {
    kept, seen := [], visited;
    for i := 0 to |ids|
      invariant Members(kept) == Members(ids[..i]) - visited && Distinct(kept)
      invariant seen == visited + Members(ids[..i])
    {
      assert ids[..i + 1] == ids[..i] + [ids[i]];
      if ids[i] !in seen {
        assert ids[i] !in Members(kept);
        assert Members(kept + [ids[i]]) == Members(kept) + {ids[i]};
        kept := kept + [ids[i]];
      }
      seen := seen + {ids[i]};
    }
    assert ids[..|ids|] == ids;
  }

  /** Every id some move hands on: a cascade cannot visit more. */
  ghost function NamedChildren(moves: map<Id, Move>): set<Id> { set m, d | m in moves && d in moves[m].dest :: d }

  /** What retaining the unvisited of a frontier gives: children handed on, fewer left to visit, and
      a walk whose frontier is taken over by the visited set. */
  lemma NextGeneration(moves: map<Id, Move>, root: Id, gone: set<Id>, before: set<Id>, frontier: seq<Id>,
      generation: seq<Id>)
    requires Walked(moves, root, gone, before, frontier)
    requires Members(generation) == Members(frontier) - before
    ensures var visited := before + Members(frontier);
      && visited == before + Members(generation)
      && Walked(moves, root, gone, visited, [])
      && (forall f :: f in generation ==> f !in before && HandedOn(moves, gone, f))
      && (generation == [] ==> visited == before)
      && (generation != [] ==> |NamedChildren(moves) - visited| < |NamedChildren(moves) - before|)
  {
    var visited := before + Members(frontier);
    forall f | f in generation ensures f in frontier && f !in before { assert f in Members(generation); }
    if generation != [] {
      var f := generation[0];
      assert HandedOn(moves, gone, f);
      var p :| p in gone && p in moves && moves[p].propagate && f in moves[p].dest;
      assert f in NamedChildren(moves) && f in Members(frontier);
      SetShrinks(NamedChildren(moves) - visited, NamedChildren(moves) - before);
    } else {
      forall f | f in frontier ensures f in before { assert f in Members(frontier); }
    }
  }
}
