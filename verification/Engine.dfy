/** The move lifecycle as functions from one committed state of the estate to the next. A verb
    that fails returns its error and, its transaction rolled back, changes nothing. */
module Engine {
  import opened Common
  import opened StockTypes
  import opened Valuation
  import opened Reservation

  /** `backorders` records, per done move, the backorder its partial validation announced. */
  datatype Estate = Estate(
    locs: map<Loc, Location>, moves: map<Id, Move>, lines: seq<Line>, quants: map<Dims, Quant>,
    books: Books, backorders: map<Id, Id>)

  datatype NewMove = NewMove(
    name: Name, item: Item, demand: real, price: real, src: Loc, dst: Loc, orig: seq<Id>, dest: seq<Id>,
    isInventory: bool, forced: Option<real>, propagate: bool)

  datatype Policy = Always | Never | Delayed

  // ---- create -----------------------------------------------------------------

  function DraftOf(m: NewMove): Move {
    Move(m.name, m.item, m.demand, 0.0, m.price, m.src, m.dst, m.orig, m.dest, m.isInventory, m.forced,
      m.propagate, Draft)
  }

  function LinkParent(mv: Move, child: Id): Move { if child in mv.dest then mv else mv.(dest := mv.dest + [child]) }

  /** The reverse links: every existing parent names the child, once. */
  function LinkParents(moves: map<Id, Move>, parents: seq<Id>, child: Id): map<Id, Move> {
    map p | p in moves :: if p in parents then LinkParent(moves[p], child) else moves[p]
  }

  function Insert(moves: map<Id, Move>, id: Id, m: NewMove): map<Id, Move> {
    LinkParents(moves[id := DraftOf(m)], m.orig, id)
  }

  function Create(s: Estate, id: Id, m: NewMove): Outcome<Estate> {
    if m.demand < 0.0 || m.price < 0.0 then Err(NegativeQuantity)
    else if m.src == m.dst then Err(SameLocation)
    else if m.src !in s.locs || m.dst !in s.locs then Err(LocationNotFound)
    else if s.locs[m.src].usage == View || s.locs[m.dst].usage == View then Err(ViewLocationHoldsNoStock)
    else Ok(s.(moves := Insert(s.moves, id, m)))
  }

  // ---- confirm ----------------------------------------------------------------

  /** Parents that do not exist are not read, so only existing ones can hold a move back. */
  predicate ParentsDone(moves: map<Id, Move>, mv: Move) {
    forall p :: p in mv.orig && p in moves ==> moves[p].state == Done
  }

  function ConfirmedState(moves: map<Id, Move>, mv: Move): MoveState {
    if ParentsDone(moves, mv) then Confirmed else Waiting
  }

  function Confirm(s: Estate, id: Id): Outcome<Estate> {
    if id !in s.moves then Err(NotFound)
    else if s.moves[id].state != Draft then Err(WrongMoveState)
    else Ok(s.(moves := s.moves[id := s.moves[id].(state := ConfirmedState(s.moves, s.moves[id]))]))
  }

  // ---- assign -----------------------------------------------------------------

  function AssignedState(demand: real, reserved: real): MoveState {
    var total := if demand < reserved then demand else reserved;
    if total >= demand && demand > 0.0 then Assigned else if total > 0.0 then PartiallyAvailable else Confirmed
  }

  /** The execution line of a move from outside: its supply is always available. */
  function DemandLine(mv: Move, id: Id, qty: real): Line {
    Line(id, Dims(mv.item, mv.src, None, None, None), mv.dst, None, qty, mv.state)
  }

  /** What an assign of move `id` reserves: from the candidate quants when the source is internal,
      else the whole remaining demand as one execution line. `took` counts what was held before. */
  function Reservations(s: Estate, id: Id, cands: seq<Dims>): Reserved
    requires id in s.moves
  {
    var mv := s.moves[id];
    var already := MoveQty(s.lines, id);
    if IsInternal(s.locs, mv.src) then
      var r := Reserve(s.quants, cands, mv.demand - already, id, mv.dst, mv.state);
      r.(took := r.took + already)
    else
      Reserved(s.quants, if already < mv.demand then [DemandLine(mv, id, mv.demand - already)] else [], mv.demand)
  }

  function AssignCore(s: Estate, id: Id, cands: seq<Dims>): Outcome<Estate>
    requires id in s.moves
  {
    var mv := s.moves[id];
    if mv.src !in s.locs then Err(LocationNotFound) else
    var r := Reservations(s, id, cands);
    var to := AssignedState(mv.demand, r.took);
    // The declared transitions of a move do not lead back from partially available to confirmed.
    if mv.state == PartiallyAvailable && to == Confirmed then Err(TransitionNotDeclared) else
    Ok(s.(moves := s.moves[id := mv.(state := to)], lines := StampLines(s.lines + r.lines, id, to), quants := r.quants))
  }

  function Assign(s: Estate, id: Id, cands: seq<Dims>): Outcome<Estate> {
    if id !in s.moves then Err(NotFound)
    else if s.moves[id].state != Confirmed && s.moves[id].state != PartiallyAvailable then Err(WrongMoveState)
    else AssignCore(s, id, cands)
  }

  // ---- unreserve --------------------------------------------------------------

  /** Zero the move's lines and re-derive every counter they touched. The move's state stays. */
  function UnreserveLines(s: Estate, id: Id): Estate {
    var zeroed := ZeroLines(s.lines, id);
    s.(lines := zeroed, quants := Recompute(s.quants, zeroed, Touched(s.lines, id)))
  }

  function Unreserve(s: Estate, id: Id): Outcome<Estate> {
    if id !in s.moves then Err(NotFound) else Ok(UnreserveLines(s, id))
  }

  // ---- the external demand line of a validate ----------------------------------

  /** A validated move from outside that has no line yet gets one for its whole demand. */
  function MintDemandLine(s: Estate, id: Id): Outcome<Estate> {
    if id !in s.moves then Err(NotFound)
    else if !Live(s.moves[id].state) || s.moves[id].state == Draft then Err(WrongMoveState)
    else if LinesOf(s.lines, id) != [] || IsInternal(s.locs, s.moves[id].src) || s.moves[id].demand <= 0.0 then Ok(s)
    else Ok(s.(lines := s.lines + [DemandLine(s.moves[id], id, s.moves[id].demand)]))
  }

  // ---- done ---------------------------------------------------------------------

  /** The source dimensions whose counters the done verb recomputes. */
  function DrawnAt(lines: seq<Line>, m: Id): set<Dims> { set l | l in lines && l.mv == m && l.qty > 0.0 :: l.src }

  /** Mark the lines done, release their reservations, draw the stock, value the move. */
  function DoneCore(s: Estate, id: Id): Outcome<Estate>
    requires id in s.moves
  {
    var mv := s.moves[id];
    var own := LinesOf(s.lines, id);
    var qty := Sum(own, QtyOf);
    if !Ready(mv.state) then Err(WrongMoveState)
    else if own == [] then Err(MoveLinesRequired)
    else if exists l :: l in own && l.qty < 0.0 then Err(NegativeQuantity)
    else if qty <= 0.0 && mv.demand > 0.0 then Err(MoveLinesRequired)
    else if mv.src !in s.locs || mv.dst !in s.locs then Err(LocationNotFound)
    else
      var lines := StampLines(s.lines, id, Done);
      var released := Recompute(s.quants, lines, DrawnAt(s.lines, id));
      match DrawAll(released, own, IsInternal(s.locs, mv.src), IsInternal(s.locs, mv.dst))
      case Err(e) => Err(e)
      case Ok(quants) =>
        match Mint(s.books, mv, id, s.locs[mv.src], s.locs[mv.dst], qty)
        case Err(e) => Err(e)
        case Ok(m) => Ok(s.(moves := s.moves[id := mv.(state := Done, quantity := qty)], lines := lines,
          quants := quants, books := m.books))
  }

  /** What the done verb reports as carried out. */
  function Worth(s: Estate, m: Id): real
    requires m in s.moves
  {
    var mv := s.moves[m];
    match Mint(s.books, mv, m, LocAt(s.locs, mv.src), LocAt(s.locs, mv.dst), MoveQty(s.lines, m))
    case Ok(minted) => minted.outValue
    case Err(_) => 0.0
  }

  /** The remainder of a partly done move as fresh demand: same route, never the parent's forced value. */
  function Remainder(mv: Move, id: Id): NewMove {
    NewMove(BackorderOf(mv.name), mv.item, mv.demand - mv.quantity, mv.price, mv.src, mv.dst, [id], mv.dest,
      mv.isInventory, None, true)
  }

  /** The backorder split after move `id` was done: minted and confirmed, and under `Always`
      reserved at once. */
  function Split(s: Estate, id: Id, policy: Policy, child: Id, cands: seq<Dims>): Outcome<Estate>
    requires id in s.moves
  {
    var mv := s.moves[id];
    if mv.quantity >= mv.demand || policy == Never then Ok(s) else
    var inserted := Insert(s.moves, child, Remainder(mv, id));
    var bo := inserted[child];
    var s1 := s.(moves := inserted[child := bo.(state := ConfirmedState(inserted, bo))],
      backorders := s.backorders[id := child]);
    if policy == Always && s1.moves[child].state == Confirmed then AssignCore(s1, child, cands) else Ok(s1)
  }

  predicate Releasable(moves: map<Id, Move>, m: Id)
    requires m in moves
  {
    moves[m].state == Waiting && ParentsDone(moves, moves[m])
  }

  /** Waiting children whose existing parents are all done become confirmed. */
  function Release(moves: map<Id, Move>, children: seq<Id>): map<Id, Move> {
    map m | m in moves :: if m in children && Releasable(moves, m) then moves[m].(state := Confirmed) else moves[m]
  }

  function Finish(s: Estate, id: Id, policy: Policy, child: Id, cands: seq<Dims>): Outcome<Estate> {
    if id !in s.moves then Err(NotFound) else
    match DoneCore(s, id)
    case Err(e) => Err(e)
    case Ok(s1) =>
      match Split(s1, id, policy, child, cands)
      case Err(e) => Err(e)
      case Ok(s2) => Ok(s2.(moves := Release(s2.moves, s.moves[id].dest)))
  }

  // ---- cancel ---------------------------------------------------------------------

  /** The state and lines of a whole set of moves cancelled, their reservations freed. */
  function TouchedBy(lines: seq<Line>, ms: set<Id>): set<Dims> { set l | l in lines && l.mv in ms :: l.src }

  function CancelLine(l: Line, ms: set<Id>): Line { if l.mv in ms then l.(qty := 0.0, state := Cancelled) else l }

  function CancelLines(lines: seq<Line>, ms: set<Id>): seq<Line> {
    seq(|lines|, i requires 0 <= i < |lines| => CancelLine(lines[i], ms))
  }

  function CancelMoves(moves: map<Id, Move>, ms: set<Id>): map<Id, Move> {
    map m | m in moves :: if m in ms then moves[m].(state := Cancelled) else moves[m]
  }

  function CancelAll(s: Estate, ms: set<Id>): Estate {
    var lines := CancelLines(s.lines, ms);
    s.(moves := CancelMoves(s.moves, ms), lines := lines, quants := Recompute(s.quants, lines, TouchedBy(s.lines, ms)))
  }

  /** One hop of the cascade: `a` is live and propagates to its existing live child `b`. */
  predicate CancelHop(moves: map<Id, Move>, a: Id, b: Id) {
    a in moves && b in moves && Live(moves[a].state) && moves[a].propagate && b in moves[a].dest && Live(moves[b].state)
  }

  predicate CancelPath(moves: map<Id, Move>, path: seq<Id>, root: Id, m: Id) {
    path != [] && path[0] == root && path[|path| - 1] == m
      && forall i :: 0 <= i < |path| - 1 ==> CancelHop(moves, path[i], path[i + 1])
  }

  /** The moves a cancel of `root` reaches: the root and every live move a chain of propagating
      live moves leads to. */
  ghost predicate Reached(moves: map<Id, Move>, root: Id, m: Id) { exists path :: CancelPath(moves, path, root, m) }

  ghost function CancelSet(moves: map<Id, Move>, root: Id): set<Id> { set m | m in moves && Reached(moves, root, m) }

  ghost function Cancel(s: Estate, id: Id): Outcome<Estate> {
    if id !in s.moves then Err(NotFound)
    else if !Live(s.moves[id].state) then Err(WrongMoveState)
    else Ok(CancelAll(s, CancelSet(s.moves, id)))
  }
}
