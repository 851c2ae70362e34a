/** Voucher doors over the engine. A door walks its lines, mints or resumes the move each line maps
    to, drives it verb by verb and then closes the voucher. Every verb is its own transaction: a
    crash may come between any two, other activity may come between any two, and a retry starts the
    walk over, finding its place by the moves' names. */
module Doors {
  import opened Common
  import opened StockTypes
  import opened Valuation
  import opened ValuationLaws
  import opened Reservation
  import opened Engine
  import opened Invariants
  import opened Soundness
  import opened Runs
  import opened Frames
  import opened WholeMoves

  /** One voucher leg: the move of each line, or none for a line that moves nothing. A strict door
      refuses a line not reserved whole; a recording one writes what each line carried out. */
  datatype Job = Job(lines: seq<Option<NewMove>>, strict: bool, records: bool, guard: Guard, after: Option<nat>)

  /** What a call tests before it mints anything: nothing, or that the source bin of every line, or of
      every line not landed yet, still holds the line's quantity. */
  datatype Guard = Unguarded | EveryLine | OpenLines

  datatype Call =
    | Idle
    | AtLine(line: nat)
    | Drive(line: nat, mv: Id)
    | Releasing(line: nat, mv: Id)
    | Finishing(line: nat, mv: Id)
    | Recording(line: nat, mv: Id, worth: real)

  /** The stored estate, and per door where its one call stands, whether its voucher is closed and
      what it recorded per line. */
  datatype World = World(s: Estate, calls: seq<Call>, closed: seq<bool>, recorded: seq<map<nat, real>>)

  /** A call that reverses a voucher reads whether the original's post is on record. */
  datatype Event =
    | Begin(door: nat, onRecord: bool)
    | Crash(door: nat)
    | Advance(door: nat, unseen: Id, cands: seq<Dims>)
    | Other(c: Cmd)

  predicate NamedMove(moves: map<Id, Move>, m: Id, name: Name) { m in moves && moves[m].name == name }

  ghost function MoveNamed(moves: map<Id, Move>, name: Name): Option<Id> {
    if exists m :: NamedMove(moves, m, name) then var m :| NamedMove(moves, m, name); Some(m) else None
  }

  // ---- before the first line ----------------------------------------------------------

  /** The source bin holds the line's quantity. */
  predicate Stocked(s: Estate, nm: NewMove) {
    var key := KeyOf(nm.item, LocAt(s.locs, nm.src));
    key.Some? ==> nm.demand <= BinAt(s.books.bins, key.value).qty
  }

  ghost predicate Landed(moves: map<Id, Move>, line: Option<NewMove>) {
    line.Some? ==> exists m :: NamedMove(moves, m, line.value.name) && moves[m].state == Done
  }

  /** The lines a call's guard tests. */
  ghost predicate Tested(moves: map<Id, Move>, job: Job, i: nat)
    requires i < |job.lines|
  {
    job.lines[i].Some? && (job.guard == EveryLine || (job.guard == OpenLines && !Landed(moves, job.lines[i])))
  }

  /** The guard lets a call in. */
  ghost predicate Admits(s: Estate, job: Job) {
    forall i: nat {:trigger Tested(s.moves, job, i)} :: i < |job.lines| && Tested(s.moves, job, i) ==>
      Stocked(s, job.lines[i].value)
  }

  /** The voucher a door reverses is closed. */
  predicate AfterClosed(job: Job, closed: seq<bool>) {
    job.after.Some? ==> job.after.value < |closed| && closed[job.after.value]
  }

  // ---- what the lines carried -----------------------------------------------------------

  function CarriedW(m: Id): Row -> real { (r: Row) => if r.voucher == StockEntry(m) then -r.diff else 0.0 }

  /** The negated sum of the value differences under a move's voucher. */
  function CarriedOut(rows: seq<Row>, m: Id): real { Sum(rows, CarriedW(m)) }

  ghost function LineCarried(s: Estate, line: Option<NewMove>): real {
    match line
    case None => 0.0
    case Some(nm) =>
      var found := MoveNamed(s.moves, nm.name);
      if found.None? then 0.0 else CarriedOut(s.books.rows, found.value)
  }

  ghost function LineCarriedW(s: Estate): Option<NewMove> -> real { (line: Option<NewMove>) => LineCarried(s, line) }

  /** What the first `n` lines carried out of the bins. */
  ghost function CarriedTo(s: Estate, job: Job, n: nat): real
    requires n <= |job.lines|
  {
    Sum(job.lines[..n], LineCarriedW(s))
  }

  /** The header's cost column holds no negative total. */
  ghost predicate HeaderTakes(s: Estate, job: Job) { job.records ==> CarriedTo(s, job, |job.lines|) >= 0.0 }

  /** The step off the last line closes the voucher, unless the header refuses its total. */
  ghost predicate Closes(s: Estate, job: Job, call: Call) { call == AtLine(|job.lines|) && HeaderTakes(s, job) }

  // ---- one step of a call -----------------------------------------------------------

  /** The engine verb a call issues next, if any. */
  ghost function CmdOf(s: Estate, job: Job, call: Call, unseen: Id, cands: seq<Dims>): Option<Cmd> {
    match call
    case AtLine(i) =>
      if i < |job.lines| && job.lines[i].Some? && MoveNamed(s.moves, job.lines[i].value.name).None?
      then Some(CreateCmd(unseen, job.lines[i].value)) else None
    case Drive(_, m) =>
      if m !in s.moves then None
      else if s.moves[m].state == Draft then Some(ConfirmCmd(m))
      else if s.moves[m].state == Confirmed || s.moves[m].state == PartiallyAvailable then Some(AssignCmd(m, cands))
      else None
    case Releasing(_, m) => Some(UnreserveCmd(m))
    case Finishing(_, m) => Some(FinishCmd(m, Never, unseen, []))
    case _ => None
  }

  /** The row's cost column holds no negative amount: such a record is refused and the call with it. */
  predicate RowTakes(call: Call) { call.Recording? && call.worth >= 0.0 }

  function Decide(job: Job, i: nat, m: Id, st: MoveState): Call {
    if job.strict && st != Assigned then Releasing(i, m) else Finishing(i, m)
  }

  /** Where the call stands after that verb. A refused verb is the call's error return. */
  ghost function NextCall(s: Estate, job: Job, call: Call, unseen: Id, done: Outcome<Estate>): Call {
    match call
    case Idle => Idle
    case AtLine(i) =>
      if i >= |job.lines| then Idle
      else if job.lines[i].None? then AtLine(i + 1)
      else (match MoveNamed(s.moves, job.lines[i].value.name)
            case None => if done.Ok? then Drive(i, unseen) else Idle
            case Some(m) =>
              if s.moves[m].state == Done then AtLine(i + 1)
              else if s.moves[m].state == Cancelled then Idle
              else Drive(i, m))
    case Drive(i, m) =>
      if m !in s.moves then Idle
      else if s.moves[m].state == Draft then (if done.Ok? then call else Idle)
      else if s.moves[m].state == Confirmed || s.moves[m].state == PartiallyAvailable then
        (if done.Ok? && m in done.value.moves then Decide(job, i, m, done.value.moves[m].state) else Idle)
      else Decide(job, i, m, s.moves[m].state)
    case Releasing(_, _) => Idle
    case Finishing(i, m) =>
      if done.Err? || m !in s.moves then Idle else if job.records then Recording(i, m, Worth(s, m)) else AtLine(i + 1)
    case Recording(i, _, _) => if RowTakes(call) then AtLine(i + 1) else Idle
  }

  ghost function StepWorld(jobs: seq<Job>, w: World, e: Event): (w': World)
    requires |w.calls| == |w.closed| == |w.recorded| == |jobs|
    ensures |w'.calls| == |w'.closed| == |w'.recorded| == |jobs|
  {
    match e
    case Other(c) => w.(s := Step(w.s, c))
    case Begin(j, onRecord) =>
      if j < |jobs| && w.calls[j] == Idle && !w.closed[j] && Admits(w.s, jobs[j])
        && AfterClosed(jobs[j], w.closed) && (jobs[j].after.Some? ==> onRecord)
      then w.(calls := w.calls[j := AtLine(0)]) else w
    case Crash(j) => if j < |jobs| then w.(calls := w.calls[j := Idle]) else w
    case Advance(j, unseen, cands) =>
      if j >= |jobs| then w else
      var cmd := CmdOf(w.s, jobs[j], w.calls[j], unseen, cands);
      var done := if cmd.Some? then Exec(w.s, cmd.value) else Ok(w.s);
      World(
        if cmd.Some? then Step(w.s, cmd.value) else w.s,
        w.calls[j := NextCall(w.s, jobs[j], w.calls[j], unseen, done)],
        if Closes(w.s, jobs[j], w.calls[j]) then w.closed[j := true] else w.closed,
        if RowTakes(w.calls[j]) then w.recorded[j := w.recorded[j][w.calls[j].line := w.calls[j].worth]]
          else w.recorded)
  }

  // ---- what the doors and everybody else may do -----------------------------------------

  predicate Leg(jobs: seq<Job>, j: nat, i: nat) { j < |jobs| && i < |jobs[j].lines| && jobs[j].lines[i].Some? }

  function MoveOf(jobs: seq<Job>, j: nat, i: nat): NewMove
    requires Leg(jobs, j, i)
  {
    jobs[j].lines[i].value
  }

  /** Names are one per voucher, leg and line; a door that does not insist on a whole reservation
      draws from outside. */
  ghost predicate JobsOk(locs: map<Loc, Location>, jobs: seq<Job>) {
    && (forall j: nat, i: nat {:trigger Leg(jobs, j, i)} :: Leg(jobs, j, i) ==>
          && !MoveOf(jobs, j, i).name.BackorderOf?
          && MoveOf(jobs, j, i).orig == []
          && (jobs[j].strict || !IsInternal(locs, MoveOf(jobs, j, i).src)))
    && (forall j: nat, i: nat, j': nat, i': nat {:trigger Leg(jobs, j, i), Leg(jobs, j', i')} ::
          Leg(jobs, j, i) && Leg(jobs, j', i') && MoveOf(jobs, j, i).name == MoveOf(jobs, j', i').name ==>
            j == j' && i == i')
  }

  ghost predicate Claims(jobs: seq<Job>, name: Name) {
    exists j: nat, i: nat :: Leg(jobs, j, i) && MoveOf(jobs, j, i).name == name
  }

  /** Other activity: any verb on any move, except minting under a voucher's names, editing the
      lines of a voucher's move, and validating a voucher's own outbound move behind the door's back. */
  ghost predicate Apart(jobs: seq<Job>, s: Estate, c: Cmd) {
    && (c.ShrinkCmd? ==> forall m :: m in s.moves && Edits(s, c, m) ==> !Claims(jobs, s.moves[m].name))
    && (c.CreateCmd? ==> !Claims(jobs, c.m.name))
    && (c.FinishCmd? && c.id in s.moves && Claims(jobs, s.moves[c.id].name) ==> !IsInternal(s.locs, s.moves[c.id].src))
  }

  ghost predicate EventOk(jobs: seq<Job>, w: World, e: Event)
    requires |w.calls| == |jobs|
  {
    match e
    case Other(c) => Contract(w.s, c) && Apart(jobs, w.s, c)
    case Advance(j, unseen, cands) =>
      Fresh(w.s.moves, unseen)
        && (j < |jobs| ==> var cmd := CmdOf(w.s, jobs[j], w.calls[j], unseen, cands); cmd.Some? ==>
        Contract(w.s, cmd.value))
    case _ => true
  }

  function NewWorld(locs: map<Loc, Location>, jobs: seq<Job>): World {
    World(EmptyEstate(locs), seq(|jobs|, i => Idle), seq(|jobs|, i => false), seq(|jobs|, i => map[]))
  }

  ghost function RunWorld(locs: map<Loc, Location>, jobs: seq<Job>, es: seq<Event>): (w: World)
    ensures |w.calls| == |w.closed| == |w.recorded| == |jobs|
  {
    if es == [] then NewWorld(locs, jobs) else StepWorld(jobs, RunWorld(locs, jobs, es[..|es| - 1]), es[|es| - 1])
  }

  ghost predicate LegalEvents(locs: map<Loc, Location>, jobs: seq<Job>, es: seq<Event>) {
    es == [] ||
    (var n := |es| - 1;
     && LegalEvents(locs, jobs, es[..n])
     && EventOk(jobs, RunWorld(locs, jobs, es[..n]), es[n]))
  }

  // ---- the invariant -------------------------------------------------------------------

  /** At most one move maps to a line; it is the line's move, its own lines are as the engine wrote
      them, and it is done only with the line's whole quantity. */
  ghost predicate LineInv(s: Estate, nm: NewMove) {
    && (forall m :: NamedMove(s.moves, m, nm.name) ==> LineMoveOk(s, nm, m))
    && (forall m, m' :: NamedMove(s.moves, m, nm.name) && NamedMove(s.moves, m', nm.name) ==> m == m')
  }

  ghost predicate LineMoveOk(s: Estate, nm: NewMove, m: Id)
    requires m in s.moves
  {
    SameOrder(DraftOf(nm), s.moves[m]) && (s.moves[m].state == Done ==> s.moves[m].quantity == nm.demand) && Whole(s, m)
  }

  ghost predicate LandedTo(moves: map<Id, Move>, job: Job, n: nat) {
    n <= |job.lines| && forall i :: 0 <= i < n ==> Landed(moves, job.lines[i])
  }

  /** The ledger shows exactly `worth` leaving the bins under the line's done move. */
  ghost predicate ShipsFor(s: Estate, nm: NewMove, worth: real) {
    exists m :: NamedMove(s.moves, m, nm.name) && s.moves[m].state == Done && ShippedAs(s, m, worth)
  }

  ghost predicate ShippedAs(s: Estate, m: Id, worth: real)
    requires m in s.moves
  {
    var mv := s.moves[m];
    var src, dst := LocAt(s.locs, mv.src), LocAt(s.locs, mv.dst);
    KeyOf(mv.item, dst).None? ==>
      forall k :: VoucherValue(s.books.rows, StockEntry(m), k) == LegAt(mv.item, src, dst, worth, 0.0, k)
  }

  ghost predicate CallInv(s: Estate, job: Job, call: Call) {
    match call
    case Idle => true
    case AtLine(i) => LandedTo(s.moves, job, i)
    case Recording(i, m, worth) => LandedTo(s.moves, job, i + 1) && job.lines[i].Some?
      && ShipsFor(s, job.lines[i].value, worth)
    case Drive(i, m) => Driving(s, job, i, m)
    case Releasing(i, m) => Driving(s, job, i, m)
    case Finishing(i, m) => Driving(s, job, i, m) && (job.strict ==> Settling(s.moves[m].state))
  }

  ghost predicate Driving(s: Estate, job: Job, i: nat, m: Id) {
    LandedTo(s.moves, job, i) && i < |job.lines| && job.lines[i].Some? && NamedMove(s.moves, m, job.lines[i].value.name)
  }

  /** Assigned, or what an assigned move can still become. */
  predicate Settling(st: MoveState) { st == Assigned || st == Done || st == Cancelled }

  ghost predicate RecordsOk(s: Estate, job: Job, recorded: map<nat, real>) {
    forall i: nat :: i in recorded ==>
      i < |job.lines| && job.lines[i].Some? && ShipsFor(s, job.lines[i].value, recorded[i])
  }

  ghost predicate DoorInv(s: Estate, jobs: seq<Job>, j: nat, call: Call, closed: bool, recorded: map<nat, real>)
    requires j < |jobs|
  {
    && CallInv(s, jobs[j], call)
    && (closed ==> LandedTo(s.moves, jobs[j], |jobs[j].lines|))
    && RecordsOk(s, jobs[j], recorded)
  }

  ghost predicate WorldInv(locs: map<Loc, Location>, jobs: seq<Job>, w: World) {
    && |w.calls| == |w.closed| == |w.recorded| == |jobs|
    && w.s.locs == locs
    && Sound(w.s, false)
    && (forall j: nat, i: nat {:trigger Leg(jobs, j, i)} :: Leg(jobs, j, i) ==> LineInv(w.s, MoveOf(jobs, j, i)))
    && (forall j :: 0 <= j < |jobs| ==> DoorInv(w.s, jobs, j, w.calls[j], w.closed[j], w.recorded[j]))
  }
}
