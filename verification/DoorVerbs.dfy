/** What a door's verb does to its lines: every other line stays as it was, and the verb's own line keeps
    its account, what it still needs against what its shelf has to give. */
module DoorVerbs {
  import opened Common
  import opened StockTypes
  import opened Reservation
  import opened Engine
  import opened Invariants
  import opened Soundness
  import opened SoundDone
  import opened Runs
  import opened Guarantees
  import opened Frames
  import opened VerbContracts
  import opened Coverage
  import opened Doors
  import opened DoorSoundness
  import opened DoorWalks

  // ---- lines that can still land -------------------------------------------------------------

  /** An order the engine creates a move for. */
  predicate Acceptable(locs: map<Loc, Location>, nm: NewMove) {
    && nm.price >= 0.0 && nm.src != nm.dst && nm.src in locs && nm.dst in locs
    && locs[nm.src].usage != View && locs[nm.dst].usage != View
  }

  /** A verb is left that brings the move on: it is not cancelled, not waiting, and not assigned with
      its lines emptied, from where no assign is offered again and every done is refused. */
  predicate Drivable(s: Estate, m: Id)
    requires m in s.moves
  {
    var st := s.moves[m].state;
    Unreserved(st) || (st == Assigned && MoveQty(s.lines, m) > 0.0)
  }

  predicate Unreserved(st: MoveState) { st == Draft || st == Confirmed || st == PartiallyAvailable }

  /** The line's move is done or drivable, or there is none and the engine would create one. */
  ghost predicate CanLand(s: Estate, nm: NewMove) {
    && (forall m :: NamedMove(s.moves, m, nm.name) ==> s.moves[m].state == Done || Drivable(s, m))
    && ((forall m :: !NamedMove(s.moves, m, nm.name)) ==> Acceptable(s.locs, nm))
  }

  ghost predicate AllCanLand(s: Estate, job: Job) {
    forall k :: 0 <= k < |job.lines| && job.lines[k].Some? ==> CanLand(s, job.lines[k].value)
  }

  /** Every line that moves stock moves some. */
  predicate Positive(job: Job) {
    forall k :: 0 <= k < |job.lines| && job.lines[k].Some? ==> job.lines[k].value.demand > 0.0
  }

  // ---- what the lines still need --------------------------------------------------------------

  /** What the line's move, done or not, still has to reserve. */
  ghost function Need(s: Estate, nm: NewMove): real {
    match MoveNamed(s.moves, nm.name)
    case None => nm.demand
    case Some(m) => if m in s.moves && s.moves[m].state != Done then nm.demand - MoveQty(s.lines, m) else 0.0
  }

  ghost function NeedW(s: Estate, item: Item, loc: Loc): Option<NewMove> -> real {
    (line: Option<NewMove>) =>
      if line.Some? && line.value.item == item && line.value.src == loc then Need(s, line.value) else 0.0
  }

  ghost function NeedOf(s: Estate, job: Job, item: Item, loc: Loc): real { Sum(job.lines, NeedW(s, item, loc)) }

  /** At every stock location the free stock covers what all lines still need there. */
  ghost predicate Covered(s: Estate, job: Job) {
    forall item, loc :: IsInternal(s.locs, loc) ==> NeedOf(s, job, item, loc) <= FreeAt(s.quants, item, loc)
  }

  /** What no line holds does: the least any way of serving the door asks for. */
  ghost predicate Coverable(s: Estate, job: Job) {
    forall item, loc :: IsInternal(s.locs, loc) ==> NeedOf(s, job, item, loc) <= Unheld(s, item, loc)
  }

  // ---- what the door's verbs leave alone -------------------------------------------------------

  /** The move a door verb acts on. */
  function Actor(c: Cmd): Id {
    match c
    case CreateCmd(id, _) => id
    case ConfirmCmd(id) => id
    case AssignCmd(id, _) => id
    case UnreserveCmd(id) => id
    case DemandLineCmd(id) => id
    case FinishCmd(id, _, _, _) => id
    case CancelCmd(id) => id
    case RevalueCmd(id, _, _, _) => id
    case ShrinkCmd(_, _) => 0
  }

  lemma FinishLeavesOthers(s: Estate, id: Id, child: Id, other: Id)
    requires Sound(s, false) && Finish(s, id, Never, child, []).Ok? && other != id && other in s.moves
    requires s.moves[other].state != Waiting
    ensures var s' := Finish(s, id, Never, child, []).value;
      other in s'.moves && s'.moves[other] == s.moves[other] && MoveQty(s'.lines, other) == MoveQty(s.lines, other)
  {
    assert DoneCore(s, id).Ok?;
    DoneCoreParts(s, id, false);
    NeverFinishes(s, id, child);
    MoveQtyStamp(s.lines, id, Done, other);
    hide DoneCore, Sound;
  }

  lemma AssignLeavesOthers(s: Estate, id: Id, cands: seq<Dims>, other: Id)
    requires Sound(s, false) && Assign(s, id, cands).Ok? && CandidatesOf(cands, s.moves[id].item, s.moves[id].src)
    requires other != id && other in s.moves
    ensures var s' := Assign(s, id, cands).value;
      other in s'.moves && s'.moves[other] == s.moves[other] && MoveQty(s'.lines, other) == MoveQty(s.lines, other)
  {
    AssignHeld(s, id, cands, false);
    hide Sound, Assign, Reservations;
    var s' := Assign(s, id, cands).value;
    var more := Reservations(s, id, cands).lines;
    MoveQtyAppend(s.lines, more, id, other);
    MoveQtyStamp(s.lines + more, id, s'.moves[id].state, other);
  }

  lemma CreateLeavesOthers(s: Estate, id: Id, nm: NewMove, other: Id)
    requires Create(s, id, nm).Ok? && nm.orig == [] && other != id && other in s.moves
    ensures var s' := Create(s, id, nm).value;
      other in s'.moves && s'.moves[other] == s.moves[other] && s'.lines == s.lines
  {
  }

  lemma VerbLeavesOthers(s: Estate, c: Cmd, other: Id)
    requires Sound(s, false) && DoorCmd(c) && Contract(s, c) && other != Actor(c) && other in s.moves
    requires s.moves[other].state != Waiting
    ensures var s' := Step(s, c);
      other in s'.moves && s'.moves[other] == s.moves[other] && MoveQty(s'.lines, other) == MoveQty(s.lines, other)
  {
    hide Sound, Finish, Assign, Create;
    if Exec(s, c).Ok? {
      match c
      case CreateCmd(id, nm) => CreateLeavesOthers(s, id, nm, other);
      case AssignCmd(id, cands) => AssignKnown(s, id, cands); AssignLeavesOthers(s, id, cands, other);
      case FinishCmd(id, policy, child, cands) => FinishLeavesOthers(s, id, child, other);
      case UnreserveCmd(id) => MoveQtyZero(s.lines, id, other);
      case ConfirmCmd(id) =>
    }
  }

  lemma AssignKnown(s: Estate, id: Id, cands: seq<Dims>)
    ensures Assign(s, id, cands).Ok? ==> id in s.moves
  {
  }

  /** A line's move has no parents, so it never waits. */
  lemma NeverWaits(locs: map<Loc, Location>, jobs: seq<Job>, w: World, j: nat, k: nat, m: Id)
    requires WorldInv(locs, jobs, w) && JobsOk(locs, jobs) && Leg(jobs, j, k)
    requires NamedMove(w.s.moves, m, MoveOf(jobs, j, k).name)
    ensures w.s.moves[m].state != Waiting && w.s.moves[m].orig == []
    ensures w.s.moves[m].demand == MoveOf(jobs, j, k).demand && w.s.moves[m].item == MoveOf(jobs, j, k).item
    ensures w.s.moves[m].src == MoveOf(jobs, j, k).src && w.s.moves[m].dst == MoveOf(jobs, j, k).dst
  {
    assert LineInv(w.s, MoveOf(jobs, j, k));
    assert InOrder(w.s.moves, m, None);
    hide Triangle, Mirrored, Shape, Posted, Splits;
  }

  /** The line has the same moves, as they were. */
  ghost predicate LineSame(s: Estate, s': Estate, nm: NewMove) {
    && s'.locs == s.locs
    && (forall m :: NamedMove(s'.moves, m, nm.name) <==> NamedMove(s.moves, m, nm.name))
    && forall m :: NamedMove(s.moves, m, nm.name) ==>
         m in s'.moves && s'.moves[m] == s.moves[m] && MoveQty(s'.lines, m) == MoveQty(s.lines, m)
  }

  /** The verb `c` acts on the move of line `i` of the door, or makes it. */
  ghost predicate ActsOn(jobs: seq<Job>, j: nat, i: nat, s: Estate, c: Cmd) {
    && Leg(jobs, j, i) && DoorCmd(c) && Contract(s, c)
    && if c.CreateCmd? then c.m == MoveOf(jobs, j, i) && forall m :: !NamedMove(s.moves, m, c.m.name)
       else NamedMove(s.moves, Actor(c), MoveOf(jobs, j, i).name)
  }

  lemma OtherLineSame(locs: map<Loc, Location>, jobs: seq<Job>, w: World, j: nat, i: nat, c: Cmd, k: nat)
    requires WorldInv(locs, jobs, w) && JobsOk(locs, jobs) && ActsOn(jobs, j, i, w.s, c) && Leg(jobs, j, k) && k != i
    ensures LineSame(w.s, Step(w.s, c), MoveOf(jobs, j, k))
  {
    hide Step, Sound, Exec, WorldInv, JobsOk, Leg, MoveOf, Contract, DoorCmd, MovesKept;
    var s, s', nm := w.s, Step(w.s, c), MoveOf(jobs, j, k);
    NamesDiffer(locs, jobs, j, i, k);
    SoundOf(locs, jobs, w);
    StepKeepsLocs(s, c);
    forall m | NamedMove(s.moves, m, nm.name)
      ensures NamedMove(s'.moves, m, nm.name) && s'.moves[m] == s.moves[m]
        && MoveQty(s'.lines, m) == MoveQty(s.lines, m)
    {
      NeverWaits(locs, jobs, w, j, k, m);
      ActorNamed(jobs, j, i, s, c);
      VerbLeavesOthers(s, c, m);
    }
    forall m | NamedMove(s'.moves, m, nm.name) ensures NamedMove(s.moves, m, nm.name) {
      if m in s.moves { NameKept(s, c, m); } else { CreatedName(s, c, m); }
    }
  }

  lemma NamesDiffer(locs: map<Loc, Location>, jobs: seq<Job>, j: nat, i: nat, k: nat)
    requires JobsOk(locs, jobs) && Leg(jobs, j, i) && Leg(jobs, j, k) && k != i
    ensures MoveOf(jobs, j, k).name != MoveOf(jobs, j, i).name
  {
  }

  lemma ActorNamed(jobs: seq<Job>, j: nat, i: nat, s: Estate, c: Cmd)
    requires ActsOn(jobs, j, i, s, c)
    ensures Actor(c) in s.moves ==> s.moves[Actor(c)].name == MoveOf(jobs, j, i).name
  {
  }

  lemma NameKept(s: Estate, c: Cmd, m: Id)
    requires Contract(s, c) && m in s.moves
    ensures m in Step(s, c).moves && Step(s, c).moves[m].name == s.moves[m].name
  {
    StepKeeps(s, c);
    hide Step;
    assert KeptBy(s, Step(s, c).moves, FinishedBy(c), m);
  }

  lemma SoundOf(locs: map<Loc, Location>, jobs: seq<Job>, w: World)
    requires WorldInv(locs, jobs, w)
    ensures Sound(w.s, false) && w.s.locs == locs && |w.calls| == |w.closed| == |w.recorded| == |jobs|
  {
  }

  lemma CreatedName(s: Estate, c: Cmd, m: Id)
    requires DoorCmd(c) && Contract(s, c) && m in Step(s, c).moves && m !in s.moves
    ensures c.CreateCmd? && c.id == m && Step(s, c).moves[m].name == c.m.name
  {
    DoorKeys(s, c);
  }

  lemma TheOneMove(locs: map<Loc, Location>, jobs: seq<Job>, w: World, j: nat, k: nat, m: Id)
    requires WorldInv(locs, jobs, w) && Leg(jobs, j, k) && NamedMove(w.s.moves, m, MoveOf(jobs, j, k).name)
    ensures MoveNamed(w.s.moves, MoveOf(jobs, j, k).name) == Some(m)
    ensures forall n :: NamedMove(w.s.moves, n, MoveOf(jobs, j, k).name) ==> n == m
  {
    assert LineInv(w.s, MoveOf(jobs, j, k));
    hide Sound;
  }

  lemma SameLanding(locs: map<Loc, Location>, jobs: seq<Job>, w: World, s': Estate, j: nat, k: nat)
    requires WorldInv(locs, jobs, w) && Leg(jobs, j, k) && LineSame(w.s, s', MoveOf(jobs, j, k))
    ensures CanLand(w.s, MoveOf(jobs, j, k)) <==> CanLand(s', MoveOf(jobs, j, k))
    ensures Need(s', MoveOf(jobs, j, k)) == Need(w.s, MoveOf(jobs, j, k))
  {
    hide WorldInv;
    var nm := MoveOf(jobs, j, k);
    if exists m :: NamedMove(w.s.moves, m, nm.name) {
      var m :| NamedMove(w.s.moves, m, nm.name);
      TheOneMove(locs, jobs, w, j, k, m);
      assert NamedMove(s'.moves, m, nm.name);
    }
  }

  lemma LegOf(jobs: seq<Job>, j: nat, i: nat, s: Estate, c: Cmd)
    requires ActsOn(jobs, j, i, s, c)
    ensures Leg(jobs, j, i)
  {
  }

  /** The need of a line whose move is `m`. */
  lemma NeedIs(locs: map<Loc, Location>, jobs: seq<Job>, w: World, j: nat, i: nat, m: Id)
    requires WorldInv(locs, jobs, w) && JobsOk(locs, jobs) && Leg(jobs, j, i)
    requires NamedMove(w.s.moves, m, MoveOf(jobs, j, i).name)
    ensures Need(w.s, MoveOf(jobs, j, i)) ==
      if w.s.moves[m].state == Done then 0.0 else w.s.moves[m].demand - MoveQty(w.s.lines, m)
  {
    TheOneMove(locs, jobs, w, j, i, m);
    NeverWaits(locs, jobs, w, j, i, m);
    hide WorldInv, JobsOk;
  }

  // ---- the account of a shelf: what it has to give against what the lines need -----------------------

  /** A verb on one line changes what the lines need by that line's change. */
  lemma OthersNeed(locs: map<Loc, Location>, jobs: seq<Job>, w: World, j: nat, i: nat, c: Cmd, item: Item, loc: Loc)
    requires WorldInv(locs, jobs, w) && JobsOk(locs, jobs) && ActsOn(jobs, j, i, w.s, c)
    ensures Leg(jobs, j, i)
    ensures var s, s', line := w.s, Step(w.s, c), jobs[j].lines[i];
      NeedOf(s', jobs[j], item, loc) ==
        NeedOf(s, jobs[j], item, loc) - NeedW(s, item, loc)(line) + NeedW(s', item, loc)(line)
  {
    hide WorldInv, JobsOk, ActsOn, Step, Need, LineSame;
    LegOf(jobs, j, i, w.s, c);
    var s, s', lines := w.s, Step(w.s, c), jobs[j].lines;
    forall k: nat | k < |lines| && lines[k].Some? && k != i
      ensures Need(s', lines[k].value) == Need(s, lines[k].value)
    {
      assert Leg(jobs, j, k);
      OtherLineSame(locs, jobs, w, j, i, c, k);
      SameLanding(locs, jobs, w, s', j, k);
    }
    SumBut(lines, i, NeedW(s, item, loc), NeedW(s', item, loc));
  }

  lemma AllOthersLand(locs: map<Loc, Location>, jobs: seq<Job>, w: World, j: nat, i: nat, c: Cmd)
    requires WorldInv(locs, jobs, w) && JobsOk(locs, jobs) && ActsOn(jobs, j, i, w.s, c) && AllCanLand(w.s, jobs[j])
    requires Leg(jobs, j, i) && CanLand(Step(w.s, c), MoveOf(jobs, j, i))
    ensures AllCanLand(Step(w.s, c), jobs[j])
  {
    hide WorldInv, JobsOk, ActsOn, Step, CanLand, LineSame;
    var lines, s' := jobs[j].lines, Step(w.s, c);
    forall k: nat | k < |lines| && lines[k].Some? && k != i ensures CanLand(s', lines[k].value) {
      assert Leg(jobs, j, k);
      OtherLineSame(locs, jobs, w, j, i, c, k);
      SameLanding(locs, jobs, w, s', j, k);
    }
  }

  /** The line's move takes its goods out of stock. */
  predicate GoesOut(locs: map<Loc, Location>, job: Job) {
    forall k :: 0 <= k < |job.lines| && job.lines[k].Some? ==> !IsInternal(locs, job.lines[k].value.dst)
  }

  /** What a shelf has beyond what the line needs of it never grows by the line's verb. */
  lemma OwnAccount(locs: map<Loc, Location>, jobs: seq<Job>, w: World, w': World, j: nat, i: nat, c: Cmd,
      item: Item, loc: Loc)
    requires WorldInv(locs, jobs, w) && WorldInv(locs, jobs, w') && JobsOk(locs, jobs) && ActsOn(jobs, j, i, w.s, c)
    requires w'.s == Step(w.s, c) && IsInternal(locs, loc) && Leg(jobs, j, i)
    requires !IsInternal(locs, MoveOf(jobs, j, i).dst)
    ensures Unheld(w'.s, item, loc) - NeedW(w'.s, item, loc)(jobs[j].lines[i]) <=
            Unheld(w.s, item, loc) - NeedW(w.s, item, loc)(jobs[j].lines[i])
  {
    hide WorldInv, JobsOk, Sound, Step, Exec, Unheld, Need, MoveQty;
    if Exec(w.s, c).Ok? {
      match c
      case CreateCmd(x, _) => CreateAccount(locs, jobs, w, w', j, i, x, item, loc);
      case ConfirmCmd(m) => ConfirmAccount(locs, jobs, w, w', j, i, m, item, loc);
      case AssignCmd(m, cands) => AssignAccount(locs, jobs, w, w', j, i, m, cands, item, loc);
      case UnreserveCmd(m) => UnreserveAccount(locs, jobs, w, w', j, i, m, item, loc);
      case FinishCmd(m, policy, x, cands) => FinishAccount(locs, jobs, w, w', j, i, m, x, item, loc);
    } else {
      RefusedStays(w.s, c);
    }
  }

  lemma RefusedStays(s: Estate, c: Cmd)
    requires Exec(s, c).Err?
    ensures Step(s, c) == s
  {
    hide Exec;
  }

  lemma CreateAccount(locs: map<Loc, Location>, jobs: seq<Job>, w: World, w': World, j: nat, i: nat, x: Id,
      item: Item, loc: Loc)
    requires WorldInv(locs, jobs, w) && WorldInv(locs, jobs, w') && JobsOk(locs, jobs)
    requires Leg(jobs, j, i) && ActsOn(jobs, j, i, w.s, CreateCmd(x, MoveOf(jobs, j, i)))
    requires Exec(w.s, CreateCmd(x, MoveOf(jobs, j, i))).Ok? && w'.s == Step(w.s, CreateCmd(x, MoveOf(jobs, j, i)))
    ensures Unheld(w'.s, item, loc) == Unheld(w.s, item, loc)
    ensures Need(w'.s, MoveOf(jobs, j, i)) == Need(w.s, MoveOf(jobs, j, i))
  {
    CreateAdds(w.s, x, MoveOf(jobs, j, i));
    SoundOf(locs, jobs, w);
    assert Shape(w.s.locs, w.s.moves, w.s.lines);
    hide WorldInv, JobsOk, Sound, Step, Exec, Unheld;
    NeedIs(locs, jobs, w', j, i, x);
    MoveQtyNone(w.s.lines, x);
    NeverWaits(locs, jobs, w', j, i, x);
  }

  lemma CreateAdds(s: Estate, x: Id, nm: NewMove)
    requires Fresh(s.moves, x) && Exec(s, CreateCmd(x, nm)).Ok?
    ensures var s' := Step(s, CreateCmd(x, nm));
      && NamedMove(s'.moves, x, nm.name) && s'.moves[x].state == Draft && s'.lines == s.lines && s'.quants == s.quants
      && s'.books == s.books
  {
  }

  lemma ConfirmAccount(locs: map<Loc, Location>, jobs: seq<Job>, w: World, w': World, j: nat, i: nat, m: Id,
      item: Item, loc: Loc)
    requires WorldInv(locs, jobs, w) && WorldInv(locs, jobs, w') && JobsOk(locs, jobs) && Leg(jobs, j, i)
    requires NamedMove(w.s.moves, m, MoveOf(jobs, j, i).name)
    requires Exec(w.s, ConfirmCmd(m)).Ok? && w'.s == Step(w.s, ConfirmCmd(m))
    ensures Unheld(w'.s, item, loc) == Unheld(w.s, item, loc)
    ensures Need(w'.s, MoveOf(jobs, j, i)) == Need(w.s, MoveOf(jobs, j, i))
  {
    ConfirmRestates(w.s, m);
    hide WorldInv, JobsOk, Sound, Step, Exec, Unheld;
    NeedIs(locs, jobs, w, j, i, m);
    NeedIs(locs, jobs, w', j, i, m);
    NeverWaits(locs, jobs, w', j, i, m);
    NeverWaits(locs, jobs, w, j, i, m);
  }

  lemma ConfirmRestates(s: Estate, m: Id)
    requires Exec(s, ConfirmCmd(m)).Ok?
    ensures var s' := Step(s, ConfirmCmd(m));
      && m in s.moves && s.moves[m].state == Draft && m in s'.moves && s'.moves[m].state != Done
      && s'.moves == s.moves[m := s.moves[m].(state := s'.moves[m].state)]
      && s'.lines == s.lines && s'.quants == s.quants && s'.books == s.books
  {
  }

  lemma AssignAccount(locs: map<Loc, Location>, jobs: seq<Job>, w: World, w': World, j: nat, i: nat, m: Id,
      cands: seq<Dims>, item: Item, loc: Loc)
    requires WorldInv(locs, jobs, w) && WorldInv(locs, jobs, w') && JobsOk(locs, jobs) && Leg(jobs, j, i)
    requires NamedMove(w.s.moves, m, MoveOf(jobs, j, i).name) && Contract(w.s, AssignCmd(m, cands))
    requires Exec(w.s, AssignCmd(m, cands)).Ok? && w'.s == Step(w.s, AssignCmd(m, cands))
    ensures Unheld(w'.s, item, loc) - NeedW(w'.s, item, loc)(jobs[j].lines[i]) ==
            Unheld(w.s, item, loc) - NeedW(w.s, item, loc)(jobs[j].lines[i])
  {
    SoundOf(locs, jobs, w);
    AssignExec(w.s, m, cands);
    AssignRestates(w.s, m, cands);
    hide WorldInv, JobsOk, Sound, Step, Exec, Unheld, Assign, Need;
    NeedIs(locs, jobs, w, j, i, m);
    NeedIs(locs, jobs, w', j, i, m);
    NeverWaits(locs, jobs, w, j, i, m);
    AssignUnheld(w.s, m, cands, item, loc);
  }

  lemma AssignExec(s: Estate, m: Id, cands: seq<Dims>)
    requires Exec(s, AssignCmd(m, cands)).Ok? || Assign(s, m, cands).Ok?
    ensures Exec(s, AssignCmd(m, cands)) == Assign(s, m, cands) == Ok(Step(s, AssignCmd(m, cands)))
  {
    hide Assign;
  }

  lemma AssignRestates(s: Estate, m: Id, cands: seq<Dims>)
    requires Assign(s, m, cands).Ok?
    ensures var s' := Assign(s, m, cands).value;
      && m in s.moves && (s.moves[m].state == Confirmed || s.moves[m].state == PartiallyAvailable)
      && m in s'.moves && s'.moves[m].state != Done && s'.books == s.books
      && s'.moves == s.moves[m := s.moves[m].(state := s'.moves[m].state)]
  {
    hide Reservations;
  }

  lemma UnreserveAccount(locs: map<Loc, Location>, jobs: seq<Job>, w: World, w': World, j: nat, i: nat, m: Id,
      item: Item, loc: Loc)
    requires WorldInv(locs, jobs, w) && WorldInv(locs, jobs, w') && JobsOk(locs, jobs) && Leg(jobs, j, i)
    requires NamedMove(w.s.moves, m, MoveOf(jobs, j, i).name) && w'.s == Step(w.s, UnreserveCmd(m))
    ensures Unheld(w'.s, item, loc) - NeedW(w'.s, item, loc)(jobs[j].lines[i]) <=
            Unheld(w.s, item, loc) - NeedW(w.s, item, loc)(jobs[j].lines[i])
  {
    SoundOf(locs, jobs, w);
    assert w'.s == UnreserveLines(w.s, m);
    HeldWithin(locs, jobs, w, m);
    MoveQtyZero(w.s.lines, m, m);
    hide WorldInv, JobsOk, Sound, Step, Exec, Unheld, Need;
    NeedIs(locs, jobs, w, j, i, m);
    NeedIs(locs, jobs, w', j, i, m);
    NeverWaits(locs, jobs, w, j, i, m);
    UnreserveUnheld(w.s, m, item, loc);
  }

  lemma HeldWithin(locs: map<Loc, Location>, jobs: seq<Job>, w: World, m: Id)
    requires WorldInv(locs, jobs, w) && m in w.s.moves
    ensures 0.0 <= MoveQty(w.s.lines, m) <= w.s.moves[m].demand
  {
    assert MoveMirror(w.s.moves[m], IsInternal(w.s.locs, w.s.moves[m].src), MoveQty(w.s.lines, m), false);
  }

  lemma FinishAccount(locs: map<Loc, Location>, jobs: seq<Job>, w: World, w': World, j: nat, i: nat, m: Id, x: Id,
      item: Item, loc: Loc)
    requires WorldInv(locs, jobs, w) && WorldInv(locs, jobs, w') && JobsOk(locs, jobs) && Leg(jobs, j, i)
    requires NamedMove(w.s.moves, m, MoveOf(jobs, j, i).name) && IsInternal(locs, loc)
    requires Exec(w.s, FinishCmd(m, Never, x, [])).Ok? && w'.s == Step(w.s, FinishCmd(m, Never, x, []))
    requires !IsInternal(locs, MoveOf(jobs, j, i).dst)
    ensures Unheld(w'.s, item, loc) == Unheld(w.s, item, loc)
    ensures Need(w.s, MoveOf(jobs, j, i)) == 0.0 && Need(w'.s, MoveOf(jobs, j, i)) == 0.0
  {
    SoundOf(locs, jobs, w);
    SoundOf(locs, jobs, w');
    FinishExec(w.s, m, x);
    FinishTakesAll(w.s, m, x);
    DoneWholeLine(locs, jobs, w', j, i, m);
    hide WorldInv, JobsOk, Sound, Step, Exec, Unheld, Finish;
    NeedIs(locs, jobs, w, j, i, m);
    NeedIs(locs, jobs, w', j, i, m);
    NeverWaits(locs, jobs, w, j, i, m);
    FinishUnheld(w.s, m, x, item, loc);
  }

  lemma FinishExec(s: Estate, m: Id, x: Id)
    requires Exec(s, FinishCmd(m, Never, x, [])).Ok? || Finish(s, m, Never, x, []).Ok?
    ensures var c := FinishCmd(m, Never, x, []); Exec(s, c) == Finish(s, m, Never, x, []) == Ok(Step(s, c))
  {
    hide Finish;
  }

  lemma FinishTakesAll(s: Estate, m: Id, x: Id)
    requires Sound(s, false) && Finish(s, m, Never, x, []).Ok?
    ensures m in s.moves && s.moves[m].state != Done
    ensures var moves := Finish(s, m, Never, x, []).value.moves;
      m in moves && moves[m] == s.moves[m].(state := Done, quantity := MoveQty(s.lines, m))
  {
    DoneCoreParts(s, m, false);
    NeverFinishes(s, m, x);
    hide DoneCore, Sound;
  }

  lemma DoneWholeLine(locs: map<Loc, Location>, jobs: seq<Job>, w: World, j: nat, i: nat, m: Id)
    requires WorldInv(locs, jobs, w) && Leg(jobs, j, i) && NamedMove(w.s.moves, m, MoveOf(jobs, j, i).name)
    requires w.s.moves[m].state == Done
    ensures w.s.moves[m].quantity == MoveOf(jobs, j, i).demand
  {
    assert LineInv(w.s, MoveOf(jobs, j, i));
    hide Sound;
  }
}
