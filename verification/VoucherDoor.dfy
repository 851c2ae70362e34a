/** A voucher's call as the doors run it: test the stock, mint or resume each line's move, drive it to
    done, add up what was carried out, and stop at the first refusal. Each method takes the steps of
    the door machine, its call moving alone, and ends where the machine stands. */
module VoucherDoor {
  import opened Common
  import opened StockTypes
  import opened Valuation
  import opened Reservation
  import opened Engine
  import opened Invariants
  import opened Soundness
  import opened Doors
  import opened DoorSoundness
  import opened DoorRuns
  import opened DoorWalks
  import opened LostRecords
  import opened DeliveryTotals
  import opened StockService

  /** The move under a name, found among the stored ones. */
  method FindNamed(moves: map<Id, Move>, name: Name) returns (found: Option<Id>)
    ensures found.Some? ==> NamedMove(moves, found.value, name)
    ensures found.None? ==> forall m :: !NamedMove(moves, m, name)
  {
    var rest := moves.Keys;
    while rest != {}
      invariant rest <= moves.Keys && forall m :: NamedMove(moves, m, name) ==> m in rest
      decreases |rest|
    {
      var m :| m in rest;
      if moves[m].name == name { return Some(m); }
      rest := rest - {m};
    }
    found := None;
  }

  /** What the quant store answers for an item and a location. */
  ghost predicate Answers(quantsAt: (Item, Loc) -> seq<Dims>) {
    forall item, loc :: CandidatesOf(quantsAt(item, loc), item, loc)
  }

  /** The door stands at a line that moves stock, over the estate `s`. */
  ghost predicate AtMove(d: Door, p: Place, s: Estate, nm: NewMove) {
    && Stands(d, p) && p.s == s && p.call.AtLine?
    && p.call.line < |d.jobs[d.j].lines| && d.jobs[d.j].lines[p.call.line] == Some(nm)
  }

  function MintedAt(i: nat, r: Outcome<Option<Id>>): Call {
    match r
    case Ok(None) => AtLine(i + 1)
    case Ok(Some(m)) => Drive(i, m)
    case Err(_) => Idle
  }

  lemma TheOneNamed(d: Door, p: Place, s: Estate, nm: NewMove, found: Option<Id>)
    requires AtMove(d, p, s, nm)
    requires if found.Some? then NamedMove(s.moves, found.value, nm.name)
      else forall m :: !NamedMove(s.moves, m, nm.name)
    ensures MoveNamed(s.moves, nm.name) == found
  {
    assert Leg(d.jobs, d.j, p.call.line);
    assert LineInv(s, MoveOf(d.jobs, d.j, p.call.line));
  }

  /** Mint or resume a line's move: none when it already landed, a refusal when it was cancelled. */
  method MintLineMove(service: StockService, nm: NewMove, unseen: Id, ghost d: Door, ghost p: Place, ghost short: Error)
      returns (r: Outcome<Option<Id>>, ghost walk: seq<Event>)
    requires AtMove(d, p, service.State(), nm) && Fresh(service.moves, unseen)
    modifies service
    ensures |walk| == 1 && Walks(d, walk, p.(s := service.State(), call := MintedAt(p.call.line, r)))
    ensures r.Err? ==> Refused(d, walk, short, r.error)
    ensures Undrawn(old(service.moves), service.moves, {unseen})
    ensures r.Ok? && r.value.Some? ==>
      NamedMove(service.moves, r.value.value, nm.name) && Live(service.moves[r.value.value].state)
    ensures r.Ok? && r.value.None? ==> Landed(service.moves, Some(nm))
    ensures r.Err? || r.value.None? || (exists m :: NamedMove(old(service.moves), m, nm.name)) ==>
      service.State() == old(service.State())
  {
    hide Stands, Walks, Fresh, Landed, Create, NextPlace, RefusalOf, Refused, Undrawn, MoveNamed, Commits;
    StandsAt(d, p);
    ghost var s, job := service.State(), d.jobs[d.j];
    walk := [Advance(d.j, unseen, [])];
    WalksOne(d, p, unseen, []);
    var found := FindNamed(service.moves, nm.name);
    TheOneNamed(d, p, s, nm, found);
    if found.Some? {
      var m := found.value;
      FoundNext(job, p, s, nm, unseen, m, short);
      match service.moves[m].state
      case Done => LandedBy(service.moves, nm, m); return Ok(None), walk;
      case Cancelled => RefusedOne(d, p, unseen, [], short, WrongMoveState); return Err(WrongMoveState), walk;
      case _ => return Ok(Some(m)), walk;
    }
    var created := service.CreateMove(unseen, nm);
    CreatedNext(job, p, s, nm, unseen, service.State(), created, short);
    if created.Err? {
      RefusedOne(d, p, unseen, [], short, created.error);
      return Err(created.error), walk;
    }
    r := Ok(Some(unseen));
  }

  lemma FoundNext(job: Job, p: Place, s: Estate, nm: NewMove, x: Id, m: Id, short: Error)
    requires p.s == s && p.call.AtLine? && p.call.line < |job.lines| && job.lines[p.call.line] == Some(nm)
    requires m in s.moves && MoveNamed(s.moves, nm.name) == Some(m)
    ensures var st := s.moves[m].state;
      && NextPlace(job, p, x, []) ==
         p.(call := if st == Done then AtLine(p.call.line + 1)
                    else if st == Cancelled then Idle else Drive(p.call.line, m))
      && (st == Cancelled ==> RefusalOf(job, p, x, [], short) == Some(WrongMoveState))
  {
    hide MoveNamed;
  }

  lemma CreatedNext(job: Job, p: Place, s: Estate, nm: NewMove, x: Id, after: Estate, r: Outcome<Id>, short: Error)
    requires p.s == s && p.call.AtLine? && p.call.line < |job.lines| && job.lines[p.call.line] == Some(nm)
    requires MoveNamed(s.moves, nm.name).None? && Fresh(s.moves, x) && Commits(r, Create(s, x, nm), s, after)
    ensures NextPlace(job, p, x, []) == p.(s := after, call := if r.Ok? then Drive(p.call.line, x) else Idle)
    ensures if r.Ok? then NamedMove(after.moves, x, nm.name) && after.moves[x].state == Draft
            else RefusalOf(job, p, x, [], short) == Some(r.error) && after == s
  {
    hide MoveNamed, Create;
    if r.Ok? { CreatedDraft(s, x, nm); }
  }

  lemma CreatedDraft(s: Estate, id: Id, nm: NewMove)
    requires Fresh(s.moves, id) && Create(s, id, nm).Ok?
    ensures var moves := Create(s, id, nm).value.moves; NamedMove(moves, id, nm.name) && moves[id].state == Draft
  {
  }

  function DrivenTo(job: Job, i: nat, m: Id, r: Outcome<MoveState>): Call {
    match r case Ok(st) => Decide(job, i, m, st) case Err(_) => Idle
  }

  /** A call drives a move whose quants the store answers with `cands`; `x` was never drawn. */
  ghost predicate Driven(d: Door, p: Place, s: Estate, m: Id, x: Id, cands: seq<Dims>) {
    && Stands(d, p) && p.s == s && p.call.Drive? && p.call.mv == m && m in s.moves
    && Fresh(s.moves, x) && CandidatesOf(cands, s.moves[m].item, s.moves[m].src)
  }

  lemma DrivenBy(d: Door, p: Place, s: Estate, m: Id, x: Id, quantsAt: (Item, Loc) -> seq<Dims>)
    requires Answers(quantsAt) && Stands(d, p) && p.s == s && Fresh(s.moves, x) && p.call.Drive? && p.call.mv == m
    ensures d.j < |d.jobs| && m in s.moves && Driven(d, p, s, m, x, quantsAt(s.moves[m].item, s.moves[m].src))
  {
    OwnMove(d, p);
  }

  /** Confirming a draft succeeds and leaves the call driving it. */
  lemma ConfirmPlace(d: Door, p: Place, s: Estate, m: Id, x: Id, cands: seq<Dims>, after: Estate, r: Outcome<MoveState>)
    requires Driven(d, p, s, m, x, cands) && s.moves[m].state == Draft && Commits(r, Confirm(s, m), s, after)
    ensures Undrawn(s.moves, after.moves, {})
    ensures Walks(d, [Advance(d.j, x, cands)], p.(s := after))
    ensures Driven(After(d, [Advance(d.j, x, cands)]), p.(s := after), after, m, x, cands)
      && after.moves[m].state != Draft
  {
    WalksOne(d, p, x, cands);
    var q := NextPlace(d.jobs[d.j], p, x, cands);
    assert q == p.(s := after) by { hide Stands, Walks, Fresh, Undrawn; }
    hide Stands, Undrawn, NextPlace, CandidatesOf;
    FreshAfter(s.moves, after.moves, {}, x);
  }

  lemma FreshAfter(before: map<Id, Move>, after: map<Id, Move>, made: set<Id>, x: Id)
    requires Undrawn(before, after, made) && Fresh(before, x) && x !in made
    ensures Fresh(after, x)
  {
    hide Fresh;
  }

  /** The assign, offered once to a move it may act on. */
  lemma AssignPlace(d: Door, p: Place, s: Estate, m: Id, x: Id, cands: seq<Dims>, after: Estate, r: Outcome<Assignment>,
      short: Error)
    requires Driven(d, p, s, m, x, cands) && (s.moves[m].state == Confirmed || s.moves[m].state == PartiallyAvailable)
    requires Commits(r, Assign(s, m, cands), s, after)
      && (r.Ok? ==> m in after.moves && r.value.state == after.moves[m].state)
    ensures Undrawn(s.moves, after.moves, {})
    ensures Walks(d, [Advance(d.j, x, cands)],
      p.(s := after, call := DrivenTo(d.jobs[d.j], p.call.line, m, StateOf(r))))
    ensures r.Err? ==> Refused(d, [Advance(d.j, x, cands)], short, r.error)
  {
    hide Stands, Walks, Undrawn, CandidatesOf, Fresh, NextPlace, RefusalOf, Refused, Commits, DrivenTo, StateOf;
    DrivenMove(d, p, s, m, x, cands);
    WalksOne(d, p, x, cands);
    AssignNext(d.jobs[d.j], p, s, m, x, cands, after, r, short);
    if r.Err? { RefusedOne(d, p, x, cands, short, r.error); }
  }

  lemma DrivenMove(d: Door, p: Place, s: Estate, m: Id, x: Id, cands: seq<Dims>)
    requires Driven(d, p, s, m, x, cands)
    ensures d.j < |d.jobs| && m in s.moves && p.s == s && p.call == Drive(p.call.line, m)
  {
  }

  lemma AssignNext(job: Job, p: Place, s: Estate, m: Id, x: Id, cands: seq<Dims>, after: Estate,
      r: Outcome<Assignment>, short: Error)
    requires p.s == s && p.call.Drive? && p.call.mv == m && m in s.moves
    requires s.moves[m].state == Confirmed || s.moves[m].state == PartiallyAvailable
    requires Commits(r, Assign(s, m, cands), s, after)
    requires r.Ok? ==> m in after.moves && r.value.state == after.moves[m].state
    ensures NextPlace(job, p, x, cands) == p.(s := after, call := DrivenTo(job, p.call.line, m, StateOf(r)))
    ensures r.Err? ==> RefusalOf(job, p, x, cands, short) == Some(r.error)
  {
    hide Assign, Decide;
  }

  function StateOf(r: Outcome<Assignment>): Outcome<MoveState> {
    match r case Ok(a) => Ok(a.state) case Err(e) => Err(e)
  }

  /** A move no verb is left for: its state decides. */
  lemma PassPlace(d: Door, p: Place, s: Estate, m: Id, x: Id, cands: seq<Dims>)
    requires Driven(d, p, s, m, x, cands) && s.moves[m].state != Draft
    requires s.moves[m].state != Confirmed && s.moves[m].state != PartiallyAvailable
    ensures Walks(d, [Advance(d.j, x, cands)], p.(call := Decide(d.jobs[d.j], p.call.line, m, s.moves[m].state)))
  {
    hide Stands, Walks, Undrawn, CandidatesOf, Fresh, NextPlace, Decide;
    DrivenMove(d, p, s, m, x, cands);
    WalksOne(d, p, x, cands);
    PassNext(d.jobs[d.j], p, s, m, x, cands);
  }

  lemma PassNext(job: Job, p: Place, s: Estate, m: Id, x: Id, cands: seq<Dims>)
    requires p.s == s && p.call.Drive? && p.call.mv == m && m in s.moves && s.moves[m].state != Draft
    requires s.moves[m].state != Confirmed && s.moves[m].state != PartiallyAvailable
    ensures NextPlace(job, p, x, cands) == p.(call := Decide(job, p.call.line, m, s.moves[m].state))
  {
    hide Decide;
  }

  /** Confirm a draft, then assign once: the state the engine wrote. */
  method AdvanceMoveToAssigned(service: StockService, m: Id, quantsAt: (Item, Loc) -> seq<Dims>, ghost d: Door,
      ghost p: Place,
      ghost spare: Id, ghost short: Error) returns (r: Outcome<MoveState>, ghost walk: seq<Event>)
    requires Answers(quantsAt) && Stands(d, p) && p.s == service.State() && Fresh(service.moves, spare)
    requires p.call.Drive? && p.call.mv == m
    modifies service
    ensures |walk| <= 2 && Walks(d, walk, p.(s := service.State(), call := DrivenTo(d.jobs[d.j], p.call.line, m, r)))
    ensures r.Err? ==> Refused(d, walk, short, r.error)
    ensures Undrawn(old(service.moves), service.moves, {})
    ensures r.Ok? ==> m in service.moves && r.value == service.moves[m].state
  {
    hide Stands, Walks, Fresh, Answers, Confirm, Assign, Undrawn, Driven, Refused, Commits, Decide;
    ghost var s, d1, p1, first := service.State(), d, p, [];
    DrivenBy(d, p, s, m, spare, quantsAt);
    WalksNowhere(d, p);
    UndrawnNone(s.moves);
    var cands := quantsAt(service.moves[m].item, service.moves[m].src);
    if service.moves[m].state == Draft {
      var confirmed := service.ActionConfirm(m);
      first := [Advance(d.j, spare, cands)];
      ConfirmPlace(d, p, s, m, spare, cands, service.State(), confirmed);
      d1, p1 := After(d, first), p.(s := service.State());
    }
    ghost var mid := service.State();
    ghost var second := [Advance(d.j, spare, cands)];
    if service.moves[m].state == Confirmed || service.moves[m].state == PartiallyAvailable {
      var outcome := service.ActionAssign(m, cands);
      AssignPlace(d1, p1, mid, m, spare, cands, service.State(), outcome, short);
      r := match outcome case Ok(a) => Ok(a.state) case Err(e) => Err(e);
    } else {
      PassPlace(d1, p1, mid, m, spare, cands);
      UndrawnNone(mid.moves);
      r := Ok(service.moves[m].state);
    }
    UndrawnTwice(s.moves, mid.moves, service.moves, {});
    WalksConcat(d, first, p1, second, p1.(s := service.State(), call := DrivenTo(d.jobs[d.j], p.call.line, m, r)));
    if r.Err? { RefusedConcat(d, first, second, short, r.error); }
    walk := first + second;
  }

  lemma UndrawnNone(moves: map<Id, Move>)
    ensures Undrawn(moves, moves, {})
  {
  }

  // ---- one line -----------------------------------------------------------------------------

  /** A strict door gives a short reservation back and refuses. */
  lemma ReleasePlace(d: Door, p: Place, s: Estate, m: Id, x: Id, after: Estate, r: Outcome<real>, short: Error)
    requires Stands(d, p) && p.s == s && p.call.Releasing? && p.call.mv == m && Fresh(s.moves, x)
    requires Commits(r, Unreserve(s, m), s, after)
    ensures r.Ok? && Undrawn(s.moves, after.moves, {}) && MoveQty(after.lines, m) == 0.0
    ensures Walks(d, [Advance(d.j, x, [])], p.(s := after, call := Idle))
      && Refused(d, [Advance(d.j, x, [])], short, short)
  {
    hide Stands, Walks, Undrawn, Fresh, NextPlace, RefusalOf, Refused, Unreserve;
    OwnMove(d, p);
    WalksOne(d, p, x, []);
    RefusedLineHoldsNothing(d, p, x, [], short);
    ReleaseNext(d.jobs[d.j], p, s, m, x, after, r);
    RefusedOne(d, p, x, [], short, short);
  }

  lemma ReleaseNext(job: Job, p: Place, s: Estate, m: Id, x: Id, after: Estate, r: Outcome<real>)
    requires p.s == s && p.call.Releasing? && p.call.mv == m && m in s.moves && Commits(r, Unreserve(s, m), s, after)
    ensures r.Ok? && NextPlace(job, p, x, []) == p.(s := after, call := Idle)
  {
  }

  function DoneTo(job: Job, i: nat, m: Id, r: Outcome<DoneOutcome>): Call {
    match r
    case Ok(done) => if job.records then Recording(i, m, done.outValue) else AtLine(i + 1)
    case Err(_) => Idle
  }

  /** The done verb moves the call on, or is refused. */
  lemma FinishPlace(d: Door, p: Place, s: Estate, m: Id, x: Id, after: Estate, r: Outcome<DoneOutcome>, short: Error)
    requires d.j < |d.jobs| && p.call.Finishing? && p.call.line < |d.jobs[d.j].lines|
    requires Stands(d, p) && p.s == s && p.call.mv == m && Fresh(s.moves, x)
    requires Commits(r, Finish(s, m, Never, x, []), s, after) && m in s.moves
      && (r.Ok? ==> r.value.outValue == Worth(s, m))
    ensures Undrawn(s.moves, after.moves, {})
    ensures Walks(d, [Advance(d.j, x, [])], p.(s := after, call := DoneTo(d.jobs[d.j], p.call.line, m, r)))
    ensures r.Err? ==> Refused(d, [Advance(d.j, x, [])], short, r.error)
    ensures r.Ok? ==> Landed(after.moves, d.jobs[d.j].lines[p.call.line])
  {
    hide Stands, Walks, Undrawn, Fresh, Finish, Worth, Landed, NextPlace, RefusalOf, Refused, DoneTo, Commits;
    OwnMove(d, p);
    WalksOne(d, p, x, []);
    FinishNext(d.jobs[d.j], p, s, m, x, after, r, short);
    if r.Err? { RefusedOne(d, p, x, [], short, r.error); }
    CommitsIs(r, Finish(s, m, Never, x, []), s, after);
    if r.Ok? { FinishedLands(s, d.jobs[d.j].lines[p.call.line].value, m, x); }
  }

  lemma CommitsIs<T>(r: Outcome<T>, want: Outcome<Estate>, before: Estate, after: Estate)
    requires Commits(r, want, before, after)
    ensures if r.Ok? then want == Ok(after) else after == before
  {
  }

  lemma FinishNext(job: Job, p: Place, s: Estate, m: Id, x: Id, after: Estate, r: Outcome<DoneOutcome>, short: Error)
    requires p.s == s && p.call.Finishing? && p.call.mv == m && p.call.line < |job.lines| && m in s.moves
    requires Commits(r, Finish(s, m, Never, x, []), s, after) && (r.Ok? ==> r.value.outValue == Worth(s, m))
    ensures NextPlace(job, p, x, []) == p.(s := after, call := DoneTo(job, p.call.line, m, r))
    ensures r.Err? ==> RefusalOf(job, p, x, [], short) == Some(r.error)
  {
    hide Finish, Worth;
  }

  /** Finishing a line's move lands the line. */
  lemma FinishedLands(s: Estate, nm: NewMove, m: Id, child: Id)
    requires NamedMove(s.moves, m, nm.name) && Finish(s, m, Never, child, []).Ok?
    ensures Landed(Finish(s, m, Never, child, []).value.moves, Some(nm))
  {
    FinishMoves(s, m, child);
    hide Finish;
    LandedBy(Finish(s, m, Never, child, []).value.moves, nm, m);
  }

  /** What the line carried out is written on its row, unless it is below zero. */
  lemma RecordPlace(d: Door, p: Place, x: Id, short: Error)
    requires Stands(d, p) && p.call.Recording? && Fresh(p.s.moves, x)
    ensures Walks(d, [Advance(d.j, x, [])], if RowTakes(p.call) then RowWritten(p) else p.(call := Idle))
    ensures !RowTakes(p.call) ==> Refused(d, [Advance(d.j, x, [])], short, StoreRefused)
  {
    hide Stands, Walks, Undrawn, Fresh, NextPlace, RefusalOf, Refused;
    StandsAt(d, p);
    WalksOne(d, p, x, []);
    RecordNext(d.jobs[d.j], p, x, short);
    if !RowTakes(p.call) { RefusedOne(d, p, x, [], short, StoreRefused); }
  }

  function RowWritten(p: Place): Place
    requires p.call.Recording?
  {
    p.(call := AtLine(p.call.line + 1), recorded := p.recorded[p.call.line := p.call.worth])
  }

  lemma RecordNext(job: Job, p: Place, x: Id, short: Error)
    requires p.call.Recording?
    ensures NextPlace(job, p, x, []) == if RowTakes(p.call) then RowWritten(p) else p.(call := Idle)
    ensures !RowTakes(p.call) ==> RefusalOf(job, p, x, [], short) == Some(StoreRefused)
  {
  }

  /** Write a line's cost on its row; the row refuses one below zero. */
  method RecordLine(worth: real, i: nat, recorded: map<nat, real>, ghost spare: Id, ghost short: Error, ghost d: Door,
      ghost p: Place) returns (r: Outcome<()>, written: map<nat, real>, ghost walk: seq<Event>)
    requires Stands(d, p) && p.call.Recording? && p.call.line == i && p.call.worth == worth && p.recorded == recorded
    requires Fresh(p.s.moves, spare)
    ensures Walks(d, walk, p.(call := if r.Ok? then AtLine(i + 1) else Idle, recorded := written))
    ensures r.Err? ==> Refused(d, walk, short, r.error)
  {
    hide Stands, Walks, Fresh, Refused;
    RecordPlace(d, p, spare, short);
    walk := [Advance(d.j, spare, [])];
    if worth < 0.0 { return Err(StoreRefused), recorded, walk; }
    written := recorded[i := worth];
    r := Ok(());
  }

  /** What a line that landed before carried out, read back from the ledger. */
  method CarriedBefore(service: StockService, nm: NewMove, ghost d: Door, ghost p: Place) returns (carried: real)
    requires AtMove(d, p, service.State(), nm) && Landed(service.moves, Some(nm))
    ensures carried == LineCarried(service.State(), Some(nm))
  {
    hide Stands, CarriedOut;
    var found := FindNamed(service.moves, nm.name);
    TheOneNamed(d, p, service.State(), nm, found);
    carried := CarriedOut(service.books.rows, found.value);
  }

  /** A recording door's lines carry out of the books. */
  ghost predicate Ships(d: Door)
    requires d.j < |d.jobs|
  {
    d.jobs[d.j].records ==> Outbound(d.locs, d.jobs, d.j)
  }

  /** What the done verb reports is what the line's ledger rows show. */
  lemma DoneCarried(d: Door, p: Place, m: Id, x: Id, d': Door, p': Place, r: Outcome<DoneOutcome>)
    requires Stands(d, p) && Outbound(d.locs, d.jobs, d.j) && p.call.Finishing? && p.call.mv == m && m in p.s.moves
    requires Commits(r, Finish(p.s, m, Never, x, []), p.s, p'.s) && r.Ok?
    requires Stands(d', p') && d'.jobs == d.jobs && d'.locs == d.locs
    ensures p.call.line < |d.jobs[d.j].lines|
    ensures LineCarried(p'.s, d.jobs[d.j].lines[p.call.line]) == Worth(p.s, m)
  {
    hide CarriedOut, LineCarried, Finish, Worth, LineInv, DoorInv, Sound;
    OwnMove(d, p);
    var i := p.call.line;
    assert Leg(d.jobs, d.j, i);
    assert LineInv(p.s, MoveOf(d.jobs, d.j, i));
    OrderOf(p.s, MoveOf(d.jobs, d.j, i), m);
    FinishCarriesWorth(p.s, m, x);
    FinishMoves(p.s, m, x);
    hide WorldInv;
    TheNamed(d'.locs, d'.jobs, d'.w, d.j, i, m);
  }

  /** Drive a move to its done; a strict door gives a short reservation back and refuses. */
  method ReserveLine(service: StockService, job: Job, i: nat, m: Id, short: Error, spare: Id,
      quantsAt: (Item, Loc) -> seq<Dims>, ghost d: Door, ghost p: Place)
      returns (r: Outcome<()>, ghost walk: seq<Event>)
    requires d.j < |d.jobs| && d.jobs[d.j] == job && Answers(quantsAt)
    requires Stands(d, p) && p.s == service.State() && p.call == Drive(i, m) && Fresh(service.moves, spare)
    modifies service
    ensures Walks(d, walk, p.(s := service.State(), call := if r.Ok? then Finishing(i, m) else Idle))
    ensures r.Err? ==> Refused(d, walk, short, r.error)
    ensures Undrawn(old(service.moves), service.moves, {})
  {
    hide Stands, Walks, Fresh, Answers, Undrawn, Refused, Commits, Unreserve, MoveQty;
    ghost var s := service.State();
    var state, first := AdvanceMoveToAssigned(service, m, quantsAt, d, p, spare, short);
    ghost var s1, p1 := service.State(), p.(s := service.State(), call := DrivenTo(job, i, m, state));
    walk := first;
    if state.Err? { return Err(state.error), walk; }
    if job.strict && state.value != Assigned {
      WalksStands(d, first, p1);
      FreshAfter(s.moves, s1.moves, {}, spare);
      ghost var second := [Advance(d.j, spare, [])];
      var released := service.UnreserveMove(m);
      ReleasePlace(After(d, first), p1, s1, m, spare, service.State(), released, short);
      WalksConcat(d, first, p1, second, p1.(s := service.State(), call := Idle));
      RefusedConcat(d, first, second, short, short);
      UndrawnTwice(s.moves, s1.moves, service.moves, {});
      return Err(short), first + second;
    }
    r := Ok(());
  }

  /** Do a driven line, and write what it carried out if the door records. */
  method LandLine(service: StockService, job: Job, i: nat, m: Id, short: Error, spare: Id, recorded: map<nat, real>,
      ghost d: Door, ghost p: Place)
      returns (r: Outcome<()>, written: map<nat, real>, carried: real, ghost walk: seq<Event>)
    requires d.j < |d.jobs| && d.jobs[d.j] == job && i < |job.lines| && Ships(d)
    requires Stands(d, p) && p.s == service.State() && p.call == Finishing(i, m) && p.recorded == recorded
    requires Fresh(service.moves, spare)
    modifies service
    ensures Walks(d, walk, Place(service.State(), if r.Ok? then AtLine(i + 1) else Idle, p.closed, written))
    ensures r.Err? ==> Refused(d, walk, short, r.error)
    ensures r.Ok? ==> Landed(service.moves, job.lines[i])
    ensures r.Ok? && job.records ==> carried == LineCarried(service.State(), job.lines[i])
    ensures Undrawn(old(service.moves), service.moves, {})
  {
    hide Stands, Walks, Fresh, Undrawn, Refused, Landed, Commits, Finish, Worth, LineCarried, Outbound;
    written, carried := recorded, 0.0;
    ghost var s := service.State();
    OwnMove(d, p);
    var done := service.ActionDone(m, Never, spare, []);
    ghost var p1 := p.(s := service.State(), call := DoneTo(job, i, m, done));
    FinishPlace(d, p, s, m, spare, service.State(), done, short);
    walk := [Advance(d.j, spare, [])];
    if done.Err? { return Err(done.error), written, carried, walk; }
    r := Ok(());
    if job.records {
      WalksStands(d, walk, p1);
      FreshAfter(s.moves, service.moves, {}, spare);
      DoneCarried(d, p, m, spare, After(d, walk), p1, done);
      carried := done.value.outValue;
      ghost var last;
      r, written, last := RecordLine(carried, i, recorded, spare, short, After(d, walk), p1);
      WalksConcat(d, walk, p1, last, p1.(call := if r.Ok? then AtLine(i + 1) else Idle, recorded := written));
      if r.Err? { RefusedConcat(d, walk, last, short, r.error); }
      walk := walk + last;
    }
  }

  /** Drive one line to done; a strict door gives a short reservation back and refuses, a recording
      one writes what the line carried out, or is refused the write of a negative cost. */
  method DriveLine(service: StockService, job: Job, i: nat, short: Error, unseen: Id, spare: Id,
      quantsAt: (Item, Loc) -> seq<Dims>, recorded: map<nat, real>, ghost d: Door, ghost p: Place)
      returns (r: Outcome<()>, written: map<nat, real>, carried: real, ghost walk: seq<Event>)
    requires d.j < |d.jobs| && d.jobs[d.j] == job && i < |job.lines| && job.lines[i].Some? && Answers(quantsAt)
      && Ships(d)
    requires AtMove(d, p, service.State(), job.lines[i].value) && p.call == AtLine(i) && p.recorded == recorded
    requires Fresh(service.moves, unseen) && Fresh(service.moves, spare) && spare != unseen
    modifies service
    ensures Walks(d, walk, Place(service.State(), if r.Ok? then AtLine(i + 1) else Idle, p.closed, written))
    ensures r.Err? ==> Refused(d, walk, short, r.error)
    ensures r.Ok? ==> Landed(service.moves, job.lines[i])
    ensures r.Ok? && job.records ==> carried == LineCarried(service.State(), job.lines[i])
    ensures Undrawn(old(service.moves), service.moves, {unseen})
  {
    hide Stands, Walks, Fresh, Answers, Undrawn, Refused, Landed, LineCarried, Outbound;
    written, carried := recorded, 0.0;
    ghost var s0, made := service.State(), {unseen};
    var minted, first := MintLineMove(service, job.lines[i].value, unseen, d, p, short);
    ghost var s1, p1 := service.State(), p.(s := service.State(), call := MintedAt(i, minted));
    walk := first;
    if minted.Err? { return Err(minted.error), written, carried, walk; }
    if minted.value.None? {
      carried := CarriedBefore(service, job.lines[i].value, d, p);
      return Ok(()), written, carried, walk;
    }
    var m := minted.value.value;
    WalksStands(d, first, p1);
    FreshAfter(s0.moves, s1.moves, made, spare);
    ghost var second, third;
    r, second := ReserveLine(service, job, i, m, short, spare, quantsAt, After(d, first), p1);
    ghost var s2, p2 := service.State(), p1.(s := service.State(), call := if r.Ok? then Finishing(i, m) else Idle);
    WalksConcat(d, first, p1, second, p2);
    UndrawnMore(s1.moves, s2.moves, {}, made);
    UndrawnTwice(s0.moves, s1.moves, s2.moves, made);
    walk := first + second;
    if r.Err? {
      RefusedConcat(d, first, second, short, r.error);
      return r, written, carried, walk;
    }
    WalksStands(d, walk, p2);
    FreshAfter(s0.moves, s2.moves, made, spare);
    r, written, carried, third := LandLine(service, job, i, m, short, spare, recorded, After(d, walk), p2);
    WalksConcat(d, walk, p2, third, Place(service.State(), if r.Ok? then AtLine(i + 1) else Idle, p.closed, written));
    if r.Err? { RefusedConcat(d, walk, third, short, r.error); }
    UndrawnMore(s2.moves, service.moves, {}, made);
    UndrawnTwice(s0.moves, s2.moves, service.moves, made);
    walk := walk + third;
  }

  // ---- the voucher ----------------------------------------------------------------------------

  /** Ids drawn ahead for the lines from `i` on. */
  ghost predicate Drawn(moves: map<Id, Move>, unseen: seq<Id>, i: nat, spare: Id) {
    && Fresh(moves, spare) && spare !in unseen
    && (forall k :: i <= k < |unseen| ==> Fresh(moves, unseen[k]))
    && forall k, l :: 0 <= k < l < |unseen| ==> unseen[k] != unseen[l]
  }

  lemma DrawnNext(before: map<Id, Move>, after: map<Id, Move>, unseen: seq<Id>, i: nat, spare: Id)
    requires Drawn(before, unseen, i, spare) && i < |unseen| && Undrawn(before, after, {unseen[i]})
    ensures Drawn(after, unseen, i + 1, spare)
  {
    hide Fresh;
  }

  lemma DrawnFresh(moves: map<Id, Move>, unseen: seq<Id>, i: nat, spare: Id)
    requires Drawn(moves, unseen, i, spare)
    ensures Fresh(moves, spare) && (i < |unseen| ==> Fresh(moves, unseen[i]) && spare != unseen[i])
  {
    hide Fresh;
  }

  lemma ReachedLanded(d: Door, p: Place, i: nat)
    requires Stands(d, p) && p.call == AtLine(i)
    ensures LandedTo(p.s.moves, d.jobs[d.j], i)
  {
    assert DoorInv(p.s, d.jobs, d.j, p.call, p.closed, p.recorded);
    hide WorldInv, JobsOk;
  }

  /** The step past a line that moves no stock, or off the end, where the voucher closes unless the
      header refuses its total. */
  lemma PastPlace(d: Door, p: Place, i: nat, x: Id, short: Error)
    requires Stands(d, p) && p.call == AtLine(i) && i <= |d.jobs[d.j].lines| && Fresh(p.s.moves, x)
    requires i < |d.jobs[d.j].lines| ==> d.jobs[d.j].lines[i].None?
    ensures Walks(d, [Advance(d.j, x, [])], PastLine(d.jobs[d.j], p, i))
    ensures i == |d.jobs[d.j].lines| && !HeaderTakes(p.s, d.jobs[d.j]) ==>
      Refused(d, [Advance(d.j, x, [])], short, StoreRefused)
  {
    hide Stands, Walks, Undrawn, Fresh, NextPlace, PastLine, HeaderTakes, RefusalOf, Refused;
    StandsAt(d, p);
    WalksOne(d, p, x, []);
    PastNext(d.jobs[d.j], p, i, x, short);
    if i == |d.jobs[d.j].lines| && !HeaderTakes(p.s, d.jobs[d.j]) { RefusedOne(d, p, x, [], short, StoreRefused); }
  }

  ghost function PastLine(job: Job, p: Place, i: nat): Place {
    if i < |job.lines| then p.(call := AtLine(i + 1)) else p.(call := Idle, closed := p.closed || HeaderTakes(p.s, job))
  }

  lemma PastNext(job: Job, p: Place, i: nat, x: Id, short: Error)
    requires p.call == AtLine(i) && i <= |job.lines| && (i < |job.lines| ==> job.lines[i].None?)
    ensures NextPlace(job, p, x, []) == PastLine(job, p, i)
    ensures i == |job.lines| && !HeaderTakes(p.s, job) ==> RefusalOf(job, p, x, [], short) == Some(StoreRefused)
  {
    hide HeaderTakes;
  }

  /** A walk leaves what landed lines carried alone. */
  lemma {:induction false} WalkKeepsCarried(d: Door, p: Place, walk: seq<Event>, q: Place, n: nat)
    requires Stands(d, p) && Walks(d, walk, q) && LandedTo(p.s.moves, d.jobs[d.j], n)
    ensures CarriedTo(q.s, d.jobs[d.j], n) == CarriedTo(p.s, d.jobs[d.j], n)
    decreases |walk|
  {
    hide StepWorld, EventOk, CarriedTo, LandedTo, WorldInv, JobsOk;
    if walk != [] {
      var e, w' := walk[0], StepWorld(d.jobs, d.w, walk[0]);
      EventKeepsWorld(d.locs, d.jobs, d.w, e);
      EventKeepsCarriedTo(d.locs, d.jobs, d.w, e, d.j, n);
      EventKeepsLandedTo(d.jobs, d.w, e, d.j, n);
      WalkKeepsCarried(d.(w := w'), PlaceOf(w', d.j), walk[1..], q, n);
    }
  }

  lemma EventKeepsLandedTo(jobs: seq<Job>, w: World, e: Event, j: nat, n: nat)
    requires |w.calls| == |w.closed| == |w.recorded| == |jobs| && EventOk(jobs, w, e) && j < |jobs|
    requires LandedTo(w.s.moves, jobs[j], n)
    ensures LandedTo(StepWorld(jobs, w, e).s.moves, jobs[j], n)
  {
    hide StepWorld, EventOk, Landed;
    forall i | 0 <= i < n ensures Landed(StepWorld(jobs, w, e).s.moves, jobs[j].lines[i]) {
      EventKeepsLanded(jobs, w, e, jobs[j].lines[i]);
    }
  }

  /** One more line landed, the total takes in what it carried. */
  lemma TotalNext(d: Door, p: Place, walk: seq<Event>, q: Place, i: nat)
    requires Stands(d, p) && Walks(d, walk, q) && p.call == AtLine(i) && i < |d.jobs[d.j].lines|
    ensures CarriedTo(q.s, d.jobs[d.j], i + 1) ==
            CarriedTo(p.s, d.jobs[d.j], i) + LineCarried(q.s, d.jobs[d.j].lines[i])
  {
    hide Stands, Walks, CarriedTo, LineCarried, LandedTo;
    StandsAt(d, p);
    ReachedLanded(d, p, i);
    WalkKeepsCarried(d, p, walk, q, i);
    CarriedNext(q.s, d.jobs[d.j], i);
  }

  lemma HeaderIs(s: Estate, job: Job, total: real)
    requires job.records ==> total == CarriedTo(s, job, |job.lines|)
    ensures HeaderTakes(s, job) <==> !(job.records && total < 0.0)
  {
  }

  /** The loop over a voucher's lines: left alone it takes the door's steps one by one, adding up what
      the lines carried out, and either closes the voucher after the last line or stops at the
      first refused step, its error the caller's. */
  method DriveLines(service: StockService, job: Job, short: Error, unseen: seq<Id>, spare: Id,
      quantsAt: (Item, Loc) -> seq<Dims>, recorded: map<nat, real>, ghost d: Door, ghost p: Place)
      returns (r: Outcome<()>, written: map<nat, real>, total: real, ghost walk: seq<Event>)
    requires d.j < |d.jobs| && d.jobs[d.j] == job && Answers(quantsAt) && Ships(d)
    requires |unseen| == |job.lines| && Drawn(service.moves, unseen, 0, spare)
    requires Stands(d, p) && p == Place(service.State(), AtLine(0), false, recorded)
    modifies service
    ensures Walks(d, walk, Place(service.State(), Idle, r.Ok?, written))
    ensures r.Ok? ==> LandedTo(service.moves, job, |job.lines|)
    ensures r.Ok? && job.records ==> total == CarriedTo(service.State(), job, |job.lines|) && total >= 0.0
    ensures r.Err? ==> Refused(d, walk, short, r.error)
  {
    hide Stands, Walks, Fresh, Answers, Undrawn, Refused, Landed, LandedTo, Drawn, CarriedTo, LineCarried, Outbound;
    written, total, walk := recorded, 0.0, [];
    WalksNowhere(d, p);
    CarriedNothing(service.State(), job);
    for i := 0 to |job.lines|
      invariant Walks(d, walk, Place(service.State(), AtLine(i), false, written))
      invariant Drawn(service.moves, unseen, i, spare)
      invariant job.records ==> total == CarriedTo(service.State(), job, i)
    {
      ghost var here, d1 := Place(service.State(), AtLine(i), false, written), After(d, walk);
      WalksStands(d, walk, here);
      DrawnFresh(service.moves, unseen, i, spare);
      if job.lines[i].Some? {
        ghost var before := service.moves;
        var line, row, carried, more :=
          DriveLine(service, job, i, short, unseen[i], spare, quantsAt, written, d1, here);
        ghost var there := Place(service.State(), if line.Ok? then AtLine(i + 1) else Idle, false, row);
        WalksConcat(d, walk, here, more, there);
        written := row;
        if line.Err? {
          RefusedConcat(d, walk, more, short, line.error);
          return Err(line.error), written, total, walk + more;
        }
        TotalNext(d1, here, more, there, i);
        total := total + carried;
        DrawnNext(before, service.moves, unseen, i, spare);
        walk := walk + more;
      } else {
        UndrawnNone(service.moves);
        UndrawnMore(service.moves, service.moves, {}, {unseen[i]});
        DrawnNext(service.moves, service.moves, unseen, i, spare);
        PastPlace(d1, here, i, spare, short);
        WalksConcat(d, walk, here, [Advance(d.j, spare, [])], here.(call := AtLine(i + 1)));
        CarriedNone(service.State(), job, i);
        walk := walk + [Advance(d.j, spare, [])];
      }
    }
    ghost var n, last, off := |job.lines|, Place(service.State(), AtLine(|job.lines|), false, written),
      [Advance(d.j, spare, [])];
    WalksStands(d, walk, last);
    ReachedLanded(After(d, walk), last, n);
    DrawnFresh(service.moves, unseen, n, spare);
    PastPlace(After(d, walk), last, n, spare, short);
    HeaderIs(service.State(), job, total);
    WalksConcat(d, walk, last, off, PastLine(job, last, n));
    if job.records && total < 0.0 {
      RefusedConcat(d, walk, off, short, StoreRefused);
      return Err(StoreRefused), written, total, walk + off;
    }
    walk := walk + off;
    r := Ok(());
  }

  lemma CarriedNone(s: Estate, job: Job, i: nat)
    requires i < |job.lines| && job.lines[i].None?
    ensures CarriedTo(s, job, i + 1) == CarriedTo(s, job, i)
  {
    CarriedNext(s, job, i);
  }

  // ---- the whole call -------------------------------------------------------------------------

  /** Whether a done move has the name. */
  method HasLanded(moves: map<Id, Move>, nm: NewMove) returns (landed: bool)
    ensures landed <==> Landed(moves, Some(nm))
  {
    var rest := moves.Keys;
    while rest != {}
      invariant rest <= moves.Keys
      invariant forall m :: NamedMove(moves, m, nm.name) && moves[m].state == Done ==> m in rest
      decreases |rest|
    {
      var m :| m in rest;
      if moves[m].name == nm.name && moves[m].state == Done {
        LandedBy(moves, nm, m);
        return true;
      }
      rest := rest - {m};
    }
    landed := false;
  }

  /** The all-or-nothing test of the source bins before anything is minted. */
  method TestStock(service: StockService, job: Job) returns (enough: bool)
    ensures enough <==> Admits(service.State(), job)
  {
    if job.guard == Unguarded { return true; }
    ghost var s := service.State();
    for i := 0 to |job.lines|
      invariant forall k: nat {:trigger Tested(s.moves, job, k)} :: k < i && Tested(s.moves, job, k) ==>
        Stocked(s, job.lines[k].value)
    {
      if job.lines[i].Some? {
        var nm := job.lines[i].value;
        var landed := HasLanded(service.moves, nm);
        if job.guard == EveryLine || !landed {
          assert Tested(s.moves, job, i);
          var key := KeyOf(nm.item, LocAt(service.locs, nm.src));
          if key.Some? && BinAt(service.books.bins, key.value).qty < nm.demand { return false; }
        }
      }
    }
    enough := true;
  }

  /** The call enters at the first line, or the machine stays where it was. */
  lemma BeginPlace(d: Door, p: Place, onRecord: bool)
    requires Stands(d, p) && p.call == Idle && !p.closed
    ensures var job := d.jobs[d.j];
      var lets := Admits(p.s, job) && AfterClosed(job, d.w.closed) && (job.after.Some? ==> onRecord);
      Walks(d, [Begin(d.j, onRecord)], if lets then p.(call := AtLine(0)) else p)
  {
    var e := Begin(d.j, onRecord);
    EventKeepsWorld(d.locs, d.jobs, d.w, e);
    RunOnOne(d.jobs, d.w, e);
    hide WorldInv, JobsOk, Admits;
  }

  /** One call of a door on an open voucher: a reversal needs its voucher closed and the original's post
      on record, the guard then tests the stock, and nothing was touched when one of them refuses;
      else the lines are driven. */
  method RunCall(service: StockService, job: Job, short: Error, submitted: bool, onRecord: bool, unseen: seq<Id>,
      spare: Id, quantsAt: (Item, Loc) -> seq<Dims>, recorded: map<nat, real>, ghost d: Door, ghost p: Place)
      returns (r: Outcome<()>, written: map<nat, real>, total: real, ghost walk: seq<Event>)
    requires d.j < |d.jobs| && d.jobs[d.j] == job && Answers(quantsAt) && Ships(d)
    requires |unseen| == |job.lines| && Drawn(service.moves, unseen, 0, spare)
    requires Stands(d, p) && p == Place(service.State(), Idle, false, recorded)
    requires submitted == AfterClosed(job, d.w.closed)
    modifies service
    ensures Walks(d, walk, Place(service.State(), Idle, r.Ok?, written)) && Begin(d.j, onRecord) in walk
    ensures r.Ok? ==> LandedTo(service.moves, job, |job.lines|)
    ensures r.Ok? && job.records ==> total == CarriedTo(service.State(), job, |job.lines|) && total >= 0.0
    ensures !submitted || (job.after.Some? && !onRecord) || !Admits(old(service.State()), job) ==>
      && walk == [Begin(d.j, onRecord)] && service.State() == old(service.State()) && written == recorded
      && r == Err(if !submitted then NotSubmitted else if job.after.Some? && !onRecord then GlNotPosted else short)
  {
    hide Stands, Walks, Answers, Drawn, Admits, LandedTo, CarriedTo, Outbound, Fresh, Refused;
    written, total := recorded, 0.0;
    BeginPlace(d, p, onRecord);
    walk := [Begin(d.j, onRecord)];
    if !submitted { return Err(NotSubmitted), written, total, walk; }
    if job.after.Some? && !onRecord { return Err(GlNotPosted), written, total, walk; }
    var enough := TestStock(service, job);
    if !enough { return Err(short), written, total, walk; }
    ghost var begun := p.(call := AtLine(0));
    WalksStands(d, walk, begun);
    ghost var d1 := After(d, walk);
    ghost var more;
    r, written, total, more := DriveLines(service, job, short, unseen, spare, quantsAt, recorded, d1, begun);
    WalksConcat(d, walk, begun, more, Place(service.State(), Idle, r.Ok?, written));
    walk := walk + more;
  }
}
