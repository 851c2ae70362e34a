/** One move's strict mirror survives everything but an edit of that move's own lines, whatever is
    edited elsewhere. */
module WholeMoves {
  import opened Common
  import opened StockTypes
  import opened Valuation
  import opened Reservation
  import opened Engine
  import opened Invariants
  import opened Soundness
  import opened SoundDone
  import opened Runs
  import opened VerbContracts

  /** The command edits the quantity of one of the move's own lines. */
  predicate Edits(s: Estate, c: Cmd, m: Id) { c.ShrinkCmd? && c.line < |s.lines| && s.lines[c.line].mv == m }

  lemma CreateWhole(s: Estate, id: Id, nm: NewMove, m: Id)
    requires id !in s.moves && Create(s, id, nm).Ok? && m in s.moves && Whole(s, m)
    ensures m in Create(s, id, nm).value.moves && Whole(Create(s, id, nm).value, m)
  {
  }

  /** A move just created holds nothing. */
  lemma CreatedWhole(s: Estate, id: Id, nm: NewMove)
    requires Sound(s, false) && id !in s.moves && id !in nm.orig && Create(s, id, nm).Ok?
    ensures id in Create(s, id, nm).value.moves && Whole(Create(s, id, nm).value, id)
  {
    MoveQtyNone(s.lines, id);
    InsertedDraft(s.moves, id, nm);
  }

  lemma ConfirmWhole(s: Estate, id: Id, m: Id)
    requires Confirm(s, id).Ok? && m in s.moves && Whole(s, m)
    ensures Whole(Confirm(s, id).value, m)
  {
  }

  lemma AssignWhole(s: Estate, id: Id, cands: seq<Dims>, m: Id)
    requires Sound(s, false) && Assign(s, id, cands).Ok? && CandidatesOf(cands, s.moves[id].item, s.moves[id].src)
    requires m in s.moves && Whole(s, m)
    ensures m in Assign(s, id, cands).value.moves && Whole(Assign(s, id, cands).value, m)
  {
    AssignHeld(s, id, cands, false);
    if m == id {
      AssignTakesAllItCan(s, id, cands, false);
      hide Sound, Reservations, Assign;
    } else {
      hide Sound, Reservations, Assign;
      var s' := Assign(s, id, cands).value;
      var more := Reservations(s, id, cands).lines;
      MoveQtyAppend(s.lines, more, id, m);
      MoveQtyStamp(s.lines + more, id, s'.moves[id].state, m);
    }
  }

  lemma UnreserveWhole(s: Estate, id: Id, m: Id)
    requires Unreserve(s, id).Ok? && m in s.moves && Whole(s, m)
    ensures Whole(Unreserve(s, id).value, m)
  {
    MoveQtyZero(s.lines, id, m);
  }

  lemma DemandLineWhole(s: Estate, id: Id, m: Id)
    requires Sound(s, false) && MintDemandLine(s, id).Ok? && m in s.moves && Whole(s, m)
    ensures Whole(MintDemandLine(s, id).value, m)
  {
    var l := DemandLine(s.moves[id], id, s.moves[id].demand);
    MoveQtyAppend(s.lines, [l], id, m);
    SumAppend([], l, QtyOf);
    assert [] + [l] == [l];
    if LinesOf(s.lines, id) == [] { NoLinesNoQty(s.lines, id); }
    hide Triangle, Chained, Posted, Splits, Reconstructs, MoveQty;
  }

  lemma CancelWhole(s: Estate, ms: set<Id>, m: Id)
    requires m in s.moves && Whole(s, m)
    ensures m in CancelAll(s, ms).moves && Whole(CancelAll(s, ms), m)
  {
    CancelQty(s.lines, ms, m);
  }

  lemma ShrinkWhole(s: Estate, i: nat, qty: real, m: Id)
    requires Shrink(s, i, qty).Ok? && m in s.moves && Whole(s, m) && s.lines[i].mv != m
    ensures Whole(Shrink(s, i, qty).value, m)
  {
    SumUpdate(s.lines, i, s.lines[i].(qty := qty), OfW(m));
  }

  lemma DoneCoreWhole(s: Estate, id: Id, m: Id)
    requires Sound(s, false) && id in s.moves && DoneCore(s, id).Ok? && m in s.moves && Whole(s, m)
    ensures m in DoneCore(s, id).value.moves && Whole(DoneCore(s, id).value, m)
  {
    DoneCoreParts(s, id, false);
    MoveQtyStamp(s.lines, id, Done, m);
    hide DoneCore, Sound;
  }

  lemma SplitWhole(s: Estate, id: Id, policy: Policy, child: Id, cands: seq<Dims>, m: Id)
    requires SoundBut(s, false, Some(id)) && id in s.moves && s.moves[id].state == Done && Fresh(s.moves, child)
    requires CandidatesOf(cands, s.moves[id].item, s.moves[id].src) && Split(s, id, policy, child, cands).Ok?
    requires m in s.moves && Whole(s, m)
    ensures var s' := Split(s, id, policy, child, cands).value; m in s'.moves && Whole(s', m)
  {
    var mv := s.moves[id];
    if mv.quantity < mv.demand && policy != Never {
      SplitInserts(s, id, child, false);
      InsertedDraft(s.moves, child, Remainder(mv, id));
      InsertAt(s.moves, child, Remainder(mv, id), m);
      var s0 := s.(moves := Insert(s.moves, child, Remainder(mv, id)));
      var s1 := Confirm(s0, child).value.(backorders := s.backorders[id := child]);
      hide SoundBut, Insert;
      assert Whole(s1, m);
      if policy == Always && s1.moves[child].state == Confirmed { BackorderLeaves(s1, child, cands, id, m); }
    }
  }

  lemma BackorderLeaves(s: Estate, child: Id, cands: seq<Dims>, id: Id, m: Id)
    requires SoundBut(s, false, Some(id)) && child in s.moves && s.moves[child].state == Confirmed
    requires CandidatesOf(cands, s.moves[child].item, s.moves[child].src) && AssignCore(s, child, cands).Ok?
    requires m in s.moves && m != child && Whole(s, m)
    ensures var s' := AssignCore(s, child, cands).value; m in s'.moves && Whole(s', m)
  {
    ReservationsFit(s, child, cands, false, Some(id));
    hide SoundBut, Reservations;
    var s' := AssignCore(s, child, cands).value;
    var more := Reservations(s, child, cands).lines;
    MoveQtyAppend(s.lines, more, child, m);
    MoveQtyStamp(s.lines + more, child, s'.moves[child].state, m);
  }

  lemma ReleaseWhole(s: Estate, kids: seq<Id>, m: Id)
    requires m in s.moves && Whole(s, m)
    ensures var s' := s.(moves := Release(s.moves, kids)); m in s'.moves && Whole(s', m)
  {
  }

  lemma FinishWhole(s: Estate, id: Id, policy: Policy, child: Id, cands: seq<Dims>, m: Id)
    requires Sound(s, false) && Finish(s, id, policy, child, cands).Ok?
    requires Fresh(s.moves, child) && CandidatesOf(cands, s.moves[id].item, s.moves[id].src)
    requires m in s.moves && Whole(s, m)
    ensures var s' := Finish(s, id, policy, child, cands).value; m in s'.moves && Whole(s', m)
  {
    hide DoneCore, Split, Release, SoundBut, Whole;
    var s1 := DoneCore(s, id).value;
    DoneCoreParts(s, id, false);
    DoneCoreSound(s, id, false);
    DoneCoreWhole(s, id, m);
    SplitWhole(s1, id, policy, child, cands, m);
    ReleaseWhole(Split(s1, id, policy, child, cands).value, s.moves[id].dest, m);
  }

  /** Every command but an edit of its own lines keeps a move's strict mirror. */
  lemma StepKeepsWhole(s: Estate, c: Cmd, m: Id)
    requires Sound(s, false) && Contract(s, c) && m in s.moves && Whole(s, m) && !Edits(s, c, m)
    ensures m in Step(s, c).moves && Whole(Step(s, c), m)
  {
    hide Sound, Whole, Create, Confirm, Assign, Unreserve, MintDemandLine, Finish, CancelAll, CancelSet;
    if Exec(s, c).Ok? {
      match c
      case CreateCmd(id, nm) => CreateWhole(s, id, nm, m);
      case ConfirmCmd(id) => ConfirmWhole(s, id, m); SameKeysAfter(s, c);
      case AssignCmd(id, cands) => AssignIsLive(s, id, cands); AssignWhole(s, id, cands, m);
      case UnreserveCmd(id) => UnreserveWhole(s, id, m); SameKeysAfter(s, c);
      case DemandLineCmd(id) => DemandLineWhole(s, id, m); SameKeysAfter(s, c);
      case FinishCmd(id, policy, child, cands) =>
        FinishIsKnown(s, id, policy, child, cands);
        FinishWhole(s, id, policy, child, cands, m);
      case CancelCmd(id) => CancelWhole(s, CancelSet(s.moves, id), m);
      case RevalueCmd(id, lc, line, delta) => RevaluedWhole(s, id, lc, line, delta, m);
      case ShrinkCmd(line, qty) => ShrinkWhole(s, line, qty, m);
    }
  }

  lemma SameKeysAfter(s: Estate, c: Cmd)
    requires c.ConfirmCmd? || c.UnreserveCmd? || c.DemandLineCmd?
    ensures Exec(s, c).Ok? ==> Exec(s, c).value.moves.Keys == s.moves.Keys
  {
  }

  lemma AssignIsLive(s: Estate, id: Id, cands: seq<Dims>)
    ensures Assign(s, id, cands).Ok? ==> id in s.moves
  {
  }

  lemma FinishIsKnown(s: Estate, id: Id, policy: Policy, child: Id, cands: seq<Dims>)
    ensures Finish(s, id, policy, child, cands).Ok? ==> id in s.moves
  {
  }

  lemma RevaluedWhole(s: Estate, id: Id, lc: Id, line: Id, delta: real, m: Id)
    requires Revalued(s, id, lc, line, delta).Ok? && m in s.moves && Whole(s, m)
    ensures m in Revalued(s, id, lc, line, delta).value.moves && Whole(Revalued(s, id, lc, line, delta).value, m)
  {
  }
}
