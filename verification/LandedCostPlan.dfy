/** A landed cost from plan to journal: the plan ties out, applying it moves the bins by exactly
    its total, and the journal is accepted exactly when no leg opposes the total. */
module LandedCostPlan {
  import opened Common
  import opened Rounding
  import opened StockTypes
  import opened LandedCost
  import Gl = MoveGl

  predicate Splittable(cs: seq<CostLine>, ts: seq<Target>) { forall c :: c in cs ==> Denominator(c, ts) != 0.0 }

  function DeltaTable(cs: seq<CostLine>, ts: seq<Target>): (m: seq<seq<real>>)
    requires Splittable(cs, ts)
    ensures Wide(m, |ts|)
  {
    seq(|cs|, j requires 0 <= j < |cs| => Deltas(cs[j], ts))
  }

  function ShareTable(cs: seq<CostLine>, ts: seq<Target>): (m: seq<seq<real>>)
    requires Splittable(cs, ts)
    ensures Wide(m, |ts|)
  {
    seq(|cs|, j requires 0 <= j < |cs| => Shares(cs[j], ts))
  }

  // ---- the plan ------------------------------------------------------------------------

  function RowsOf(c: CostLine, ts: seq<Target>, cumulative: seq<real>): (rows: seq<PlanRow>)
    requires Denominator(c, ts) != 0.0 && |cumulative| == |ts|
    ensures |rows| == |ts|
  {
    seq(|ts|, i requires 0 <= i < |ts| => PlanRow(ts[i].line, c.id, Shares(c, ts)[i], cumulative[i], ts[i].remaining))
  }

  function AllRows(cs: seq<CostLine>, ts: seq<Target>, cumulative: seq<real>): seq<PlanRow>
    requires Splittable(cs, ts) && |cumulative| == |ts|
  {
    if cs == [] then [] else AllRows(cs[..|cs| - 1], ts, cumulative) + RowsOf(cs[|cs| - 1], ts, cumulative)
  }

  function DebitLegs(ts: seq<Target>, deltas: seq<real>): seq<Leg>
    requires |deltas| == |ts|
  {
    seq(|ts|, i requires 0 <= i < |ts| => Leg(ts[i].account, deltas[i]))
  }

  function CreditLegs(cs: seq<CostLine>, ts: seq<Target>): seq<Leg>
    requires Splittable(cs, ts)
  {
    seq(|cs|, j requires 0 <= j < |cs| => Leg(cs[j].account, Total(Deltas(cs[j], ts))))
  }

  const AmountOf := (c: CostLine) => c.amount

  function PlanOf(cs: seq<CostLine>, ts: seq<Target>): Plan
    requires Splittable(cs, ts)
  {
    var deltas := Columns(DeltaTable(cs, ts), |ts|);
    Plan(AllRows(cs, ts, Columns(ShareTable(cs, ts), |ts|)), deltas,
         PushAll(DebitLegs(ts, deltas)), PushAll(CreditLegs(cs, ts)), Sum(cs, AmountOf), Total(deltas))
  }

  lemma SplittableNext(cs: seq<CostLine>, j: nat, ts: seq<Target>)
    requires j < |cs| && Splittable(cs[..j], ts) && Denominator(cs[j], ts) != 0.0
    ensures Splittable(cs[..j + 1], ts)
  {
    assert cs[..j + 1] == cs[..j] + [cs[j]];
  }

  /** One more cost line adds its rows, its credit, its deltas and its shares. */
  lemma SplitNext(cs: seq<CostLine>, j: nat, ts: seq<Target>, z: seq<real>)
    requires j < |cs| && Splittable(cs[..j], ts) && Denominator(cs[j], ts) != 0.0 && Splittable(cs[..j + 1], ts)
      && |z| == |ts|
    ensures AllRows(cs[..j + 1], ts, z) == AllRows(cs[..j], ts, z) + RowsOf(cs[j], ts, z)
    ensures CreditLegs(cs[..j + 1], ts) == CreditLegs(cs[..j], ts) + [Leg(cs[j].account, Total(Deltas(cs[j], ts)))]
    ensures PushAll(CreditLegs(cs[..j + 1], ts)) ==
      Push(PushAll(CreditLegs(cs[..j], ts)), cs[j].account, Total(Deltas(cs[j], ts)))
    ensures Columns(DeltaTable(cs[..j + 1], ts), |ts|) ==
      Plus(Columns(DeltaTable(cs[..j], ts), |ts|), Deltas(cs[j], ts))
    ensures Columns(ShareTable(cs[..j + 1], ts), |ts|) ==
      Plus(Columns(ShareTable(cs[..j], ts), |ts|), Shares(cs[j], ts))
  {
    hide Denominator, Deltas, Shares, Total, Push, Plus, RowsOf, Splittable;
    assert cs[..j + 1][..j] == cs[..j];
    assert CreditLegs(cs[..j + 1], ts)[..j] == CreditLegs(cs[..j], ts);
    assert DeltaTable(cs[..j + 1], ts)[..j] == DeltaTable(cs[..j], ts);
    assert ShareTable(cs[..j + 1], ts)[..j] == ShareTable(cs[..j], ts);
  }

  /** Every refusal comes before anything is written. */
  function Compute(cs: seq<CostLine>, ts: seq<Target>, standardCost: bool): Outcome<Plan> {
    if ts == [] then Err(LandedCostNoValuedTargets)
    else if cs == [] then Err(LandedCostNoLines)
    else if exists c :: c in cs && c.account == NoAccount then Err(LandedCostLineNeedsAccount)
    else if standardCost then Err(LandedCostRequiresCostMethod)
    else if !Splittable(cs, ts) then Err(LandedCostZeroSplitBasis)
    else Ok(PlanOf(cs, ts))
  }

  /** A document is planned exactly when it has targets and cost lines, every cost line has an account, the
      costs are not standard and every cost line has something to split by; the first of these that
      fails is the refusal. */
  lemma ComputeRefusals(cs: seq<CostLine>, ts: seq<Target>, standardCost: bool)
    ensures var r := Compute(cs, ts, standardCost);
      var bare := exists c :: c in cs && c.account == 0;
      var split := forall c :: c in cs ==> Denominator(c, ts) != 0.0;
      && (r == Err(LandedCostNoValuedTargets) <==> ts == [])
      && (r == Err(LandedCostNoLines) <==> ts != [] && cs == [])
      && (r == Err(LandedCostLineNeedsAccount) <==> ts != [] && cs != [] && bare)
      && (r == Err(LandedCostRequiresCostMethod) <==> ts != [] && cs != [] && !bare && standardCost)
      && (r == Err(LandedCostZeroSplitBasis) <==> ts != [] && cs != [] && !bare && !standardCost && !split)
      && (r.Ok? <==> ts != [] && cs != [] && !bare && !standardCost && split)
  {
    hide Denominator, PlanOf;
  }

  // ---- the plan in figures --------------------------------------------------------------

  /** What one cost line revalues target `i` by. */
  function DeltaAtW(ts: seq<Target>, i: nat): CostLine -> real
    requires i < |ts|
  {
    (c: CostLine) => if Denominator(c, ts) != 0.0 then Deltas(c, ts)[i] else 0.0
  }

  /** What target `i` bears of one cost line. */
  function ShareAtW(ts: seq<Target>, i: nat): CostLine -> real
    requires i < |ts|
  {
    (c: CostLine) => if Denominator(c, ts) != 0.0 then Shares(c, ts)[i] else 0.0
  }

  lemma {:induction false} ColumnIsTheSum(cs: seq<CostLine>, m: seq<seq<real>>, n: nat, i: nat, w: CostLine -> real)
    requires Wide(m, n) && |m| == |cs| && i < n && forall j :: 0 <= j < |cs| ==> m[j][i] == w(cs[j])
    ensures Columns(m, n)[i] == Sum(cs, w)
  {
    if cs != [] {
      var k := |cs| - 1;
      ColumnIsTheSum(cs[..k], m[..k], n, i, w);
    }
  }

  function CreditW(ts: seq<Target>, a: Acct): CostLine -> real {
    (c: CostLine) => if c.account == a && Denominator(c, ts) != 0.0 then Total(Deltas(c, ts)) else 0.0
  }

  /** The revaluations of the targets on one account, nothing for the others. */
  function DebitsAt(ts: seq<Target>, deltas: seq<real>, a: Acct): seq<real>
    requires |deltas| == |ts|
  {
    seq(|ts|, i requires 0 <= i < |ts| => if ts[i].account == a then deltas[i] else 0.0)
  }

  /** Each target is revalued by what every cost line gives it; an account is debited what its targets are
      revalued by and credited what its cost lines revalue. */
  lemma PlanInFigures(cs: seq<CostLine>, ts: seq<Target>, i: nat, a: Acct)
    requires Splittable(cs, ts) && i < |ts|
    ensures var p := PlanOf(cs, ts);
      && |p.deltas| == |ts|
      && p.deltas[i] == Sum(cs, DeltaAtW(ts, i))
      && PerAccount(p.debits, a) == Total(DebitsAt(ts, p.deltas, a))
      && PerAccount(p.credits, a) == Sum(cs, CreditW(ts, a))
      && p.amountTotal == Sum(cs, (c: CostLine) => c.amount)
  {
    var p := PlanOf(cs, ts);
    hide Denominator, Deltas, Shares;
    ColumnIsTheSum(cs, DeltaTable(cs, ts), |ts|, i, DeltaAtW(ts, i));
    PushAllTotals(DebitLegs(ts, p.deltas), a);
    PushAllTotals(CreditLegs(cs, ts), a);
    SumEqual(DebitLegs(ts, p.deltas), DebitsAt(ts, p.deltas, a), AccountW(a), Same);
    SumEqual(CreditLegs(cs, ts), cs, AccountW(a), CreditW(ts, a));
    SumEqual(cs, cs, AmountOf, (c: CostLine) => c.amount);
  }

  /** The worksheet has one row per cost line and target, in that order: the share, all shares of the target
      together, and what is still on hand of it. */
  lemma {:induction false} WorksheetRow(cs: seq<CostLine>, n: nat, ts: seq<Target>, cumulative: seq<real>, j: nat,
      i: nat)
    requires n <= |cs| && j < n && i < |ts| && Splittable(cs[..n], ts) && |cumulative| == |ts|
    ensures Denominator(cs[j], ts) != 0.0
    ensures |AllRows(cs[..n], ts, cumulative)| == n * |ts| && 0 <= j * |ts| + i < n * |ts|
    ensures AllRows(cs[..n], ts, cumulative)[j * |ts| + i] ==
      PlanRow(ts[i].line, cs[j].id, Shares(cs[j], ts)[i], cumulative[i], ts[i].remaining)
  {
    hide Denominator, Shares;
    assert cs[j] in cs[..n];
    var k := n - 1;
    assert cs[..n] == cs[..k] + [cs[k]] && cs[..n][..k] == cs[..k];
    RowsCounted(cs, k, ts, cumulative);
    OneMoreBlock(k, |ts|, j, i);
    var front, last := AllRows(cs[..k], ts, cumulative), RowsOf(cs[k], ts, cumulative);
    assert AllRows(cs[..n], ts, cumulative) == front + last;
    hide AllRows, RowsOf;
    if k > j {
      WorksheetRow(cs, k, ts, cumulative, j, i);
      assert (front + last)[j * |ts| + i] == front[j * |ts| + i];
    } else {
      RowOfCost(cs[k], ts, cumulative, i);
      assert (front + last)[|front| + i] == last[i];
    }
  }

  lemma RowOfCost(c: CostLine, ts: seq<Target>, cumulative: seq<real>, i: nat)
    requires Denominator(c, ts) != 0.0 && |cumulative| == |ts| && i < |ts|
    ensures RowsOf(c, ts, cumulative)[i] == PlanRow(ts[i].line, c.id, Shares(c, ts)[i], cumulative[i], ts[i].remaining)
  {
  }

  lemma OneMoreBlock(k: nat, size: nat, j: nat, i: nat)
    requires j <= k && i < size
    ensures (k + 1) * size == k * size + size
    ensures 0 <= j * size + i < (k + 1) * size && (j < k ==> j * size + i < k * size)
  {
    if j < k { assert (j + 1) * size <= k * size; }
  }

  lemma {:induction false} RowsCounted(cs: seq<CostLine>, n: nat, ts: seq<Target>, cumulative: seq<real>)
    requires n <= |cs| && Splittable(cs[..n], ts) && |cumulative| == |ts|
    ensures |AllRows(cs[..n], ts, cumulative)| == n * |ts|
  {
    if n > 0 {
      var k := n - 1;
      assert cs[..n] == cs[..k] + [cs[k]] && cs[..n][..k] == cs[..k];
      RowsCounted(cs, k, ts, cumulative);
      assert n * |ts| == k * |ts| + |ts|;
    }
  }

  /** So the plan's own worksheet. */
  lemma PlanRowIs(cs: seq<CostLine>, ts: seq<Target>, j: nat, i: nat)
    requires Splittable(cs, ts) && j < |cs| && i < |ts|
    ensures Denominator(cs[j], ts) != 0.0
    ensures var p := PlanOf(cs, ts);
      && |p.rows| == |cs| * |ts| && 0 <= j * |ts| + i < |p.rows|
      && p.rows[j * |ts| + i] ==
         PlanRow(ts[i].line, cs[j].id, Shares(cs[j], ts)[i], Sum(cs, ShareAtW(ts, i)), ts[i].remaining)
  {
    hide Denominator, Shares, Deltas, AllRows, PushAll;
    assert cs[..|cs|] == cs;
    ColumnIsTheSum(cs, ShareTable(cs, ts), |ts|, i, ShareAtW(ts, i));
    WorksheetRow(cs, |cs|, ts, Columns(ShareTable(cs, ts), |ts|), j, i);
  }

  const ShareOf := (r: PlanRow) => r.share

  function LineShareW(line: Id): PlanRow -> real { (r: PlanRow) => if r.line == line then r.share else 0.0 }

  lemma {:induction false} WorksheetTotal(cs: seq<CostLine>, ts: seq<Target>, cumulative: seq<real>)
    requires Splittable(cs, ts) && |cumulative| == |ts| && ts != []
    ensures Sum(AllRows(cs, ts, cumulative), ShareOf) == Sum(cs, AmountOf)
  {
    if cs != [] {
      var n := |cs| - 1;
      WorksheetTotal(cs[..n], ts, cumulative);
      var rows := RowsOf(cs[n], ts, cumulative);
      SumConcat(AllRows(cs[..n], ts, cumulative), rows, ShareOf);
      SumEqual(rows, Shares(cs[n], ts), ShareOf, Same);
      SharesAreTheAmount(cs[n], ts);
    }
  }

  lemma {:induction false} CreditsAreTheRows(cs: seq<CostLine>, ts: seq<Target>)
    requires Splittable(cs, ts)
    ensures Sum(CreditLegs(cs, ts), LegAmount) == Sum(DeltaTable(cs, ts), TotalOf)
  {
    SumEqual(CreditLegs(cs, ts), DeltaTable(cs, ts), LegAmount, TotalOf);
  }

  /** The tie-out: the debits summed per target, the credits summed per cost line and the revalued
      total are one amount, and the worksheet adds up to the document, for any lines and accounts. */
  lemma TieOut(cs: seq<CostLine>, ts: seq<Target>)
    requires Splittable(cs, ts) && ts != []
    ensures var p := PlanOf(cs, ts);
      && Sum(p.debits, LegAmount) == p.revalued
      && Sum(p.credits, LegAmount) == p.revalued
      && Total(p.deltas) == p.revalued
      && Sum(p.rows, ShareOf) == p.amountTotal
      && OncePerAccount(p.debits) && OncePerAccount(p.credits)
  {
    var p := PlanOf(cs, ts);
    PushAllTotals(DebitLegs(ts, p.deltas), 0);
    PushAllTotals(CreditLegs(cs, ts), 0);
    SumEqual(DebitLegs(ts, p.deltas), p.deltas, LegAmount, Same);
    ColumnsTotal(DeltaTable(cs, ts), |ts|);
    CreditsAreTheRows(cs, ts);
    WorksheetTotal(cs, ts, Columns(ShareTable(cs, ts), |ts|));
  }

  // ---- the journal ------------------------------------------------------------------------

  function DebitLines(legs: seq<Leg>): seq<Gl.GlLine> {
    seq(|legs|, i requires 0 <= i < |legs| => Gl.Debit(legs[i].account, Gl.InventoryLeg, Abs(legs[i].amount)))
  }

  function CreditLines(legs: seq<Leg>): seq<Gl.GlLine> {
    seq(|legs|, i requires 0 <= i < |legs| => Gl.Credit(legs[i].account, Gl.LandedCostLeg, Abs(legs[i].amount)))
  }

  function JournalLines(debits: seq<Leg>, credits: seq<Leg>, total: real): seq<Gl.GlLine> {
    if total >= 0.0 then DebitLines(debits) + CreditLines(credits) else DebitLines(credits) + CreditLines(debits)
  }

  /** Absolute amounts, the sides swapped for a negative document, refused unless both sides carry
      the total. */
  function LcEnvelope(debits: seq<Leg>, credits: seq<Leg>, total: real): Outcome<seq<Gl.GlLine>> {
    var lines := JournalLines(debits, credits, total);
    if Sum(lines, Gl.DebitW) != Abs(total) || Sum(lines, Gl.CreditW) != Abs(total)
    then Err(LandedCostAllocationMismatch) else Ok(lines)
  }

  const AbsLeg := (l: Leg) => Abs(l.amount)

  /** No leg has the sign opposite to the total. */
  predicate OneSign(legs: seq<Leg>, total: real) {
    forall i :: 0 <= i < |legs| ==> (total >= 0.0 ==> legs[i].amount >= 0.0) && (total <= 0.0 ==> legs[i].amount <= 0.0)
  }

  lemma JournalSums(debits: seq<Leg>, credits: seq<Leg>, total: real)
    ensures var lines := JournalLines(debits, credits, total);
      && Sum(lines, Gl.DebitW) == Sum(if total >= 0.0 then debits else credits, AbsLeg)
      && Sum(lines, Gl.CreditW) == Sum(if total >= 0.0 then credits else debits, AbsLeg)
  {
    var dr, cr := if total >= 0.0 then debits else credits, if total >= 0.0 then credits else debits;
    SumConcat(DebitLines(dr), CreditLines(cr), Gl.DebitW);
    SumConcat(DebitLines(dr), CreditLines(cr), Gl.CreditW);
    SumEqual(DebitLines(dr), dr, Gl.DebitW, AbsLeg);
    SumZero(DebitLines(dr), Gl.CreditW);
    SumZero(CreditLines(cr), Gl.DebitW);
    SumEqual(CreditLines(cr), cr, Gl.CreditW, AbsLeg);
  }

  const LossUp := (l: Leg) => Abs(l.amount) - l.amount
  const LossDown := (l: Leg) => Abs(l.amount) + l.amount
  const Negated := (l: Leg) => -l.amount

  lemma {:induction false} NegatedSum(legs: seq<Leg>)
    ensures Sum(legs, Negated) == -Sum(legs, LegAmount)
  {
    if legs != [] { NegatedSum(legs[..|legs| - 1]); }
  }

  /** Absolute amounts add up to the absolute total exactly when no leg opposes it. */
  lemma AbsoluteTotal(legs: seq<Leg>, total: real)
    requires Sum(legs, LegAmount) == total
    ensures Sum(legs, AbsLeg) == Abs(total) <==> OneSign(legs, total)
  {
    NegatedSum(legs);
    SumAdd(legs, legs, legs, AbsLeg, LossUp, LegAmount);
    SumAdd(legs, legs, legs, AbsLeg, LossDown, Negated);
    SumNonNegative(legs, LossUp);
    SumNonNegative(legs, LossDown);
    if OneSign(legs, total) {
      if total >= 0.0 { SumZero(legs, LossUp); } else { SumZero(legs, LossDown); }
    } else {
      var i :| 0 <= i < |legs|
        && !((total >= 0.0 ==> legs[i].amount >= 0.0) && (total <= 0.0 ==> legs[i].amount <= 0.0));
      assert LossUp(legs[i]) <= Sum(legs, LossUp) && LossDown(legs[i]) <= Sum(legs, LossDown);
    }
  }

  /** When both sides carry the total, the journal is accepted exactly when every leg on each side
      has the sign of the total or is zero, and then it balances at the absolute total. */
  lemma EnvelopeIffOneSign(debits: seq<Leg>, credits: seq<Leg>, total: real)
    requires Sum(debits, LegAmount) == total && Sum(credits, LegAmount) == total
    ensures var env := LcEnvelope(debits, credits, total);
      && (env.Ok? <==> OneSign(debits, total) && OneSign(credits, total))
      && (env.Ok? ==> Gl.Balanced(env.value) && Sum(env.value, Gl.DebitW) == Abs(total))
  {
    JournalSums(debits, credits, total);
    AbsoluteTotal(debits, total);
    AbsoluteTotal(credits, total);
  }

  function NetW(a: Acct): Gl.GlLine -> real { (l: Gl.GlLine) => if l.account == a then l.debit - l.credit else 0.0 }

  function OpposedW(a: Acct): Leg -> real { (l: Leg) => if l.account == a then -l.amount else 0.0 }

  lemma {:induction false} OpposedSum(legs: seq<Leg>, a: Acct)
    ensures Sum(legs, OpposedW(a)) == -PerAccount(legs, a)
  {
    if legs != [] { OpposedSum(legs[..|legs| - 1], a); }
  }

  /** An accepted journal moves every account by what its debit legs and its credit legs plan for it,
      whichever sign the document has. */
  lemma JournalMovesAccounts(debits: seq<Leg>, credits: seq<Leg>, total: real, a: Acct)
    requires OneSign(debits, total) && OneSign(credits, total)
    ensures Sum(JournalLines(debits, credits, total), NetW(a)) == PerAccount(debits, a) - PerAccount(credits, a)
  {
    OpposedSum(debits, a);
    OpposedSum(credits, a);
    if total >= 0.0 {
      SumConcat(DebitLines(debits), CreditLines(credits), NetW(a));
      SumEqual(DebitLines(debits), debits, NetW(a), AccountW(a));
      SumEqual(CreditLines(credits), credits, NetW(a), OpposedW(a));
    } else {
      SumConcat(DebitLines(credits), CreditLines(debits), NetW(a));
      SumEqual(DebitLines(credits), credits, NetW(a), OpposedW(a));
      SumEqual(CreditLines(debits), debits, NetW(a), AccountW(a));
    }
  }

  /** What becomes of the plan's journal: a document with nothing to post retires its leg, any other
      offers a journal or is refused one. */
  datatype LcPosting = Retires | Offers(lines: seq<Gl.GlLine>) | Refuses(error: Error)

  function Offered(envelope: Outcome<seq<Gl.GlLine>>): LcPosting {
    match envelope case Ok(lines) => Offers(lines) case Err(e) => Refuses(e)
  }

  /** The posting phase of a validated plan: it asks for periodic valuation and a zero revaluation
      before it builds the journal. */
  function PostPhase(p: Plan, periodic: bool): LcPosting {
    if periodic || p.revalued == 0.0 then Retires else Offered(LcEnvelope(p.debits, p.credits, p.revalued))
  }

  /** So a validated landed cost retires its leg exactly under periodic valuation or when it revalues
      nothing, and otherwise posts exactly when no account's total opposes the revaluation. */
  lemma PlanPosts(cs: seq<CostLine>, ts: seq<Target>, periodic: bool)
    requires Splittable(cs, ts) && ts != []
    ensures var p := PlanOf(cs, ts); var phase := PostPhase(p, periodic);
      && (phase.Retires? <==> periodic || p.revalued == 0.0)
      && (phase.Offers? <==>
            && !periodic && p.revalued != 0.0
            && OneSign(p.debits, p.revalued) && OneSign(p.credits, p.revalued))
      && (phase.Offers? ==> Gl.Balanced(phase.lines) && Sum(phase.lines, Gl.DebitW) == Abs(p.revalued))
  {
    TieOut(cs, ts);
    hide PlanOf, OneSign;
    var p := PlanOf(cs, ts);
    EnvelopeIffOneSign(p.debits, p.credits, p.revalued);
    hide LcEnvelope;
  }
}
