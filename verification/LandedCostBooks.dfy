/** A landed cost on the books: applying a plan moves the bins by exactly its revalued total, and
    the journal rebuilt from what was written is the planned one, account by account. */
module LandedCostBooks {
  import opened Common
  import opened Rounding
  import opened StockTypes
  import opened Valuation
  import opened ValuationLaws
  import opened LandedCost
  import opened LandedCostPlan

  /** Revalue each target in turn; one refusal rolls the whole transaction back. */
  function Apply(books: Books, ts: seq<Target>, deltas: seq<real>, lc: Id): Outcome<Books>
    requires |deltas| == |ts|
  {
    if ts == [] then Ok(books) else
    var n := |ts| - 1;
    match Apply(books, ts[..n], deltas[..n], lc)
    case Err(e) => Err(e)
    case Ok(b) => AdjustMoveValue(b, ts[n].item, ts[n].dst, lc, ts[n].line, deltas[n])
  }

  // ---- what the application writes --------------------------------------------------------

  datatype Revaluation = Revaluation(line: Id, delta: real)

  predicate RevaluedFor(r: Row, lc: Id) { r.voucher.LandedCost? && r.voucher.lc == lc }

  /** The ledger rows minted for a landed cost, as a repost reads them. */
  function Revaluations(rows: seq<Row>, lc: Id): seq<Revaluation> {
    if rows == [] then [] else
    var r := rows[|rows| - 1];
    Revaluations(rows[..|rows| - 1], lc) + (if RevaluedFor(r, lc) then [Revaluation(r.voucher.line, r.diff)] else [])
  }

  /** The targets a plan revalues: a zero delta mints nothing. */
  function NonZero(ts: seq<Target>, deltas: seq<real>): seq<Revaluation>
    requires |deltas| == |ts|
  {
    if ts == [] then [] else
    var n := |ts| - 1;
    NonZero(ts[..n], deltas[..n]) + (if deltas[n] != 0.0 then [Revaluation(ts[n].line, deltas[n])] else [])
  }

  predicate NeverRevalued(rows: seq<Row>, lc: Id) { forall i :: 0 <= i < |rows| ==> !RevaluedFor(rows[i], lc) }

  lemma {:induction false} NoRevaluations(rows: seq<Row>, lc: Id)
    requires NeverRevalued(rows, lc)
    ensures Revaluations(rows, lc) == []
  {
    if rows != [] { NoRevaluations(rows[..|rows| - 1], lc); }
  }

  lemma {:induction false} RevaluationIsARow(rows: seq<Row>, lc: Id, line: Id)
    requires exists r :: r in rows && r.voucher == LandedCost(lc, line)
    ensures exists i :: 0 <= i < |Revaluations(rows, lc)| && Revaluations(rows, lc)[i].line == line
  {
    var n := |rows| - 1;
    var front := Revaluations(rows[..n], lc);
    if rows[n].voucher == LandedCost(lc, line) {
      assert Revaluations(rows, lc)[|front|].line == line;
    } else {
      var r :| r in rows && r.voucher == LandedCost(lc, line);
      assert r in rows[..n];
      RevaluationIsARow(rows[..n], lc, line);
      var i :| 0 <= i < |front| && front[i].line == line;
      assert Revaluations(rows, lc)[i] == front[i];
    }
  }

  predicate LineIn(ts: seq<Target>, line: Id) { exists j :: 0 <= j < |ts| && ts[j].line == line }

  lemma {:induction false} NonZeroLines(ts: seq<Target>, deltas: seq<real>)
    requires |deltas| == |ts|
    ensures forall i :: 0 <= i < |NonZero(ts, deltas)| ==> LineIn(ts, NonZero(ts, deltas)[i].line)
  {
    if ts != [] {
      var n := |ts| - 1;
      var front := NonZero(ts[..n], deltas[..n]);
      NonZeroLines(ts[..n], deltas[..n]);
      forall i | 0 <= i < |NonZero(ts, deltas)| ensures LineIn(ts, NonZero(ts, deltas)[i].line) {
        if i < |front| {
          assert NonZero(ts, deltas)[i] == front[i];
          var j :| 0 <= j < n && ts[..n][j].line == front[i].line;
          assert ts[j].line == front[i].line;
        } else {
          assert ts[n].line == NonZero(ts, deltas)[i].line;
        }
      }
    }
  }

  /** Applying a plan whose landed cost never touched the ledger changes the value of all bins by
      exactly the plan's total and mints one row per non-zero delta, in order. */
  lemma {:induction false} ApplyRevalues(books: Books, ts: seq<Target>, deltas: seq<real>, lc: Id)
    requires |deltas| == |ts| && Ordered(ts) && NeverRevalued(books.rows, lc) && Reconstructs(books)
    requires Apply(books, ts, deltas, lc).Ok?
    ensures var after := Apply(books, ts, deltas, lc).value;
      && Reconstructs(after)
      && TotalValue(after) == TotalValue(books) + Total(deltas)
      && Revaluations(after.rows, lc) == NonZero(ts, deltas)
  {
    if ts == [] {
      NoRevaluations(books.rows, lc);
    } else {
      var n := |ts| - 1;
      ApplyRevalues(books, ts[..n], deltas[..n], lc);
      var b := Apply(books, ts[..n], deltas[..n], lc).value;
      NotYetRevalued(b.rows, ts, deltas, lc);
      AdjustReconstructs(b, ts[n].item, ts[n].dst, lc, ts[n].line, deltas[n]);
      AdjustRevalues(b, ts[n], lc, deltas[n]);
      hide AdjustMoveValue, Reconstructs;
    }
  }

  lemma AdjustRevalues(books: Books, t: Target, lc: Id, delta: real)
    requires AdjustMoveValue(books, t.item, t.dst, lc, t.line, delta).Ok?
    requires !exists r :: r in books.rows && r.voucher == LandedCost(lc, t.line)
    ensures var after := AdjustMoveValue(books, t.item, t.dst, lc, t.line, delta).value;
      && TotalValue(after) == TotalValue(books) + delta
      && Revaluations(after.rows, lc) == Revaluations(books.rows, lc) +
         (if delta != 0.0 then [Revaluation(t.line, delta)] else [])
  {
    if delta != 0.0 {
      var k := KeyOf(t.item, t.dst).value;
      var after := StepBin(BinAt(books.bins, k), Revalue(delta));
      PostTotal(books, LandedCost(lc, t.line), k, 0.0, 0.0, after, delta);
      hide StepBin;
    }
  }

  lemma NotYetRevalued(rows: seq<Row>, ts: seq<Target>, deltas: seq<real>, lc: Id)
    requires |deltas| == |ts| && ts != [] && Ordered(ts)
    requires Revaluations(rows, lc) == NonZero(ts[..|ts| - 1], deltas[..|ts| - 1])
    ensures !exists r :: r in rows && r.voucher == LandedCost(lc, ts[|ts| - 1].line)
  {
    var n := |ts| - 1;
    NonZeroLines(ts[..n], deltas[..n]);
    if exists r :: r in rows && r.voucher == LandedCost(lc, ts[n].line) {
      RevaluationIsARow(rows, lc, ts[n].line);
      assert false;
    }
  }

  /** A plan is applied unless a target with something to revalue lies in no valued bin. */
  lemma {:induction false} ApplyRefuses(books: Books, ts: seq<Target>, deltas: seq<real>, lc: Id)
    requires |deltas| == |ts|
    ensures Apply(books, ts, deltas, lc).Ok?
      <==> forall i :: 0 <= i < |ts| && deltas[i] != 0.0 ==> KeyOf(ts[i].item, ts[i].dst).Some?
  {
    if ts != [] {
      var n := |ts| - 1;
      ApplyRefuses(books, ts[..n], deltas[..n], lc);
      assert forall i :: 0 <= i < n ==> ts[..n][i] == ts[i] && deltas[..n][i] == deltas[i];
    }
  }

  // ---- the repost ---------------------------------------------------------------------------

  function LineIs(line: Id): Target -> bool { (t: Target) => t.line == line }
  function CostIs(id: Id): CostLine -> bool { (c: CostLine) => c.id == id }

  /** One debit per revaluation row, on its line's account. */
  function RepostDebits(revs: seq<Revaluation>, ts: seq<Target>): Outcome<seq<Leg>> {
    if revs == [] then Ok([]) else
    var r := revs[|revs| - 1];
    match RepostDebits(revs[..|revs| - 1], ts)
    case Err(e) => Err(e)
    case Ok(legs) =>
      match First(ts, LineIs(r.line))
      case None => Err(LandedCostNoValuationAccount)
      case Some(t) => Ok(legs + [Leg(t.account, r.delta)])
  }

  /** One credit per worksheet row whose cost line still exists: its share scaled by what remained
      over the quantity its line now shows. */
  function RepostCredits(rows: seq<PlanRow>, cs: seq<CostLine>, ts: seq<Target>): Outcome<seq<Leg>> {
    if rows == [] then Ok([]) else
    match RepostCredits(rows[..|rows| - 1], cs, ts)
    case Err(e) => Err(e)
    case Ok(legs) =>
      match RowCredit(rows[|rows| - 1], cs, ts)
      case Err(e) => Err(e)
      case Ok(credit) => Ok(legs + credit)
  }

  /** A row's credit, or none for a row that names no cost line or whose line shows no quantity. */
  function RowCredit(w: PlanRow, cs: seq<CostLine>, ts: seq<Target>): Outcome<seq<Leg>> {
    match First(cs, CostIs(w.cost))
    case None => Ok([])
    case Some(c) =>
      match First(ts, LineIs(w.line))
      case None => Err(LandedCostNoValuationAccount)
      case Some(t) =>
        if t.lineQty == 0.0 then Ok([]) else Ok([Leg(c.account, Money(Part(w.share, w.remaining, t.lineQty)))])
  }

  const DeltaOf := (r: Revaluation) => r.delta

  datatype Reposted = Reposted(debits: seq<Leg>, credits: seq<Leg>, total: real)

  function Rebuild(revs: seq<Revaluation>, rows: seq<PlanRow>, cs: seq<CostLine>, ts: seq<Target>): Outcome<Reposted> {
    match RepostDebits(revs, ts)
    case Err(e) => Err(e)
    case Ok(debits) =>
      match RepostCredits(rows, cs, ts)
      case Err(e) => Err(e)
      case Ok(credits) => Ok(Reposted(PushAll(debits), PushAll(credits), Sum(revs, DeltaOf)))
  }

  /** What a repost makes of a share: it divides by the quantity the target's line shows by then. */
  function RepostDelta(share: real, t: Target): real {
    if t.lineQty == 0.0 then 0.0 else Money(Part(share, t.remaining, t.lineQty))
  }

  function Rebuilt(c: CostLine, ts: seq<Target>): (r: seq<real>)
    requires Denominator(c, ts) != 0.0
    ensures |r| == |ts|
  {
    seq(|ts|, i requires 0 <= i < |ts| => RepostDelta(Share(c, ts, i), ts[i]))
  }

  /** What a repost makes of a share is, to half a cent, the fraction that was on hand of what its line shows
      by then; nothing where the line shows nothing. */
  lemma RebuiltNearPart(c: CostLine, ts: seq<Target>, i: nat)
    requires i < |ts| && Denominator(c, ts) != 0.0
    ensures ts[i].lineQty != 0.0 ==>
      Proportionate(Rebuilt(c, ts)[i], Shares(c, ts)[i], ts[i].remaining, ts[i].lineQty)
    ensures ts[i].lineQty == 0.0 ==> Rebuilt(c, ts)[i] == 0.0
  {
    hide Share;
    var share := Shares(c, ts)[i];
    assert share == Share(c, ts, i);
    if ts[i].lineQty != 0.0 {
      var part := Part(share, ts[i].remaining, ts[i].lineQty);
      MoneyFacts(part);
      assert part == share * ts[i].remaining / ts[i].lineQty;
    }
    hide Money, Part;
  }

  function RebuiltLegs(cs: seq<CostLine>, ts: seq<Target>): seq<Leg>
    requires Splittable(cs, ts)
  {
    seq(|cs|, j requires 0 <= j < |cs| => Leg(cs[j].account, Total(Rebuilt(cs[j], ts))))
  }

  /** The targets a receipt mints have one execution line each, so line and move agree. */
  predicate SingleLined(ts: seq<Target>) { forall i :: 0 <= i < |ts| ==> ts[i].lineQty == ts[i].done }

  predicate DistinctCosts(cs: seq<CostLine>) { forall i, j :: 0 <= i < j < |cs| ==> cs[i].id != cs[j].id }

  lemma LegsAppend(legs: seq<Leg>, l: Leg, a: Acct)
    ensures PerAccount(legs + [l], a) == PerAccount(legs, a) + AccountW(a)(l)
    ensures Sum(legs + [l], LegAmount) == Sum(legs, LegAmount) + l.amount
  {
    SumAppend(legs, l, AccountW(a));
    SumAppend(legs, l, LegAmount);
  }

  /** Reading one more revaluation row opens one more debit. */
  lemma DebitOneMore(revs: seq<Revaluation>, ts: seq<Target>, k: nat, delta: real, a: Acct)
    requires k < |ts| && Ordered(ts) && RepostDebits(revs, ts).Ok?
    ensures var r := RepostDebits(revs + [Revaluation(ts[k].line, delta)], ts);
      var legs := RepostDebits(revs, ts).value;
      && r == Ok(legs + [Leg(ts[k].account, delta)])
      && PerAccount(r.value, a) == PerAccount(legs, a) + AccountW(a)(Leg(ts[k].account, delta))
      && Sum(r.value, LegAmount) == Sum(legs, LegAmount) + delta
      && Sum(revs + [Revaluation(ts[k].line, delta)], DeltaOf) == Sum(revs, DeltaOf) + delta
  {
    var row := Revaluation(ts[k].line, delta);
    FirstIs(ts, k, LineIs(ts[k].line));
    assert (revs + [row])[..|revs|] == revs;
    LegsAppend(RepostDebits(revs, ts).value, Leg(ts[k].account, delta), a);
    SumAppend(revs, row, DeltaOf);
  }

  lemma {:induction false} DebitsRebuilt(ts: seq<Target>, n: nat, deltas: seq<real>, a: Acct)
    requires n <= |ts| && |deltas| == n && Ordered(ts)
    ensures var r := RepostDebits(NonZero(ts[..n], deltas), ts);
      && r.Ok?
      && PerAccount(r.value, a) == PerAccount(DebitLegs(ts[..n], deltas), a)
      && Sum(r.value, LegAmount) == Total(deltas)
      && Sum(NonZero(ts[..n], deltas), DeltaOf) == Total(deltas)
  {
    if n > 0 {
      var k := n - 1;
      DebitsRebuilt(ts, k, deltas[..k], a);
      assert ts[..n][..k] == ts[..k];
      var revs := NonZero(ts[..k], deltas[..k]);
      assert DebitLegs(ts[..n], deltas)[..k] == DebitLegs(ts[..k], deltas[..k]);
      if deltas[k] != 0.0 {
        assert NonZero(ts[..n], deltas) == revs + [Revaluation(ts[k].line, deltas[k])];
        DebitOneMore(revs, ts, k, deltas[k], a);
      } else {
        assert NonZero(ts[..n], deltas) == revs;
      }
      hide RepostDebits;
    }
  }

  /** Reposting after more worksheet rows appends their legs. */
  lemma {:induction false} CreditRowsAppend(more: seq<PlanRow>, rows: seq<PlanRow>, cs: seq<CostLine>, ts: seq<Target>)
    requires RepostCredits(more, cs, ts).Ok? && RepostCredits(rows, cs, ts).Ok?
    ensures RepostCredits(rows + more, cs, ts) ==
      Ok(RepostCredits(rows, cs, ts).value + RepostCredits(more, cs, ts).value)
  {
    if more == [] {
      assert rows + more == rows;
      assert RepostCredits(rows, cs, ts).value + [] == RepostCredits(rows, cs, ts).value;
    } else {
      var n := |more| - 1;
      CreditRowsAppend(more[..n], rows, cs, ts);
      assert (rows + more)[..|rows| + n] == rows + more[..n];
      hide RowCredit;
      var legs, front := RepostCredits(rows, cs, ts).value, RepostCredits(more[..n], cs, ts).value;
      var last := RowCredit(more[n], cs, ts).value;
      assert legs + front + last == legs + (front + last);
    }
  }

  /** Reading one more worksheet row of a known cost and line credits its delta. */
  lemma {:induction false} CreditOneMore(rows: seq<PlanRow>, w: PlanRow, cs: seq<CostLine>, j: nat, ts: seq<Target>,
      k: nat, a: Acct)
    requires j < |cs| && DistinctCosts(cs) && k < |ts| && Ordered(ts)
    requires w.cost == cs[j].id && w.line == ts[k].line && w.remaining == ts[k].remaining
    requires RepostCredits(rows, cs, ts).Ok?
    ensures var r := RepostCredits(rows + [w], cs, ts); var legs := RepostCredits(rows, cs, ts).value;
      var delta := RepostDelta(w.share, ts[k]);
      && r.Ok?
      && PerAccount(r.value, a) == PerAccount(legs, a) + (if cs[j].account == a then delta else 0.0)
      && Sum(r.value, LegAmount) == Sum(legs, LegAmount) + delta
  {
    hide Money, Part;
    FirstIs(cs, j, CostIs(w.cost));
    FirstIs(ts, k, LineIs(w.line));
    assert (rows + [w])[..|rows|] == rows;
    var legs := RepostCredits(rows, cs, ts).value;
    assert legs + [] == legs;
    if ts[k].lineQty != 0.0 { LegsAppend(legs, Leg(cs[j].account, RepostDelta(w.share, ts[k])), a); }
  }

  lemma RowAt(c: CostLine, ts: seq<Target>, cumulative: seq<real>, k: nat)
    requires Denominator(c, ts) != 0.0 && k < |ts| == |cumulative|
    ensures var w := RowsOf(c, ts, cumulative)[k];
      && w.cost == c.id && w.line == ts[k].line && w.remaining == ts[k].remaining
      && Rebuilt(c, ts)[k] == RepostDelta(w.share, ts[k])
  {
  }

  lemma {:induction false} CreditRowsRebuilt(cs: seq<CostLine>, j: nat, ts: seq<Target>, n: nat, cumulative: seq<real>,
      a: Acct)
    requires j < |cs| && DistinctCosts(cs) && Ordered(ts) && n <= |ts| == |cumulative|
    requires Denominator(cs[j], ts) != 0.0
    ensures var r := RepostCredits(RowsOf(cs[j], ts, cumulative)[..n], cs, ts);
      && r.Ok?
      && PerAccount(r.value, a) == (if cs[j].account == a then Total(Rebuilt(cs[j], ts)[..n]) else 0.0)
      && Sum(r.value, LegAmount) == Total(Rebuilt(cs[j], ts)[..n])
  {
    if n > 0 {
      hide RepostCredits, RepostDelta, Rebuilt, RowsOf, Denominator, DistinctCosts, Ordered, PerAccount, Total;
      var k, c := n - 1, cs[j];
      var all, row := RowsOf(c, ts, cumulative), Rebuilt(c, ts);
      RowAt(c, ts, cumulative, k);
      CreditRowsRebuilt(cs, j, ts, k, cumulative, a);
      CreditOneMore(all[..k], all[k], cs, j, ts, k, a);
      assert all[..n] == all[..k] + [all[k]];
      TotalNext(row, k);
    } else {
      NoCredits(cs, ts, a);
    }
  }

  lemma TotalNext(xs: seq<real>, k: nat)
    requires k < |xs|
    ensures Total(xs[..k + 1]) == Total(xs[..k]) + xs[k]
  {
    assert xs[..k + 1][..k] == xs[..k];
  }

  lemma NoCredits(cs: seq<CostLine>, ts: seq<Target>, a: Acct)
    ensures RepostCredits([], cs, ts) == Ok([]) && PerAccount([], a) == 0.0 && Total([]) == 0.0
  {
  }

  lemma RebuiltLegsNext(cs: seq<CostLine>, j: nat, ts: seq<Target>)
    requires 0 < j <= |cs| && Splittable(cs, ts)
    ensures Splittable(cs[..j], ts) && Splittable(cs[..j - 1], ts) && Denominator(cs[j - 1], ts) != 0.0
    ensures RebuiltLegs(cs[..j], ts) ==
            RebuiltLegs(cs[..j - 1], ts) + [Leg(cs[j - 1].account, Total(Rebuilt(cs[j - 1], ts)))]
  {
  }

  lemma {:induction false} CreditsRebuilt(cs: seq<CostLine>, j: nat, ts: seq<Target>, cumulative: seq<real>, a: Acct)
    requires j <= |cs| && DistinctCosts(cs) && Ordered(ts) && |ts| == |cumulative|
    requires Splittable(cs, ts)
    ensures var r := RepostCredits(AllRows(cs[..j], ts, cumulative), cs, ts);
      && r.Ok?
      && PerAccount(r.value, a) == PerAccount(RebuiltLegs(cs[..j], ts), a)
      && Sum(r.value, LegAmount) == Sum(RebuiltLegs(cs[..j], ts), LegAmount)
  {
    if j > 0 {
      RebuiltLegsNext(cs, j, ts);
      hide Sum, RowCredit, Share, Denominator, Rebuilt, RowsOf, Columns, DistinctCosts, Ordered, RepostCredits, AllRows,
        RebuiltLegs, Total;
      var i := j - 1;
      CreditsRebuilt(cs, i, ts, cumulative, a);
      CreditRowsRebuilt(cs, i, ts, |ts|, cumulative, a);
      SplitNext(cs, i, ts, cumulative);
      var front, more := AllRows(cs[..i], ts, cumulative), RowsOf(cs[i], ts, cumulative);
      assert more[..|ts|] == more && Rebuilt(cs[i], ts)[..|ts|] == Rebuilt(cs[i], ts);
      CreditRowsAppend(more, front, cs, ts);
      var legs := RepostCredits(front, cs, ts).value;
      SumConcat(legs, RepostCredits(more, cs, ts).value, AccountW(a));
      SumConcat(legs, RepostCredits(more, cs, ts).value, LegAmount);
      LegsAppend(RebuiltLegs(cs[..i], ts), Leg(cs[i].account, Total(Rebuilt(cs[i], ts))), a);
    }
  }

  /** Where every line still shows the done quantity, the rebuilt credits are the planned ones. */
  lemma SingleLinedRebuilds(cs: seq<CostLine>, ts: seq<Target>)
    requires Splittable(cs, ts) && SingleLined(ts)
    ensures RebuiltLegs(cs, ts) == CreditLegs(cs, ts)
  {
    forall j | 0 <= j < |cs| ensures Rebuilt(cs[j], ts) == Deltas(cs[j], ts) {}
    hide Denominator, Deltas, Rebuilt;
  }

  /** The repost refines the validation: from the ledger rows the plan minted and the worksheet it
      stored, the rebuilt debits have the planned total on every account, and the credits what the
      worksheet comes to over the quantities the lines now show: the planned ones if those are the
      done quantities. */
  lemma RepostRefinesThePlan(books: Books, cs: seq<CostLine>, ts: seq<Target>, lc: Id, a: Acct)
    requires Splittable(cs, ts) && Ordered(ts) && DistinctCosts(cs)
    requires NeverRevalued(books.rows, lc) && Reconstructs(books)
    requires Apply(books, ts, PlanOf(cs, ts).deltas, lc).Ok?
    ensures var p := PlanOf(cs, ts); var after := Apply(books, ts, p.deltas, lc).value;
      var r := Rebuild(Revaluations(after.rows, lc), p.rows, cs, ts);
      && r.Ok?
      && PerAccount(r.value.debits, a) == PerAccount(p.debits, a)
      && r.value.total == p.revalued == Sum(r.value.debits, LegAmount)
      && PerAccount(r.value.credits, a) == PerAccount(RebuiltLegs(cs, ts), a)
      && Sum(r.value.credits, LegAmount) == Sum(RebuiltLegs(cs, ts), LegAmount)
      && (SingleLined(ts) ==> PerAccount(r.value.credits, a) == PerAccount(p.credits, a))
      && (SingleLined(ts) ==> Sum(r.value.credits, LegAmount) == p.revalued)
      && OncePerAccount(r.value.debits) && OncePerAccount(r.value.credits)
  {
    var p := PlanOf(cs, ts);
    ApplyRevalues(books, ts, p.deltas, lc);
    assert ts[..|ts|] == ts && cs[..|cs|] == cs;
    DebitsRebuilt(ts, |ts|, p.deltas, a);
    var cumulative := Columns(ShareTable(cs, ts), |ts|);
    CreditsRebuilt(cs, |cs|, ts, cumulative, a);
    PushAllTotals(RepostDebits(NonZero(ts, p.deltas), ts).value, a);
    PushAllTotals(RepostCredits(p.rows, cs, ts).value, a);
    PushAllTotals(DebitLegs(ts, p.deltas), a);
    PushAllTotals(CreditLegs(cs, ts), a);
    SumEqual(CreditLegs(cs, ts), DeltaTable(cs, ts), LegAmount, TotalOf);
    ColumnsTotal(DeltaTable(cs, ts), |ts|);
    if SingleLined(ts) { SingleLinedRebuilds(cs, ts); }
  }

  // ---- journals with the same account totals are accepted together --------------------------

  lemma {:induction false} OneEntry(legs: seq<Leg>, i: nat)
    requires OncePerAccount(legs) && i < |legs|
    ensures PerAccount(legs, legs[i].account) == legs[i].amount
  {
    var n := |legs| - 1;
    if i == n { SumZero(legs[..n], AccountW(legs[n].account)); } else { OneEntry(legs[..n], i); }
  }

  lemma NoEntry(legs: seq<Leg>, a: Acct)
    requires Find(legs, a) == |legs|
    ensures PerAccount(legs, a) == 0.0
  {
    SumZero(legs, AccountW(a));
  }

  /** Legs named once per account oppose the total together, whatever their order. */
  lemma SameSigns(xs: seq<Leg>, ys: seq<Leg>, total: real)
    requires OncePerAccount(xs) && OncePerAccount(ys)
    requires forall a :: PerAccount(xs, a) == PerAccount(ys, a)
    requires OneSign(xs, total)
    ensures OneSign(ys, total)
  {
    forall i | 0 <= i < |ys| ensures (total >= 0.0 ==> ys[i].amount >= 0.0) && (total <= 0.0 ==> ys[i].amount <= 0.0) {
      var a := ys[i].account;
      OneEntry(ys, i);
      var j := Find(xs, a);
      if j < |xs| { OneEntry(xs, j); } else { NoEntry(xs, a); }
      assert PerAccount(xs, a) == PerAccount(ys, a);
    }
  }

  /** The repost of an applied plan. A retired leg is settled; any other is re-driven with the journal
      rebuilt from the ledger and the worksheet, whatever the posting phase asked about first. */
  function RepostPhase(after: Books, p: Plan, cs: seq<CostLine>, ts: seq<Target>, lc: Id, retired: bool): LcPosting {
    if retired then Retires else
    match Rebuild(Revaluations(after.rows, lc), p.rows, cs, ts)
    case Err(e) => Refuses(e)
    case Ok(r) => Offered(LcEnvelope(r.debits, r.credits, r.total))
  }

  predicate SameFate(a: LcPosting, b: LcPosting) { (a.Retires? <==> b.Retires?) && (a.Offers? <==> b.Offers?) }

  lemma SignsAgree(xs: seq<Leg>, ys: seq<Leg>, total: real)
    requires OncePerAccount(xs) && OncePerAccount(ys)
    requires forall a :: PerAccount(xs, a) == PerAccount(ys, a)
    ensures OneSign(xs, total) <==> OneSign(ys, total)
  {
    if OneSign(xs, total) { SameSigns(xs, ys, total); }
    if OneSign(ys, total) { SameSigns(ys, xs, total); }
  }

  // ---- lines that no longer show the done quantity ---------------------------------------------

  function AbsSum(legs: seq<Leg>): real { Sum(legs, AbsLeg) }

  lemma WithoutEntry(legs: seq<Leg>, i: nat, a: Acct)
    requires i < |legs| && OncePerAccount(legs)
    ensures var rest := legs[..i] + legs[i + 1..];
      && OncePerAccount(rest)
      && AbsSum(legs) == AbsSum(rest) + Abs(legs[i].amount)
      && PerAccount(legs, a) == PerAccount(rest, a) + AccountW(a)(legs[i])
  {
    var front, back := legs[..i], legs[i + 1..];
    assert legs == front + [legs[i]] + back;
    SumConcat(front + [legs[i]], back, AbsLeg);
    SumConcat(front + [legs[i]], back, AccountW(a));
    SumAppend(front, legs[i], AbsLeg);
    SumAppend(front, legs[i], AccountW(a));
    SumConcat(front, back, AbsLeg);
    SumConcat(front, back, AccountW(a));
  }

  /** Legs named once per account with the same total on every account have the same absolute sum. */
  lemma {:induction false} SameAbsSum(xs: seq<Leg>, ys: seq<Leg>)
    requires OncePerAccount(xs) && OncePerAccount(ys)
    requires forall a :: PerAccount(xs, a) == PerAccount(ys, a)
    ensures AbsSum(xs) == AbsSum(ys)
    decreases |xs|
  {
    if xs == [] {
      forall i | 0 <= i < |ys| ensures AbsLeg(ys[i]) == 0.0 {
        OneEntry(ys, i);
        assert PerAccount(xs, ys[i].account) == 0.0;
      }
      SumZero(ys, AbsLeg);
    } else {
      var n := |xs| - 1;
      var x := xs[n];
      OneEntry(xs, n);
      var i := Find(ys, x.account);
      if i < |ys| {
        OneEntry(ys, i);
        var rest := ys[..i] + ys[i + 1..];
        forall a ensures PerAccount(xs[..n], a) == PerAccount(rest, a) { WithoutEntry(ys, i, a); }
        WithoutEntry(ys, i, x.account);
        SameAbsSum(xs[..n], rest);
      } else {
        NoEntry(ys, x.account);
        SameAbsSum(xs[..n], ys);
      }
    }
  }

  lemma OneSignAbsSum(legs: seq<Leg>, total: real)
    requires OneSign(legs, total)
    ensures AbsSum(legs) == Abs(total) <==> Sum(legs, LegAmount) == total
  {
    NegatedSum(legs);
    if total > 0.0 {
      SumEqual(legs, legs, AbsLeg, LegAmount);
    } else if total < 0.0 {
      SumEqual(legs, legs, AbsLeg, Negated);
    } else {
      SumZero(legs, AbsLeg);
      SumZero(legs, LegAmount);
    }
  }

  /** Whatever quantities the lines show by then, a repost still to be driven posts exactly when no debit
      opposes the revaluation and the rebuilt credits are worth it in absolute amounts: with no
      credit opposing it, exactly when they still add up to it. */
  lemma RepostPostsIff(books: Books, cs: seq<CostLine>, ts: seq<Target>, lc: Id)
    requires Splittable(cs, ts) && ts != [] && Ordered(ts) && DistinctCosts(cs)
    requires NeverRevalued(books.rows, lc) && Reconstructs(books)
    requires Apply(books, ts, PlanOf(cs, ts).deltas, lc).Ok?
    ensures var p := PlanOf(cs, ts); var credits := PushAll(RebuiltLegs(cs, ts));
      var again := RepostPhase(Apply(books, ts, p.deltas, lc).value, p, cs, ts, lc, false);
      && !again.Retires?
      && (again.Offers? <==> OneSign(p.debits, p.revalued) && AbsSum(credits) == Abs(p.revalued))
      && (OneSign(credits, p.revalued) ==>
            (again.Offers? <==> OneSign(p.debits, p.revalued) && Sum(credits, LegAmount) == p.revalued))
  {
    var p, credits := PlanOf(cs, ts), PushAll(RebuiltLegs(cs, ts));
    ApplyRevalues(books, ts, p.deltas, lc);
    TieOut(cs, ts);
    hide PlanOf, Apply, Rebuild, Reconstructs, PerAccount, OneSign, Splittable, OncePerAccount, AbsSum;
    hide RebuiltLegs, PushAll, JournalLines;
    PushAllTotals(RebuiltLegs(cs, ts), 0);
    RepostRefinesThePlan(books, cs, ts, lc, 0);
    var r := Rebuild(Revaluations(Apply(books, ts, p.deltas, lc).value.rows, lc), p.rows, cs, ts).value;
    forall a
      ensures PerAccount(r.debits, a) == PerAccount(p.debits, a) && PerAccount(r.credits, a) == PerAccount(credits, a)
    {
      RepostRefinesThePlan(books, cs, ts, lc, a);
      PushAllTotals(RebuiltLegs(cs, ts), a);
    }
    SignsAgree(r.debits, p.debits, p.revalued);
    SameAbsSum(r.credits, credits);
    AcceptedIff(r.debits, r.credits, p.revalued);
    if OneSign(credits, p.revalued) { OneSignAbsSum(credits, p.revalued); }
  }

  /** A repost meets the fate of the validation, its leg retired, its journal accepted or its journal
      refused, exactly when a leg to retire was written so and, for any other, the rebuilt credits
      are worth the revaluation just when no planned credit opposes it: which is so wherever the
      lines still show the done quantities. A leg whose retirement was not written is offered or
      refused by the amounts alone, periodic or not. */
  lemma RepostPostsLikeThePlan(books: Books, cs: seq<CostLine>, ts: seq<Target>, lc: Id, periodic: bool, written: bool)
    requires Splittable(cs, ts) && ts != [] && Ordered(ts) && DistinctCosts(cs)
    requires NeverRevalued(books.rows, lc) && Reconstructs(books)
    requires Apply(books, ts, PlanOf(cs, ts).deltas, lc).Ok?
    ensures var p := PlanOf(cs, ts); var after := Apply(books, ts, p.deltas, lc).value;
      var first := PostPhase(p, periodic);
      var again := RepostPhase(after, p, cs, ts, lc, first.Retires? && written);
      var worth := AbsSum(PushAll(RebuiltLegs(cs, ts))) == Abs(p.revalued);
      && TotalValue(after) == TotalValue(books) + p.revalued
      && (first.Retires? <==> periodic || p.revalued == 0.0)
      && (SameFate(first, again) <==>
            if first.Retires? then written
            else OneSign(p.debits, p.revalued) ==> (OneSign(p.credits, p.revalued) <==> worth))
      && (first.Retires? && !written ==>
            !again.Retires? && (again.Offers? <==> OneSign(p.debits, p.revalued) && worth))
      && (SingleLined(ts) ==> (OneSign(p.credits, p.revalued) <==> worth))
  {
    var p := PlanOf(cs, ts);
    ApplyRevalues(books, ts, p.deltas, lc);
    PlanPosts(cs, ts, periodic);
    TieOut(cs, ts);
    if SingleLined(ts) {
      SingleLinedRebuilds(cs, ts);
      AbsoluteTotal(p.credits, p.revalued);
    }
    hide PlanOf, Apply, Rebuild, LcEnvelope, Reconstructs, OneSign, Splittable, PostPhase, AbsSum, RebuiltLegs, PushAll;
    RepostPostsIff(books, cs, ts, lc);
  }

  lemma AcceptedIff(debits: seq<Leg>, credits: seq<Leg>, total: real)
    requires Sum(debits, LegAmount) == total
    ensures LcEnvelope(debits, credits, total).Ok? <==> OneSign(debits, total) && AbsSum(credits) == Abs(total)
  {
    JournalSums(debits, credits, total);
    AbsoluteTotal(debits, total);
  }

  // ---- lines zeroed since the validation --------------------------------------------------------

  /** Each line shows its done quantity, or nothing: the unreserve verb zeroes those of a done move. */
  predicate ZeroedOrWhole(ts: seq<Target>) {
    forall i :: 0 <= i < |ts| ==> ts[i].lineQty == ts[i].done || ts[i].lineQty == 0.0
  }

  function RebuiltTable(cs: seq<CostLine>, ts: seq<Target>): (m: seq<seq<real>>)
    requires Splittable(cs, ts)
    ensures Wide(m, |ts|)
  {
    seq(|cs|, j requires 0 <= j < |cs| => Rebuilt(cs[j], ts))
  }

  lemma {:induction false} KeptColumn(cs: seq<CostLine>, n: nat, ts: seq<Target>, k: nat)
    requires Splittable(cs, ts) && ZeroedOrWhole(ts) && n <= |cs| && k < |ts|
    ensures Columns(RebuiltTable(cs, ts)[..n], |ts|)[k] ==
      if ts[k].lineQty == 0.0 then 0.0 else Columns(DeltaTable(cs, ts)[..n], |ts|)[k]
  {
    if n > 0 {
      KeptColumn(cs, n - 1, ts, k);
      assert Rebuilt(cs[n - 1], ts)[k] == if ts[k].lineQty == 0.0 then 0.0 else Deltas(cs[n - 1], ts)[k];
      assert RebuiltTable(cs, ts)[..n][..n - 1] == RebuiltTable(cs, ts)[..n - 1];
      assert DeltaTable(cs, ts)[..n][..n - 1] == DeltaTable(cs, ts)[..n - 1];
      hide Denominator, Deltas, Rebuilt;
    }
  }

  /** The planned revaluation of the targets whose lines were zeroed. */
  function ZeroedDeltas(ts: seq<Target>, deltas: seq<real>): seq<real>
    requires |deltas| == |ts|
  {
    seq(|ts|, k requires 0 <= k < |ts| => if ts[k].lineQty == 0.0 then deltas[k] else 0.0)
  }

  /** The rebuilt credits miss exactly what the zeroed lines were revalued by. */
  lemma ZeroedLinesAreMissing(cs: seq<CostLine>, ts: seq<Target>)
    requires Splittable(cs, ts) && ZeroedOrWhole(ts)
    ensures var p := PlanOf(cs, ts);
      Sum(RebuiltLegs(cs, ts), LegAmount) == p.revalued - Total(ZeroedDeltas(ts, p.deltas))
  {
    var deltas, kept := PlanOf(cs, ts).deltas, Columns(RebuiltTable(cs, ts), |ts|);
    SumEqual(RebuiltLegs(cs, ts), RebuiltTable(cs, ts), LegAmount, TotalOf);
    ColumnsTotal(RebuiltTable(cs, ts), |ts|);
    hide Denominator, Deltas, Rebuilt;
    assert RebuiltTable(cs, ts)[..|cs|] == RebuiltTable(cs, ts) && DeltaTable(cs, ts)[..|cs|] == DeltaTable(cs, ts);
    forall k | 0 <= k < |ts| ensures Same(deltas[k]) == Same(kept[k]) + Same(ZeroedDeltas(ts, deltas)[k]) {
      KeptColumn(cs, |cs|, ts, k);
    }
    SumAdd(deltas, kept, ZeroedDeltas(ts, deltas), Same, Same, Same);
  }

  const Shelf := Location(Internal, Some(0), None)

  function Whole(line: Id, account: Acct): Target { Target(line, 0, Shelf, 1.0, 1.0, 10.0, 0.0, 1.0, account) }

  /** A sole target wholly on hand is revalued by the whole cost. */
  lemma SoleTarget(c: CostLine, t: Target)
    requires c.split == ByQuantity && t.done == 1.0 && t.remaining == 1.0 && IsCents(c.amount)
    ensures Denominator(c, [t]) == 1.0 && Deltas(c, [t]) == [c.amount] && Total([c.amount]) == c.amount
  {
    SumAppend([], t, BasisW(c.split));
    SumAppend([], c.amount, Same);
    assert [] + [t] == [t] && [] + [c.amount] == [c.amount] && [t][..0] == [];
    assert Share(c, [t], 0) == c.amount;
    MoneyFacts(c.amount);
    assert Part(c.amount, 1.0, 1.0) == c.amount;
  }

  lemma TwoLegs(a: Leg, b: Leg)
    requires a.account != b.account && a.amount != 0.0 && b.amount != 0.0
    ensures PushAll([a, b]) == [a, b]
    ensures Sum([a, b], LegAmount) == a.amount + b.amount
  {
    SumAppend([a], b, LegAmount);
    SumAppend([], a, LegAmount);
    assert [] + [a] == [a] && [a] + [b] == [a, b];
    assert [a, b][..1] == [a] && [a][..0] == [];
    assert Push([], a.account, a.amount) == [a];
    assert PushAll([a]) == [a];
    assert Find([a], b.account) == 1;
  }

  /** A freight of 10.00 and a rebate of 4.00 on separate accounts: the bins gain 6.00, and no
      journal is ever accepted, because the credits are 10.00 and 4.00 in absolute amounts. */
  lemma MixedSignsNeverPost()
    ensures var cs := [CostLine(1, 5, ByQuantity, 10.0), CostLine(2, 6, ByQuantity, -4.0)]; var ts := [Whole(1, 7)];
      && Splittable(cs, ts) && PlanOf(cs, ts).revalued == 6.0
      && Apply(EmptyBooks, ts, PlanOf(cs, ts).deltas, 3).Ok?
      && PostPhase(PlanOf(cs, ts), false) == Refuses(LandedCostAllocationMismatch)
  {
    var cs := [CostLine(1, 5, ByQuantity, 10.0), CostLine(2, 6, ByQuantity, -4.0)];
    var ts := [Whole(1, 7)];
    MixedPlan();
    hide PlanOf, LcEnvelope, Apply, OneSign, Splittable, PostPhase;
    var p := PlanOf(cs, ts);
    ApplyRefuses(EmptyBooks, ts, p.deltas, 3);
    PlanPosts(cs, ts, false);
    OpposingLeg(p.credits, 1, 6.0);
    RefusedPhase(p);
  }

  lemma MixedPlan()
    ensures var cs := [CostLine(1, 5, ByQuantity, 10.0), CostLine(2, 6, ByQuantity, -4.0)]; var ts := [Whole(1, 7)];
      && Splittable(cs, ts) && |PlanOf(cs, ts).deltas| == 1
      && PlanOf(cs, ts).revalued == 6.0 && PlanOf(cs, ts).credits == [Leg(5, 10.0), Leg(6, -4.0)]
  {
    var cs := [CostLine(1, 5, ByQuantity, 10.0), CostLine(2, 6, ByQuantity, -4.0)];
    var ts := [Whole(1, 7)];
    FromWhole(10.0, 1000);
    FromWhole(-4.0, -400);
    SoleTarget(cs[0], ts[0]);
    SoleTarget(cs[1], ts[0]);
    hide Deltas, Denominator, Total, PushAll, Columns, AllRows;
    var legs := [Leg(5, 10.0), Leg(6, -4.0)];
    assert CreditLegs(cs, ts) == legs;
    TwoLegs(legs[0], legs[1]);
    TieOut(cs, ts);
  }

  /** A journal that is neither retired nor offered is refused as mismatched. */
  lemma RefusedPhase(p: Plan)
    ensures var phase := PostPhase(p, false);
      !phase.Retires? && !phase.Offers? ==> phase == Refuses(LandedCostAllocationMismatch)
  {
    RefusalIsMismatch(p.debits, p.credits, p.revalued);
    hide LcEnvelope;
  }

  const FreightAndRebate := [CostLine(1, 5, ByQuantity, 10.0), CostLine(2, 6, ByQuantity, -10.0)]

  const OneWhole := [Whole(1, 7)]

  lemma RebatePlan()
    ensures Splittable(FreightAndRebate, OneWhole)
    ensures var p := PlanOf(FreightAndRebate, OneWhole); p.revalued == 0.0 && p.credits == [Leg(5, 10.0), Leg(6, -10.0)]
  {
    var cs, ts := FreightAndRebate, OneWhole;
    FromWhole(10.0, 1000);
    FromWhole(-10.0, -1000);
    SoleTarget(cs[0], ts[0]);
    SoleTarget(cs[1], ts[0]);
    hide Deltas, Denominator, Total, PushAll, Columns, AllRows;
    var legs := [Leg(5, 10.0), Leg(6, -10.0)];
    assert CreditLegs(cs, ts) == legs;
    TwoLegs(legs[0], legs[1]);
    TieOut(cs, ts);
  }

  /** A freight of 10.00 and a rebate of 10.00 on separate accounts revalue nothing: the validation
      retires the leg, and if it stopped before writing so, every repost is refused. */
  lemma LostRetirementIsRefused()
    ensures var p := PlanOf(FreightAndRebate, OneWhole); var applied := Apply(EmptyBooks, OneWhole, p.deltas, 3);
      && Splittable(FreightAndRebate, OneWhole) && PostPhase(p, false) == Retires && applied.Ok?
      && RepostPhase(applied.value, p, FreightAndRebate, OneWhole, 3, false).Refuses?
  {
    assert Ordered(OneWhole) && SingleLined(OneWhole) && DistinctCosts(FreightAndRebate);
    assert NeverRevalued(EmptyBooks.rows, 3) && Reconstructs(EmptyBooks);
    hide Ordered, SingleLined, DistinctCosts, NeverRevalued, Reconstructs;
    hide PlanOf, Apply, RepostPhase, OneSign, Splittable, AbsSum;
    RebatePlan();
    var p := PlanOf(FreightAndRebate, OneWhole);
    ApplyRefuses(EmptyBooks, OneWhole, p.deltas, 3);
    OpposedNothing(p.credits, 0);
    RepostPostsLikeThePlan(EmptyBooks, FreightAndRebate, OneWhole, 3, false, false);
  }

  lemma OpposedNothing(legs: seq<Leg>, i: nat)
    requires i < |legs| && legs[i].amount != 0.0
    ensures !OneSign(legs, 0.0)
  {
  }

  lemma OpposingLeg(legs: seq<Leg>, i: nat, total: real)
    requires i < |legs| && total > 0.0 && legs[i].amount < 0.0
    ensures !OneSign(legs, total)
  {
  }

  lemma RefusalIsMismatch(debits: seq<Leg>, credits: seq<Leg>, total: real)
    ensures LcEnvelope(debits, credits, total).Err? ==>
      LcEnvelope(debits, credits, total) == Err(LandedCostAllocationMismatch)
  {
  }

  // A cost of 0.02 over four equal lines rounds to 0.01, 0.01, 0.01 and leaves -0.01 for the last.

  const FourLines := [Whole(1, 7), Whole(2, 7), Whole(3, 7), Whole(4, 8)]

  const TwoCents := CostLine(1, 5, ByQuantity, 0.02)

  lemma FourShares()
    ensures Denominator(TwoCents, FourLines) == 4.0
    ensures Deltas(TwoCents, FourLines) == [0.01, 0.01, 0.01, -0.01]
  {
    var ts, c := FourLines, TwoCents;
    assert ts[..4][..3] == ts[..3] && ts[..3][..2] == ts[..2] && ts[..2][..1] == ts[..1] && ts[..1][..0] == []
      && ts[..4] == ts;
    assert Sum(ts[..1], BasisW(c.split)) == 1.0;
    assert Sum(ts[..2], BasisW(c.split)) == 2.0;
    assert Sum(ts[..3], BasisW(c.split)) == 3.0;
    assert Denominator(c, ts) == 4.0;
    forall i | 0 <= i < 4 ensures Rounded(c, ts)(ts[i]) == 0.01 { assert Exact(c, ts, ts[i]) == 0.005; }
    assert Sum(ts[..1], Rounded(c, ts)) == 0.01;
    assert Sum(ts[..2], Rounded(c, ts)) == 0.02;
    assert Sum(ts[..3], Rounded(c, ts)) == 0.03;
    assert Share(c, ts, 3) == -0.01;
    assert Part(0.01, 1.0, 1.0) == 0.01 && Part(-0.01, 1.0, 1.0) == -0.01;
  }

  lemma FourDebits()
    ensures PushAll([Leg(7, 0.01), Leg(7, 0.01), Leg(7, 0.01), Leg(8, -0.01)]) == [Leg(7, 0.03), Leg(8, -0.01)]
  {
    var legs := [Leg(7, 0.01), Leg(7, 0.01), Leg(7, 0.01), Leg(8, -0.01)];
    assert legs[..3][..2] == legs[..2] && legs[..2][..1] == legs[..1] && legs[..1][..0] == [];
    assert PushAll(legs[..1]) == [Leg(7, 0.01)];
    assert PushAll(legs[..2]) == [Leg(7, 0.02)];
    assert PushAll(legs[..3]) == [Leg(7, 0.03)];
    assert Find([Leg(7, 0.03)], 8) == 1;
  }

  /** One positive cost can be refused too: two cents over four equal lines, the last on an
      account of its own, leave that account a debit of minus one cent. */
  lemma RoundingAloneNeverPosts()
    ensures var cs := [TwoCents]; var ts := FourLines;
      && Splittable(cs, ts) && Ordered(ts)
      && PlanOf(cs, ts).debits == [Leg(7, 0.03), Leg(8, -0.01)]
      && PostPhase(PlanOf(cs, ts), false) == Refuses(LandedCostAllocationMismatch)
  {
    var cs, ts := [TwoCents], FourLines;
    FourShares();
    FourDebits();
    FourDeltas();
    hide Deltas, Denominator, Columns, PushAll, OneSign, LcEnvelope, AllRows, DeltaTable, DebitLegs;
    var p := PlanOf(cs, ts);
    TieOut(cs, ts);
    TwoLegs(Leg(7, 0.03), Leg(8, -0.01));
    assert p.revalued == 0.02;
    PlanPosts(cs, ts, false);
    OpposingLeg(p.debits, 1, 0.02);
    RefusedPhase(p);
  }

  lemma FourDeltas()
    ensures Splittable([TwoCents], FourLines)
    ensures var deltas := Columns(DeltaTable([TwoCents], FourLines), 4);
      DebitLegs(FourLines, deltas) == [Leg(7, 0.01), Leg(7, 0.01), Leg(7, 0.01), Leg(8, -0.01)]
  {
    FourShares();
    hide Deltas, Denominator;
    var row := Deltas(TwoCents, FourLines);
    assert DeltaTable([TwoCents], FourLines) == [row] && [row][..0] == [];
    assert Columns([row], 4) == Plus(Columns([], 4), row) == row;
  }
}
