/** The loops of the landed-cost door, each proved against the function that says what it computes. */
module LandedCostLoops {
  import opened Common
  import opened Rounding
  import opened StockTypes
  import opened Valuation
  import opened LandedCost
  import opened LandedCostPlan
  import opened LandedCostBooks

  /** Accumulate an amount onto its account's entry. */
  method PushAmount(legs: seq<Leg>, a: Acct, amount: real) returns (pushed: seq<Leg>)
    ensures pushed == Push(legs, a, amount)
    ensures forall b :: PerAccount(pushed, b) == PerAccount(legs, b) + (if a == b then amount else 0.0)
  {
    forall b { PushAdds(legs, a, amount, b); }
    if amount == 0.0 { return legs; }
    for i := 0 to |legs|
      invariant forall j :: 0 <= j < i ==> legs[j].account != a
    {
      if legs[i].account == a { return legs[i := Leg(a, legs[i].amount + amount)]; }
    }
    pushed := legs + [Leg(a, amount)];
  }

  function At(m: map<Id, real>, k: Id): real { if k in m then m[k] else 0.0 }

  /** The running totals by line: the first `i` targets have this cost line's figure added. */
  ghost predicate Tallied(m: map<Id, real>, ts: seq<Target>, before: seq<real>, figures: seq<real>, i: nat)
    requires |before| == |figures| == |ts|
  {
    forall k :: 0 <= k < |ts| ==> At(m, ts[k].line) == before[k] + (if k < i then figures[k] else 0.0)
  }

  lemma TallyNext(m: map<Id, real>, ts: seq<Target>, before: seq<real>, figures: seq<real>, i: nat)
    requires |before| == |figures| == |ts| && i < |ts| && Ordered(ts)
    requires Tallied(m, ts, before, figures, i)
    ensures Tallied(m[ts[i].line := At(m, ts[i].line) + figures[i]], ts, before, figures, i + 1)
  {
  }

  lemma NextShare(c: CostLine, ts: seq<Target>, i: nat, given: real)
    requires i < |ts| && Denominator(c, ts) != 0.0 && given == Sum(ts[..i], Rounded(c, ts))
    ensures var p := Money(Proportion(c.amount, Basis(ts[i], c.split), Denominator(c, ts)));
      && Share(c, ts, i) == (if i == |ts| - 1 then c.amount - given else p)
      && given + p == Sum(ts[..i + 1], Rounded(c, ts))
  {
    hide Money, Proportion, Basis, Denominator;
    assert ts[..i + 1][..i] == ts[..i];
    assert Rounded(c, ts)(ts[i]) == Money(Exact(c, ts, ts[i]));
  }

  lemma NextDelta(c: CostLine, ts: seq<Target>, i: nat)
    requires i < |ts| && Denominator(c, ts) != 0.0
    ensures var d := Remaining(Share(c, ts, i), ts[i]);
      Deltas(c, ts)[i] == d && Total(Deltas(c, ts)[..i + 1]) == Total(Deltas(c, ts)[..i]) + d
  {
    assert Deltas(c, ts)[..i + 1][..i] == Deltas(c, ts)[..i];
  }

  method SplitBasis(c: CostLine, ts: seq<Target>) returns (basis: seq<real>, denominator: real)
    ensures |basis| == |ts| && forall i :: 0 <= i < |ts| ==> basis[i] == Basis(ts[i], c.split)
    ensures denominator == Denominator(c, ts)
  {
    basis, denominator := [], 0.0;
    for i := 0 to |ts|
      invariant |basis| == i && forall k :: 0 <= k < i ==> basis[k] == Basis(ts[k], c.split)
      invariant denominator == Sum(ts[..i], BasisW(c.split))
    {
      assert ts[..i + 1][..i] == ts[..i];
      basis := basis + [Basis(ts[i], c.split)];
      denominator := denominator + basis[i];
    }
    assert ts[..|ts|] == ts;
  }

  function LinesOfTargets(ts: seq<Target>): set<Id> { set t | t in ts :: t.line }

  lemma OneMoreLine(ts: seq<Target>, i: nat)
    requires i < |ts|
    ensures LinesOfTargets(ts[..i + 1]) == LinesOfTargets(ts[..i]) + {ts[i].line}
  {
    assert ts[..i + 1] == ts[..i] + [ts[i]];
  }

  function BareRow(c: CostLine, t: Target, share: real): PlanRow { PlanRow(t.line, c.id, share, 0.0, t.remaining) }

  /** Split one cost line over the targets, tallying the deltas by line; a zero basis refuses. */
  method SplitLine(c: CostLine, ts: seq<Target>, tally: map<Id, real>, ghost before: seq<real>)
      returns (rows: Option<seq<PlanRow>>, lineTotal: real, tallied: map<Id, real>)
    requires Ordered(ts) && ts != [] && |before| == |ts|
    requires forall k :: 0 <= k < |ts| ==> At(tally, ts[k].line) == before[k]
    ensures rows.None? <==> Denominator(c, ts) == 0.0
    ensures rows.Some? ==>
      && |rows.value| == |ts|
      && (forall i :: 0 <= i < |ts| ==> rows.value[i] == BareRow(c, ts[i], Share(c, ts, i)))
      && lineTotal == Total(Deltas(c, ts))
      && Tallied(tallied, ts, before, Deltas(c, ts), |ts|)
      && tallied.Keys == tally.Keys + LinesOfTargets(ts)
  {
    hide Money, Share, Rounded, Denominator, Basis, Deltas, Tallied, Total, Remaining, LinesOfTargets;
    var basis, denominator := SplitBasis(c, ts);
    tallied, lineTotal := tally, 0.0;
    if denominator == 0.0 { return None, lineTotal, tallied; }
    var out: seq<PlanRow> := [];
    var given := 0.0;
    SplitStarts(c, ts, tally, before);
    for i := 0 to |ts|
      invariant |out| == i && forall k :: 0 <= k < i ==> out[k] == BareRow(c, ts[k], Share(c, ts, k))
      invariant i < |ts| ==> given == Sum(ts[..i], Rounded(c, ts))
      invariant lineTotal == Total(Deltas(c, ts)[..i])
      invariant Tallied(tallied, ts, before, Deltas(c, ts), i)
      invariant tallied.Keys == tally.Keys + LinesOfTargets(ts[..i])
    {
      var t := ts[i];
      NextShare(c, ts, i, given);
      NextDelta(c, ts, i);
      OneMoreLine(ts, i);
      var share;
      if i == |ts| - 1 {
        share := c.amount - given;
      } else {
        share := Money(Proportion(c.amount, basis[i], denominator));
        given := given + share;
      }
      var delta := Remaining(share, t);
      lineTotal := lineTotal + delta;
      TallyNext(tallied, ts, before, Deltas(c, ts), i);
      tallied := tallied[t.line := At(tallied, t.line) + delta];
      out := out + [BareRow(c, t, share)];
    }
    assert Deltas(c, ts)[..|ts|] == Deltas(c, ts) && ts[..|ts|] == ts;
    rows := Some(out);
  }

  lemma SplitStarts(c: CostLine, ts: seq<Target>, tally: map<Id, real>, before: seq<real>)
    requires |before| == |ts| && forall k :: 0 <= k < |ts| ==> At(tally, ts[k].line) == before[k]
    requires Denominator(c, ts) != 0.0
    ensures Tallied(tally, ts, before, Deltas(c, ts), 0)
    ensures Sum(ts[..0], Rounded(c, ts)) == 0.0 && Total(Deltas(c, ts)[..0]) == 0.0 && LinesOfTargets(ts[..0]) == {}
  {
  }

  // ---- the whole computation -------------------------------------------------------------

  /** Add up a tally over its keys, in any order. */
  method TallyTotal(m: map<Id, real>) returns (total: real)
    ensures total == SetSum(m.Keys, (k: Id) => At(m, k))
  {
    var rest := m.Keys;
    total := 0.0;
    ghost var w := (k: Id) => At(m, k);
    while rest != {}
      invariant rest <= m.Keys
      invariant total + SetSum(rest, w) == SetSum(m.Keys, w)
      decreases |rest|
    {
      var k :| k in rest;
      SetSumPick(rest, k, w);
      total := total + m[k];
      rest := rest - {k};
    }
    SetSumEqual(m.Keys, w, (k: Id) => At(m, k));
  }

  lemma {:induction false} TallyIsTheTotal(ts: seq<Target>, figures: seq<real>, w: Id -> real)
    requires Ordered(ts) && |figures| == |ts| && forall k :: 0 <= k < |ts| ==> w(ts[k].line) == figures[k]
    ensures SetSum(LinesOfTargets(ts), w) == Total(figures)
  {
    if ts == [] {
      assert LinesOfTargets(ts) == {};
    } else {
      var n := |ts| - 1;
      assert ts == ts[..n] + [ts[n]];
      assert LinesOfTargets(ts) == LinesOfTargets(ts[..n]) + {ts[n].line};
      assert ts[n].line !in LinesOfTargets(ts[..n]);
      SetSumPick(LinesOfTargets(ts), ts[n].line, w);
      assert LinesOfTargets(ts) - {ts[n].line} == LinesOfTargets(ts[..n]);
      TallyIsTheTotal(ts[..n], figures[..n], w);
    }
  }

  function Zeros(n: nat): (z: seq<real>)
    ensures |z| == n
  {
    seq(n, i => 0.0)
  }

  function CostShareW(cost: Id): PlanRow -> real { (r: PlanRow) => if r.cost == cost then r.share else 0.0 }

  /** The worksheet check: the shares recorded for one cost line. */
  method SharesOf(rows: seq<PlanRow>, cost: Id) returns (total: real)
    ensures total == Sum(rows, CostShareW(cost))
  {
    total := 0.0;
    for i := 0 to |rows|
      invariant total == Sum(rows[..i], CostShareW(cost))
    {
      assert rows[..i + 1][..i] == rows[..i];
      if rows[i].cost == cost { total := total + rows[i].share; }
    }
    assert rows[..|rows|] == rows;
  }

  lemma {:induction false} OtherCosts(cs: seq<CostLine>, ts: seq<Target>, z: seq<real>, cost: Id)
    requires Splittable(cs, ts) && |z| == |ts| && forall j :: 0 <= j < |cs| ==> cs[j].id != cost
    ensures Sum(AllRows(cs, ts, z), CostShareW(cost)) == 0.0
  {
    if cs != [] {
      var n := |cs| - 1;
      OtherCosts(cs[..n], ts, z, cost);
      var rows := RowsOf(cs[n], ts, z);
      SumConcat(AllRows(cs[..n], ts, z), rows, CostShareW(cost));
      SumZero(rows, CostShareW(cost));
    }
  }

  lemma OwnShares(c: CostLine, ts: seq<Target>, z: seq<real>)
    requires Denominator(c, ts) != 0.0 && ts != [] && |z| == |ts|
    ensures Sum(RowsOf(c, ts, z), CostShareW(c.id)) == c.amount
  {
    SumEqual(RowsOf(c, ts, z), Shares(c, ts), CostShareW(c.id), Same);
    hide Shares, RowsOf, Denominator;
    SharesAreTheAmount(c, ts);
  }

  /** The worksheet check never fails: a cost line's recorded shares are its amount. */
  lemma WorksheetChecks(cs: seq<CostLine>, j: nat, ts: seq<Target>, z: seq<real>)
    requires j < |cs| && DistinctCosts(cs) && ts != [] && |z| == |ts|
    requires Splittable(cs[..j], ts) && Denominator(cs[j], ts) != 0.0
    ensures Sum(AllRows(cs[..j], ts, z) + RowsOf(cs[j], ts, z), CostShareW(cs[j].id)) == cs[j].amount
  {
    OtherCosts(cs[..j], ts, z, cs[j].id);
    hide Splittable, AllRows, RowsOf, CostShareW, Denominator, DistinctCosts;
    SumConcat(AllRows(cs[..j], ts, z), RowsOf(cs[j], ts, z), CostShareW(cs[j].id));
    OwnShares(cs[j], ts, z);
  }

  method SplitAll(cs: seq<CostLine>, ts: seq<Target>)
      returns (r: Outcome<()>, rows: seq<PlanRow>, tally: map<Id, real>, credits: seq<Leg>)
    requires Ordered(ts) && DistinctCosts(cs) && ts != []
    ensures r == if Splittable(cs, ts) then Ok(()) else Err(LandedCostZeroSplitBasis)
    ensures r.Ok? ==>
      && rows == AllRows(cs, ts, Zeros(|ts|))
      && (forall k :: 0 <= k < |ts| ==> At(tally, ts[k].line) == Columns(DeltaTable(cs, ts), |ts|)[k])
      && (cs != [] ==> tally.Keys == LinesOfTargets(ts))
      && credits == PushAll(CreditLegs(cs, ts))
  {
    hide Denominator, Deltas, Shares, Share, Push, Total, Money, Part, DistinctCosts, Ordered, LinesOfTargets, RowsOf,
      CostShareW, Sum, AllRows, Splittable, Columns, DeltaTable, ShareTable, CreditLegs, PushAll, Tallied, Zeros,
      PerAccount;
    NoCosts(ts);
    rows, tally, credits := [], map[], [];
    for j := 0 to |cs|
      invariant Splittable(cs[..j], ts)
      invariant rows == AllRows(cs[..j], ts, Zeros(|ts|))
      invariant forall k :: 0 <= k < |ts| ==> At(tally, ts[k].line) == Columns(DeltaTable(cs[..j], ts), |ts|)[k]
      invariant tally.Keys == if j == 0 then {} else LinesOfTargets(ts)
      invariant credits == PushAll(CreditLegs(cs[..j], ts))
    {
      var c := cs[j];
      var more, lineTotal, tallied := SplitLine(c, ts, tally, Columns(DeltaTable(cs[..j], ts), |ts|));
      if more.None? {
        NotSplittable(cs, j, ts);
        return Err(LandedCostZeroSplitBasis), rows, tally, credits;
      }
      SplittableNext(cs, j, ts);
      SplitNext(cs, j, ts, Zeros(|ts|));
      RowsAreBare(c, ts, more.value);
      rows := rows + more.value;
      var recorded := SharesOf(rows, c.id);
      WorksheetChecks(cs, j, ts, Zeros(|ts|));
      if recorded != c.amount { assert false; }
      credits := PushAmount(credits, c.account, lineTotal);
      TalliedIsColumns(tallied, cs, j, ts);
      tally := tallied;
    }
    assert cs[..|cs|] == cs;
    r := Ok(());
  }

  lemma NoCosts(ts: seq<Target>)
    ensures Splittable([], ts) && AllRows([], ts, Zeros(|ts|)) == [] && PushAll(CreditLegs([], ts)) == []
    ensures forall k :: 0 <= k < |ts| ==> Columns(DeltaTable([], ts), |ts|)[k] == 0.0
  {
  }

  lemma NotSplittable(cs: seq<CostLine>, j: nat, ts: seq<Target>)
    requires j < |cs| && Denominator(cs[j], ts) == 0.0
    ensures !Splittable(cs, ts)
  {
    assert cs[j] in cs;
  }

  lemma RowsAreBare(c: CostLine, ts: seq<Target>, rows: seq<PlanRow>)
    requires Denominator(c, ts) != 0.0 && |rows| == |ts|
    requires forall i :: 0 <= i < |ts| ==> rows[i] == BareRow(c, ts[i], Share(c, ts, i))
    ensures rows == RowsOf(c, ts, Zeros(|ts|))
  {
  }

  lemma TalliedIsColumns(m: map<Id, real>, cs: seq<CostLine>, j: nat, ts: seq<Target>)
    requires j < |cs| && Splittable(cs[..j + 1], ts) && Splittable(cs[..j], ts) && Denominator(cs[j], ts) != 0.0
    requires Tallied(m, ts, Columns(DeltaTable(cs[..j], ts), |ts|), Deltas(cs[j], ts), |ts|)
    ensures forall k :: 0 <= k < |ts| ==> At(m, ts[k].line) == Columns(DeltaTable(cs[..j + 1], ts), |ts|)[k]
  {
    hide Deltas, Columns, DeltaTable, Denominator, Splittable, AllRows, PushAll, Shares, ShareTable, CreditLegs, RowsOf;
    SplitNext(cs, j, ts, Zeros(|ts|));
  }

  /** Accumulate every line's shares over all cost lines, then stamp them on its rows. */
  method Cumulate(rows: seq<PlanRow>) returns (filled: seq<PlanRow>)
    ensures |filled| == |rows|
    ensures forall i :: 0 <= i < |rows| ==> filled[i] == rows[i].(cumulative := Sum(rows, LineShareW(rows[i].line)))
  {
    var byLine: map<Id, real> := map[];
    for i := 0 to |rows|
      invariant forall line :: At(byLine, line) == Sum(rows[..i], LineShareW(line))
    {
      assert rows[..i + 1][..i] == rows[..i];
      forall line ensures Sum(rows[..i + 1], LineShareW(line)) == Sum(rows[..i], LineShareW(line)) +
        LineShareW(line)(rows[i]) {}
      byLine := byLine[rows[i].line := At(byLine, rows[i].line) + rows[i].share];
    }
    assert rows[..|rows|] == rows;
    filled := [];
    for i := 0 to |rows|
      invariant |filled| == i
      invariant forall k :: 0 <= k < i ==> filled[k] == rows[k].(cumulative := Sum(rows, LineShareW(rows[k].line)))
    {
      filled := filled + [rows[i].(cumulative := At(byLine, rows[i].line))];
    }
  }

  lemma {:induction false} LineSharesOf(c: CostLine, ts: seq<Target>, n: nat, z: seq<real>, k: nat)
    requires Denominator(c, ts) != 0.0 && |z| == |ts| && k < |ts| && n <= |ts| && Ordered(ts)
    ensures Sum(RowsOf(c, ts, z)[..n], LineShareW(ts[k].line)) == if k < n then Shares(c, ts)[k] else 0.0
  {
    if n > 0 {
      LineSharesOf(c, ts, n - 1, z, k);
      assert RowsOf(c, ts, z)[..n][..n - 1] == RowsOf(c, ts, z)[..n - 1];
    }
  }

  lemma {:induction false} LineShares(cs: seq<CostLine>, ts: seq<Target>, j: nat, z: seq<real>, k: nat)
    requires j <= |cs| && Splittable(cs, ts) && |z| == |ts| && k < |ts| && Ordered(ts)
    ensures Splittable(cs[..j], ts)
    ensures Sum(AllRows(cs[..j], ts, z), LineShareW(ts[k].line)) == Columns(ShareTable(cs[..j], ts), |ts|)[k]
  {
    if j > 0 {
      var i := j - 1;
      LineShares(cs, ts, i, z, k);
      assert cs[..j][..i] == cs[..i] && cs[i] in cs;
      SplitNext(cs, i, ts, z);
      SumConcat(AllRows(cs[..i], ts, z), RowsOf(cs[i], ts, z), LineShareW(ts[k].line));
      assert RowsOf(cs[i], ts, z)[..|ts|] == RowsOf(cs[i], ts, z);
      LineSharesOf(cs[i], ts, |ts|, z, k);
    }
  }

  /** A row and its copy with its line's cumulative figure. */
  predicate Stamped(r: PlanRow, filled: PlanRow, ts: seq<Target>, y: seq<real>)
    requires |y| == |ts|
  {
    exists k :: 0 <= k < |ts| && r.line == ts[k].line && filled == r.(cumulative := y[k])
  }

  lemma {:induction false} RowsAt(cs: seq<CostLine>, ts: seq<Target>, z: seq<real>, y: seq<real>)
    requires Splittable(cs, ts) && |z| == |y| == |ts|
    ensures |AllRows(cs, ts, z)| == |AllRows(cs, ts, y)|
    ensures forall i :: 0 <= i < |AllRows(cs, ts, z)| ==> Stamped(AllRows(cs, ts, z)[i], AllRows(cs, ts, y)[i], ts, y)
  {
    if cs != [] {
      var n := |cs| - 1;
      RowsAt(cs[..n], ts, z, y);
      RowsOfAt(cs[n], ts, z, y);
      hide RowsOf, Stamped, Denominator;
      StampedAppend(AllRows(cs[..n], ts, z), AllRows(cs[..n], ts, y), RowsOf(cs[n], ts, z), RowsOf(cs[n], ts, y),
        ts, y);
    }
  }

  lemma RowsOfAt(c: CostLine, ts: seq<Target>, z: seq<real>, y: seq<real>)
    requires Denominator(c, ts) != 0.0 && |z| == |y| == |ts|
    ensures forall i :: 0 <= i < |ts| ==> Stamped(RowsOf(c, ts, z)[i], RowsOf(c, ts, y)[i], ts, y)
    ensures |RowsOf(c, ts, z)| == |RowsOf(c, ts, y)| == |ts|
  {
    forall i | 0 <= i < |ts| ensures Stamped(RowsOf(c, ts, z)[i], RowsOf(c, ts, y)[i], ts, y) {
      assert RowsOf(c, ts, z)[i].line == ts[i].line;
    }
  }

  lemma StampedAppend(a: seq<PlanRow>, b: seq<PlanRow>, c: seq<PlanRow>, d: seq<PlanRow>, ts: seq<Target>, y: seq<real>)
    requires |y| == |ts| && |a| == |b| && |c| == |d|
    requires forall i :: 0 <= i < |a| ==> Stamped(a[i], b[i], ts, y)
    requires forall i :: 0 <= i < |c| ==> Stamped(c[i], d[i], ts, y)
    ensures forall i :: 0 <= i < |a + c| ==> Stamped((a + c)[i], (b + d)[i], ts, y)
  {
  }

  method NeedsAccount(cs: seq<CostLine>) returns (bare: bool)
    ensures bare <==> exists c :: c in cs && c.account == NoAccount
  {
    for j := 0 to |cs|
      invariant forall i :: 0 <= i < j ==> cs[i].account != NoAccount
    {
      if cs[j].account == NoAccount { assert cs[j] in cs; return true; }
    }
    bare := false;
  }

  method DebitPerAccount(ts: seq<Target>, deltas: seq<real>) returns (debits: seq<Leg>)
    requires |deltas| == |ts|
    ensures debits == PushAll(DebitLegs(ts, deltas))
  {
    debits := [];
    for i := 0 to |ts|
      invariant debits == PushAll(DebitLegs(ts[..i], deltas[..i]))
    {
      assert DebitLegs(ts[..i + 1], deltas[..i + 1])[..i] == DebitLegs(ts[..i], deltas[..i]);
      debits := PushAmount(debits, ts[i].account, deltas[i]);
    }
    assert ts[..|ts|] == ts && deltas[..|ts|] == deltas;
  }

  method DocumentTotal(cs: seq<CostLine>) returns (total: real)
    ensures total == Sum(cs, AmountOf)
  {
    total := 0.0;
    for j := 0 to |cs|
      invariant total == Sum(cs[..j], AmountOf)
    {
      assert cs[..j + 1][..j] == cs[..j];
      total := total + cs[j].amount;
    }
    assert cs[..|cs|] == cs;
  }

  method DeltasOf(tally: map<Id, real>, ts: seq<Target>, ghost want: seq<real>) returns (deltas: seq<real>)
    requires |want| == |ts| && forall k :: 0 <= k < |ts| ==> At(tally, ts[k].line) == want[k]
    ensures deltas == want
  {
    deltas := [];
    for i := 0 to |ts|
      invariant |deltas| == i && forall k :: 0 <= k < i ==> deltas[k] == want[k]
    {
      deltas := deltas + [At(tally, ts[i].line)];
    }
  }

  /** The validation's read phase: every refusal before anything is written, then the whole plan. */
  method ComputePlan(cs: seq<CostLine>, ts: seq<Target>, standardCost: bool) returns (r: Outcome<Plan>)
    requires Ordered(ts) && DistinctCosts(cs)
    ensures r == Compute(cs, ts, standardCost)
  {
    hide Ordered, DistinctCosts, Splittable, AllRows, Columns, DeltaTable, ShareTable, CreditLegs, DebitLegs, PushAll,
      LinesOfTargets;
    if ts == [] { return Err(LandedCostNoValuedTargets); }
    if cs == [] { return Err(LandedCostNoLines); }
    var bareAccount := NeedsAccount(cs);
    if bareAccount { return Err(LandedCostLineNeedsAccount); }
    if standardCost { return Err(LandedCostRequiresCostMethod); }
    var split, bare, tally, credits := SplitAll(cs, ts);
    if split.Err? { return Err(split.error); }
    var rows := Cumulate(bare);
    FilledRows(cs, ts, rows);
    var deltas := DeltasOf(tally, ts, Columns(DeltaTable(cs, ts), |ts|));
    var debits := DebitPerAccount(ts, deltas);
    var amountTotal := DocumentTotal(cs);
    var revalued := TallyTotal(tally);
    TallyIsTheTotal(ts, deltas, (k: Id) => At(tally, k));
    r := Ok(Plan(rows, deltas, debits, credits, amountTotal, revalued));
  }

  lemma FilledRows(cs: seq<CostLine>, ts: seq<Target>, rows: seq<PlanRow>)
    requires Ordered(ts) && Splittable(cs, ts)
    requires var bare := AllRows(cs, ts, Zeros(|ts|));
      |rows| == |bare| && forall i ::
        0 <= i < |rows| ==> rows[i] == bare[i].(cumulative := Sum(bare, LineShareW(bare[i].line)))
    ensures rows == AllRows(cs, ts, Columns(ShareTable(cs, ts), |ts|))
  {
    var z, y := Zeros(|ts|), Columns(ShareTable(cs, ts), |ts|);
    RowsAt(cs, ts, z, y);
    assert cs[..|cs|] == cs;
    forall i | 0 <= i < |rows| ensures rows[i] == AllRows(cs, ts, y)[i] {
      assert Stamped(AllRows(cs, ts, z)[i], AllRows(cs, ts, y)[i], ts, y);
      var k :| 0 <= k < |ts| && AllRows(cs, ts, z)[i].line == ts[k].line
        && AllRows(cs, ts, y)[i] == AllRows(cs, ts, z)[i].(cumulative := y[k]);
      LineShares(cs, ts, |cs|, z, k);
    }
  }

  // ---- the write phase ----------------------------------------------------------------------

  lemma {:induction false} ApplyStaysRefused(books: Books, ts: seq<Target>, deltas: seq<real>, lc: Id, n: nat)
    requires |deltas| == |ts| && n <= |ts| && Apply(books, ts[..n], deltas[..n], lc).Err?
    ensures Apply(books, ts, deltas, lc) == Apply(books, ts[..n], deltas[..n], lc)
  {
    if n == |ts| {
      assert ts[..n] == ts && deltas[..n] == deltas;
    } else {
      var k := |ts| - 1;
      assert ts[..k][..n] == ts[..n] && deltas[..k][..n] == deltas[..n];
      ApplyStaysRefused(books, ts[..k], deltas[..k], lc, n);
    }
  }

  /** Revalue each target in write order; the first refusal rolls everything back. */
  method ApplyPlan(books: Books, ts: seq<Target>, deltas: seq<real>, lc: Id) returns (r: Outcome<Books>)
    requires |deltas| == |ts|
    ensures r == Apply(books, ts, deltas, lc)
  {
    hide AdjustMoveValue;
    var b := books;
    for i := 0 to |ts|
      invariant Apply(books, ts[..i], deltas[..i], lc) == Ok(b)
    {
      assert ts[..i + 1][..i] == ts[..i] && deltas[..i + 1][..i] == deltas[..i];
      var next := AdjustMoveValue(b, ts[i].item, ts[i].dst, lc, ts[i].line, deltas[i]);
      if next.Err? {
        ApplyStaysRefused(books, ts, deltas, lc, i + 1);
        return next;
      }
      b := next.value;
    }
    assert ts[..|ts|] == ts && deltas[..|deltas|] == deltas;
    r := Ok(b);
  }

  // ---- the repost ---------------------------------------------------------------------------

  /** The debit side rebuilt row by row, aggregated as it goes. */
  method RebuildDebits(revs: seq<Revaluation>, ts: seq<Target>) returns (r: Outcome<seq<Leg>>)
    ensures match RepostDebits(revs, ts) case Ok(legs) => r == Ok(PushAll(legs)) case Err(e) => r == Err(e)
  {
    var debits: seq<Leg> := [];
    ghost var legs: seq<Leg> := [];
    for i := 0 to |revs|
      invariant RepostDebits(revs[..i], ts) == Ok(legs) && debits == PushAll(legs)
    {
      assert revs[..i + 1][..i] == revs[..i];
      var t := First(ts, LineIs(revs[i].line));
      if t.None? {
        DebitsStayRefused(revs, ts, i + 1);
        return Err(LandedCostNoValuationAccount);
      }
      ghost var leg := Leg(t.value.account, revs[i].delta);
      assert (legs + [leg])[..|legs|] == legs;
      debits := PushAmount(debits, t.value.account, revs[i].delta);
      legs := legs + [leg];
    }
    assert revs[..|revs|] == revs;
    r := Ok(debits);
  }

  lemma {:induction false} DebitsStayRefused(revs: seq<Revaluation>, ts: seq<Target>, n: nat)
    requires n <= |revs| && RepostDebits(revs[..n], ts).Err?
    ensures RepostDebits(revs, ts) == Err(LandedCostNoValuationAccount)
  {
    if n == |revs| {
      assert revs[..n] == revs;
      DebitRefusal(revs, ts);
    } else {
      assert revs[..|revs| - 1][..n] == revs[..n];
      DebitsStayRefused(revs[..|revs| - 1], ts, n);
    }
  }

  lemma {:induction false} DebitRefusal(revs: seq<Revaluation>, ts: seq<Target>)
    ensures RepostDebits(revs, ts).Err? ==> RepostDebits(revs, ts) == Err(LandedCostNoValuationAccount)
  {
    if revs != [] { DebitRefusal(revs[..|revs| - 1], ts); }
  }
}
