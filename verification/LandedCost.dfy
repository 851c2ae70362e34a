/** The landed-cost split: every cost line shared over the received lines, the shares still on
    hand revalued onto the bins, and the journal that must carry exactly that revaluation. */
module LandedCost {
  import opened Common
  import opened Rounding
  import opened StockTypes

  datatype SplitMethod = ByQuantity | ByValue | ByWeight

  /** The nil account a cost line must not carry. */
  const NoAccount: Acct := 0

  datatype CostLine = CostLine(id: Id, account: Acct, split: SplitMethod, amount: real)

  /** A received line: its done move's item and destination, the bases of the three splits, what is
      still on hand, the quantity of its execution line and its resolved inventory account. */
  datatype Target = Target(
    line: Id, item: Item, dst: Location, done: real, lineQty: real, carried: real, weight: real, remaining: real,
      account: Acct)

  datatype Leg = Leg(account: Acct, amount: real)

  datatype PlanRow = PlanRow(line: Id, cost: Id, share: real, cumulative: real, remaining: real)

  datatype Plan = Plan(rows: seq<PlanRow>, deltas: seq<real>, debits: seq<Leg>, credits: seq<Leg>, amountTotal: real,
    revalued: real)

  /** Targets in write order: by line id, each line once. */
  predicate Ordered(ts: seq<Target>) { forall i, j :: 0 <= i < j < |ts| ==> ts[i].line < ts[j].line }

  // ---- totals of real sequences -----------------------------------------------------

  const TotalOf: seq<real> -> real := (xs: seq<real>) => Total(xs)

  function Plus(xs: seq<real>, ys: seq<real>): seq<real>
    requires |xs| == |ys|
  {
    seq(|xs|, i requires 0 <= i < |xs| => xs[i] + ys[i])
  }

  predicate Wide(m: seq<seq<real>>, n: nat) { forall j :: 0 <= j < |m| ==> |m[j]| == n }

  /** The column sums of a table with rows of length `n`. */
  function Columns(m: seq<seq<real>>, n: nat): (cs: seq<real>)
    requires Wide(m, n)
    ensures |cs| == n
  {
    if m == [] then seq(n, i => 0.0) else Plus(Columns(m[..|m| - 1], n), m[|m| - 1])
  }

  /** Adding a table up by columns or by rows is the same. */
  lemma {:induction false} ColumnsTotal(m: seq<seq<real>>, n: nat)
    requires Wide(m, n)
    ensures Total(Columns(m, n)) == Sum(m, TotalOf)
  {
    if m == [] {
      SumZero(Columns(m, n), Same);
    } else {
      var front := Columns(m[..|m| - 1], n);
      ColumnsTotal(m[..|m| - 1], n);
      SumAdd(Plus(front, m[|m| - 1]), front, m[|m| - 1], Same, Same, Same);
    }
  }

  // ---- the split of one cost line ------------------------------------------------------

  function Basis(t: Target, split: SplitMethod): real {
    match split case ByValue => t.carried case ByWeight => t.done * t.weight case ByQuantity => t.done
  }

  function BasisW(split: SplitMethod): Target -> real { (t: Target) => Basis(t, split) }

  function Denominator(c: CostLine, ts: seq<Target>): real { Sum(ts, BasisW(c.split)) }

  function Proportion(amount: real, basis: real, denominator: real): real
    requires denominator != 0.0
  {
    amount * basis / denominator
  }

  /** The exact proportion of a cost line a target bears. */
  function Exact(c: CostLine, ts: seq<Target>, t: Target): real
    requires Denominator(c, ts) != 0.0
  {
    Proportion(c.amount, Basis(t, c.split), Denominator(c, ts))
  }

  function Rounded(c: CostLine, ts: seq<Target>): Target -> real
    requires Denominator(c, ts) != 0.0
  {
    (t: Target) => Money(Exact(c, ts, t))
  }

  /** Every target but the last bears its rounded proportion; the last bears what is left. */
  function Share(c: CostLine, ts: seq<Target>, i: nat): real
    requires Denominator(c, ts) != 0.0 && i < |ts|
  {
    var n := |ts| - 1;
    if i == n then c.amount - Sum(ts[..n], Rounded(c, ts)) else Rounded(c, ts)(ts[i])
  }

  function Shares(c: CostLine, ts: seq<Target>): (r: seq<real>)
    requires Denominator(c, ts) != 0.0
    ensures |r| == |ts|
  {
    seq(|ts|, i requires 0 <= i < |ts| => Share(c, ts, i))
  }

  /** Only the part of a share whose goods are still on hand revalues them. */
  function Remaining(share: real, t: Target): real {
    if t.done == 0.0 then 0.0 else Money(Part(share, t.remaining, t.done))
  }

  function Deltas(c: CostLine, ts: seq<Target>): (r: seq<real>)
    requires Denominator(c, ts) != 0.0
    ensures |r| == |ts|
  {
    seq(|ts|, i requires 0 <= i < |ts| => Remaining(Share(c, ts, i), ts[i]))
  }

  /** The shares of a cost line sum exactly to its amount. */
  lemma SharesAreTheAmount(c: CostLine, ts: seq<Target>)
    requires ts != [] && Denominator(c, ts) != 0.0
    ensures Total(Shares(c, ts)) == c.amount
  {
    var n := |ts| - 1;
    SumEqual(Shares(c, ts)[..n], ts[..n], Same, Rounded(c, ts));
  }

  function ExactW(c: CostLine, ts: seq<Target>): Target -> real
    requires Denominator(c, ts) != 0.0
  {
    (t: Target) => Exact(c, ts, t)
  }

  lemma ProportionAdds(a: real, x: real, y: real, d: real)
    requires d != 0.0
    ensures Proportion(a, x + y, d) == Proportion(a, x, d) + Proportion(a, y, d)
  {
    assert a * (x + y) == a * x + a * y;
  }

  lemma {:induction false} ExactTotals(c: CostLine, ts: seq<Target>, xs: seq<Target>)
    requires Denominator(c, ts) != 0.0
    ensures Sum(xs, ExactW(c, ts)) == Proportion(c.amount, Sum(xs, BasisW(c.split)), Denominator(c, ts))
  {
    if xs != [] {
      var n := |xs| - 1;
      ExactTotals(c, ts, xs[..n]);
      ProportionAdds(c.amount, Sum(xs[..n], BasisW(c.split)), Basis(xs[n], c.split), Denominator(c, ts));
      hide Proportion, Denominator;
    }
  }

  lemma {:induction false} RoundedNearExact(c: CostLine, ts: seq<Target>, xs: seq<Target>)
    requires Denominator(c, ts) != 0.0
    ensures Abs(Sum(xs, Rounded(c, ts)) - Sum(xs, ExactW(c, ts))) <= |xs| as real * 0.005
  {
    if xs != [] {
      var n := |xs| - 1;
      RoundedNearExact(c, ts, xs[..n]);
      MoneyFacts(Exact(c, ts, xs[n]));
    }
  }

  lemma WholeIsExact(c: CostLine, ts: seq<Target>)
    requires Denominator(c, ts) != 0.0
    ensures Sum(ts, ExactW(c, ts)) == c.amount
  {
    hide Proportion;
    ExactTotals(c, ts, ts);
    WholeProportion(c.amount, Denominator(c, ts));
  }

  lemma WholeProportion(a: real, d: real)
    requires d != 0.0
    ensures Proportion(a, d, d) == a
  {
    var x := a * d;
    assert x / d == a;
  }

  /** Each share but the last is within half a cent of its exact proportion, and the last, which
      takes the rounding difference, within half a cent per other line. Any amount, any sign. */
  lemma ShareBound(c: CostLine, ts: seq<Target>, i: nat)
    requires i < |ts| && Denominator(c, ts) != 0.0
    ensures Abs(Share(c, ts, i) - Exact(c, ts, ts[i])) <= if i == |ts| - 1 then (|ts| - 1) as real * 0.005 else 0.005
  {
    var n := |ts| - 1;
    if i == n {
      WholeIsExact(c, ts);
      RoundedNearExact(c, ts, ts[..n]);
      assert ExactW(c, ts)(ts[n]) == Exact(c, ts, ts[n]);
      hide Rounded, Exact;
      assert Sum(ts, ExactW(c, ts)) == Sum(ts[..n], ExactW(c, ts)) + ExactW(c, ts)(ts[n]);
      assert |ts[..n]| == n;
    } else {
      MoneyFacts(Exact(c, ts, ts[i]));
    }
  }

  // What each method splits by, on its own.
  const CarriedOf: Target -> real := (t: Target) => t.carried
  const WeighedOf: Target -> real := (t: Target) => t.done * t.weight
  const DoneOf: Target -> real := (t: Target) => t.done

  /** `share` is the part of the amount that `basis` is of `total`, to half a cent. */
  predicate Proportionate(share: real, amount: real, basis: real, total: real)
    requires total != 0.0
  {
    Abs(share - amount * basis / total) <= 0.005
  }

  lemma BasisTotals(c: CostLine, ts: seq<Target>)
    ensures Denominator(c, ts) ==
      match c.split
      case ByValue => Sum(ts, CarriedOf)
      case ByWeight => Sum(ts, WeighedOf)
      case ByQuantity => Sum(ts, DoneOf)
  {
    match c.split
    case ByValue => SumEqual(ts, ts, BasisW(c.split), CarriedOf);
    case ByWeight => SumEqual(ts, ts, BasisW(c.split), WeighedOf);
    case ByQuantity => SumEqual(ts, ts, BasisW(c.split), DoneOf);
  }

  /** What a method splits by: the value carried in, the quantity done times the unit weight, or the
      quantity done. A cost line can be split exactly when its targets have some of that in all, and
      each share but the last is then in proportion to the target's own. */
  lemma SharesFollowTheMethod(c: CostLine, ts: seq<Target>, i: nat)
    requires i + 1 < |ts|
    ensures c.split == ByValue ==>
      (Denominator(c, ts) != 0.0 <==> Sum(ts, CarriedOf) != 0.0)
      && (Denominator(c, ts) != 0.0 ==>
            Proportionate(Shares(c, ts)[i], c.amount, ts[i].carried, Sum(ts, CarriedOf)))
    ensures c.split == ByWeight ==>
      (Denominator(c, ts) != 0.0 <==> Sum(ts, WeighedOf) != 0.0)
      && (Denominator(c, ts) != 0.0 ==>
            Proportionate(Shares(c, ts)[i], c.amount, ts[i].done * ts[i].weight, Sum(ts, WeighedOf)))
    ensures c.split == ByQuantity ==>
      (Denominator(c, ts) != 0.0 <==> Sum(ts, DoneOf) != 0.0)
      && (Denominator(c, ts) != 0.0 ==>
            Proportionate(Shares(c, ts)[i], c.amount, ts[i].done, Sum(ts, DoneOf)))
  {
    BasisTotals(c, ts);
    if Denominator(c, ts) != 0.0 { ShareBound(c, ts, i); }
    hide Share, Sum;
  }

  /** What one method splits by. */
  predicate SameBasis(split: SplitMethod, t: Target, u: Target) {
    match split
    case ByValue => t.carried == u.carried
    case ByWeight => t.done == u.done && t.weight == u.weight
    case ByQuantity => t.done == u.done
  }

  /** Nothing else about the targets matters to the shares: not what the other methods split by, not their
      items, accounts or stock still on hand. */
  lemma SharesIgnoreTheRest(c: CostLine, ts: seq<Target>, us: seq<Target>)
    requires |ts| == |us| && forall i :: 0 <= i < |ts| ==> SameBasis(c.split, ts[i], us[i])
    ensures Denominator(c, us) == Denominator(c, ts)
    ensures Denominator(c, ts) != 0.0 ==> Shares(c, us) == Shares(c, ts)
  {
    SumEqual(ts, us, BasisW(c.split), BasisW(c.split));
    if Denominator(c, ts) != 0.0 {
      var n := |ts| - 1;
      forall i | 0 <= i < |ts| ensures Rounded(c, ts)(ts[i]) == Rounded(c, us)(us[i]) { }
      if n >= 0 { SumEqual(ts[..n], us[..n], Rounded(c, ts), Rounded(c, us)); }
    }
  }

  lemma {:induction false} RoundedIsCents(c: CostLine, ts: seq<Target>, xs: seq<Target>)
    requires Denominator(c, ts) != 0.0
    ensures IsCents(Sum(xs, Rounded(c, ts)))
  {
    if xs != [] {
      var n := |xs| - 1;
      RoundedIsCents(c, ts, xs[..n]);
      MoneyFacts(Exact(c, ts, xs[n]));
      CentsClosed(Sum(xs[..n], Rounded(c, ts)), Rounded(c, ts)(xs[n]));
    }
  }

  lemma ShareIsCents(c: CostLine, ts: seq<Target>, i: nat)
    requires i < |ts| && Denominator(c, ts) != 0.0 && IsCents(c.amount)
    ensures IsCents(Share(c, ts, i))
  {
    var n := |ts| - 1;
    RoundedIsCents(c, ts, ts[..n]);
    if i == n { CentsClosed(c.amount, Sum(ts[..n], Rounded(c, ts))); } else { MoneyFacts(Exact(c, ts, ts[i])); }
  }

  function Part(share: real, remaining: real, done: real): real
    requires done != 0.0
  {
    share * remaining / done
  }

  lemma PartOf(share: real, remaining: real, done: real)
    requires 0.0 <= remaining <= done && done > 0.0
    ensures Abs(Part(share, remaining, done)) <= Abs(share)
  {
    var r := remaining / done;
    var part := Part(share, remaining, done);
    assert part == share * r;
    Fraction(share, r);
    hide Part;
  }

  lemma Fraction(share: real, r: real)
    requires 0.0 <= r <= 1.0
    ensures Abs(share * r) <= Abs(share)
  {
    var x := share * r;
    if share >= 0.0 { assert 0.0 <= x <= share; } else { assert (-share) * r == -x; assert 0.0 <= -x <= -share; }
  }

  lemma RemainingWithin(share: real, t: Target)
    requires IsCents(share) && 0.0 <= t.remaining <= t.done
    ensures Abs(Remaining(share, t)) <= Abs(share)
  {
    if t.done != 0.0 {
      FromWhole(0.0, 0);
      CentsClosed(0.0, share);
      PartOf(share, t.remaining, t.done);
      hide Part, Money;
      MoneyWithin(Part(share, t.remaining, t.done), Abs(share));
    }
  }

  /** The revalued part of a share is, to half a cent, the fraction of its goods still on hand. */
  lemma DeltaNearPart(c: CostLine, ts: seq<Target>, i: nat)
    requires i < |ts| && Denominator(c, ts) != 0.0
    ensures ts[i].done != 0.0 ==> Proportionate(Deltas(c, ts)[i], Shares(c, ts)[i], ts[i].remaining, ts[i].done)
    ensures ts[i].done == 0.0 ==> Deltas(c, ts)[i] == 0.0
  {
    hide Share;
    var share := Shares(c, ts)[i];
    assert share == Share(c, ts, i);
    if ts[i].done != 0.0 {
      var part := Part(share, ts[i].remaining, ts[i].done);
      MoneyFacts(part);
      assert part == share * ts[i].remaining / ts[i].done;
    }
    hide Money, Part;
  }

  /** The revalued part of a cent-valued cost never exceeds its share. */
  lemma DeltaWithinShare(c: CostLine, ts: seq<Target>, i: nat)
    requires i < |ts| && Denominator(c, ts) != 0.0 && IsCents(c.amount)
    requires 0.0 <= ts[i].remaining <= ts[i].done
    ensures Abs(Deltas(c, ts)[i]) <= Abs(Shares(c, ts)[i])
  {
    hide Remaining, Share;
    ShareIsCents(c, ts, i);
    RemainingWithin(Share(c, ts, i), ts[i]);
  }

  // ---- legs, aggregated per account -------------------------------------------------------

  const LegAmount := (l: Leg) => l.amount

  function AccountW(a: Acct): Leg -> real { (l: Leg) => if l.account == a then l.amount else 0.0 }

  function PerAccount(legs: seq<Leg>, a: Acct): real { Sum(legs, AccountW(a)) }

  predicate OncePerAccount(legs: seq<Leg>) { forall i, j :: 0 <= i < j < |legs| ==> legs[i].account != legs[j].account }

  /** The first entry of an account, or the length when it has none. */
  function Find(legs: seq<Leg>, a: Acct): (i: nat)
    ensures i <= |legs| && (i < |legs| ==> legs[i].account == a)
    ensures forall j :: 0 <= j < i ==> legs[j].account != a
  {
    if legs == [] || legs[0].account == a then 0 else 1 + Find(legs[1..], a)
  }

  /** Accumulate onto the account's entry, first-come order kept; a zero amount opens none. */
  function Push(legs: seq<Leg>, a: Acct, amount: real): seq<Leg> {
    if amount == 0.0 then legs else
    var i := Find(legs, a);
    if i < |legs| then legs[i := Leg(a, legs[i].amount + amount)] else legs + [Leg(a, amount)]
  }

  function PushAll(xs: seq<Leg>): seq<Leg> {
    if xs == [] then [] else Push(PushAll(xs[..|xs| - 1]), xs[|xs| - 1].account, xs[|xs| - 1].amount)
  }

  lemma PushAdds(legs: seq<Leg>, a: Acct, amount: real, b: Acct)
    ensures PerAccount(Push(legs, a, amount), b) == PerAccount(legs, b) + (if a == b then amount else 0.0)
    ensures Sum(Push(legs, a, amount), LegAmount) == Sum(legs, LegAmount) + amount
    ensures OncePerAccount(legs) ==> OncePerAccount(Push(legs, a, amount))
  {
    if amount != 0.0 {
      var i := Find(legs, a);
      if i < |legs| {
        SumUpdate(legs, i, Leg(a, legs[i].amount + amount), AccountW(b));
        SumUpdate(legs, i, Leg(a, legs[i].amount + amount), LegAmount);
      } else {
        SumAppend(legs, Leg(a, amount), AccountW(b));
        SumAppend(legs, Leg(a, amount), LegAmount);
      }
    }
  }

  /** Aggregation keeps every account's total, names each account once, and keeps the grand total. */
  lemma {:induction false} PushAllTotals(xs: seq<Leg>, a: Acct)
    ensures PerAccount(PushAll(xs), a) == PerAccount(xs, a)
    ensures Sum(PushAll(xs), LegAmount) == Sum(xs, LegAmount)
    ensures OncePerAccount(PushAll(xs))
  {
    if xs != [] {
      var n := |xs| - 1;
      PushAllTotals(xs[..n], a);
      PushAdds(PushAll(xs[..n]), xs[n].account, xs[n].amount, a);
    }
  }
}
