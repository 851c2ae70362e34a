/** The reservation triangle: the quant's reserved counter, the live move lines that mirror it,
    and the two ways the counter is written, by a delta on assign and by a recompute on release. */
module Reservation {
  import opened Common
  import opened StockTypes

  const Nowhere := Location(View, None, None)

  function LocAt(locs: map<Loc, Location>, l: Loc): Location { if l in locs then locs[l] else Nowhere }

  predicate IsInternal(locs: map<Loc, Location>, l: Loc) { LocAt(locs, l).usage == Internal }

  function QuantAt(quants: map<Dims, Quant>, d: Dims): Quant { if d in quants then quants[d] else Quant(0.0, 0.0) }

  function Free(quants: map<Dims, Quant>, d: Dims): real { QuantAt(quants, d).quantity - QuantAt(quants, d).reserved }

  /** Where a line's stock lands: the result package replaces the source package when named. */
  function DstDims(l: Line): Dims {
    Dims(l.src.item, l.dstLoc, l.src.lot, if l.resultPkg.Some? then l.resultPkg else l.src.pkg, l.src.owner)
  }

  // ---- what lines add up to -----------------------------------------------------

  function LiveW(d: Dims): Line -> real { (l: Line) => if l.src == d && Live(l.state) then l.qty else 0.0 }
  function OfW(m: Id): Line -> real { (l: Line) => if l.mv == m then l.qty else 0.0 }
  function HeldW(m: Id, d: Dims): Line -> real { (l: Line) => if l.mv == m && l.src == d then l.qty else 0.0 }
  function OtherLiveW(m: Id, d: Dims): Line -> real {
    (l: Line) => if l.mv != m && l.src == d && Live(l.state) then l.qty else 0.0
  }
  function SrcW(d: Dims): Line -> real { (l: Line) => if l.src == d then l.qty else 0.0 }
  /** What lands at `d`: the line's own item, lot and owner at its destination, in its result package
      when it names one and in its source package otherwise. */
  function LandsW(d: Dims): Line -> real {
    (l: Line) => if l.src.item == d.item && l.dstLoc == d.loc && l.src.lot == d.lot && l.src.owner == d.owner
        && (if l.resultPkg.Some? then l.resultPkg == d.pkg else l.src.pkg == d.pkg) then l.qty else 0.0
  }
  const QtyOf: Line -> real := (l: Line) => l.qty

  /** The mirror at `d`: what the live lines hold there. */
  function Mirror(lines: seq<Line>, d: Dims): real { Sum(lines, LiveW(d)) }

  /** What the lines of one move add up to. */
  function MoveQty(lines: seq<Line>, m: Id): real { Sum(lines, OfW(m)) }

  function LinesOf(lines: seq<Line>, m: Id): seq<Line> {
    if lines == [] then [] else
    var l := lines[|lines| - 1];
    LinesOf(lines[..|lines| - 1], m) + (if l.mv == m then [l] else [])
  }

  lemma {:induction false} LinesOfMembers(lines: seq<Line>, m: Id)
    ensures forall l :: l in LinesOf(lines, m) <==> l in lines && l.mv == m
  {
    if lines != [] {
      var n := |lines| - 1;
      LinesOfMembers(lines[..n], m);
      assert lines == lines[..n] + [lines[n]];
    }
  }

  /** Summing over a move's lines is summing over all lines a weight that sees only that move. */
  lemma {:induction false} SumLinesOf(lines: seq<Line>, m: Id, w: Line -> real, all: Line -> real)
    requires forall l :: l in lines ==> all(l) == if l.mv == m then w(l) else 0.0
    ensures Sum(LinesOf(lines, m), w) == Sum(lines, all)
  {
    if lines != [] {
      var n := |lines| - 1;
      SumLinesOf(lines[..n], m, w, all);
      SumConcat(LinesOf(lines[..n], m), if lines[n].mv == m then [lines[n]] else [], w);
      SumAppend([], lines[n], w);
      assert [] + [lines[n]] == [lines[n]];
    }
  }

  function ZeroLine(l: Line, m: Id): Line { if l.mv == m then l.(qty := 0.0) else l }
  function ZeroLines(lines: seq<Line>, m: Id): seq<Line> {
    seq(|lines|, i requires 0 <= i < |lines| => ZeroLine(lines[i], m))
  }

  function StampLine(l: Line, m: Id, st: MoveState): Line { if l.mv == m then l.(state := st) else l }
  function StampLines(lines: seq<Line>, m: Id, st: MoveState): seq<Line> {
    seq(|lines|, i requires 0 <= i < |lines| => StampLine(lines[i], m, st))
  }

  /** The source dimensions a move's lines touch. */
  function Touched(lines: seq<Line>, m: Id): set<Dims> { set l | l in lines && l.mv == m :: l.src }

  /** The self-heal: each listed counter is re-derived from the live mirror. */
  function Recompute(quants: map<Dims, Quant>, lines: seq<Line>, ds: set<Dims>): map<Dims, Quant> {
    map d | d in quants.Keys + ds ::
      Quant(QuantAt(quants, d).quantity, if d in ds then Mirror(lines, d) else quants[d].reserved)
  }

  // ---- the triangle ---------------------------------------------------------------

  /** The mirror is within the counter and the counter within the stock; `exact` says the mirror
      is the counter. */
  predicate Corner(lines: seq<Line>, q: Quant, d: Dims, exact: bool) {
    0.0 <= Mirror(lines, d) <= q.reserved <= q.quantity && (exact ==> Mirror(lines, d) == q.reserved)
  }

  /** Every internal quant is a corner of the triangle. */
  ghost predicate Triangle(locs: map<Loc, Location>, lines: seq<Line>, quants: map<Dims, Quant>, exact: bool) {
    forall d: Dims {:trigger QuantAt(quants, d)} | IsInternal(locs, d.loc) ::
      Corner(lines, QuantAt(quants, d), d, exact)
  }

  predicate QtysNonNegative(lines: seq<Line>) { forall l :: l in lines ==> l.qty >= 0.0 }

  lemma MirrorNonNegative(lines: seq<Line>, d: Dims)
    requires QtysNonNegative(lines)
    ensures Mirror(lines, d) >= 0.0
  {
    SumNonNegative(lines, LiveW(d));
  }

  // ---- assign: reserve by a delta -----------------------------------------------------

  datatype Reserved = Reserved(quants: map<Dims, Quant>, lines: seq<Line>, took: real)

  /** Walk the candidates in order, each giving the lesser of what it has free and what is still
      needed, one mirror line per quant reserved. */
  function Reserve(quants: map<Dims, Quant>, cands: seq<Dims>, need: real, m: Id, dstLoc: Loc, st: MoveState): Reserved
    decreases |cands|
  {
    if cands == [] || need <= 0.0 then Reserved(quants, [], 0.0) else
    var d := cands[0];
    var free := Free(quants, d);
    if free <= 0.0 then Reserve(quants, cands[1..], need, m, dstLoc, st) else
    var take := if free < need then free else need;
    var q := QuantAt(quants, d);
    var rest := Reserve(quants[d := Quant(q.quantity, q.reserved + take)], cands[1..], need - take, m, dstLoc, st);
    Reserved(rest.quants, [Line(m, d, dstLoc, None, take, st)] + rest.lines, take + rest.took)
  }

  lemma AppendMirror(lines: seq<Line>, l: Line, d: Dims)
    ensures Mirror(lines + [l], d) == Mirror(lines, d) + (if l.src == d && Live(l.state) then l.qty else 0.0)
  {
    SumAppend(lines, l, LiveW(d));
  }

  lemma ReserveOne(locs: map<Loc, Location>, lines: seq<Line>, quants: map<Dims, Quant>, exact: bool, l: Line)
    requires Triangle(locs, lines, quants, exact)
    requires 0.0 < l.qty <= Free(quants, l.src) && Live(l.state)
    ensures var q := QuantAt(quants, l.src);
      Triangle(locs, lines + [l], quants[l.src := Quant(q.quantity, q.reserved + l.qty)], exact)
  {
    var q := QuantAt(quants, l.src);
    var after := quants[l.src := Quant(q.quantity, q.reserved + l.qty)];
    forall d: Dims {:trigger QuantAt(after, d)} | IsInternal(locs, d.loc)
      ensures Corner(lines + [l], QuantAt(after, d), d, exact)
    {
      AppendMirror(lines, l, d);
      assert Corner(lines, QuantAt(quants, d), d, exact);
    }
  }

  /** Reserving keeps the triangle whatever else is reserved, and moves no stock. */
  lemma {:induction false} ReserveKeepsTriangle(locs: map<Loc, Location>, lines: seq<Line>, quants: map<Dims, Quant>,
      exact: bool,
      cands: seq<Dims>, need: real, m: Id, dstLoc: Loc, st: MoveState)
    requires Triangle(locs, lines, quants, exact) && Live(st)
    ensures var r := Reserve(quants, cands, need, m, dstLoc, st);
      Triangle(locs, lines + r.lines, r.quants, exact)
        && forall d :: QuantAt(r.quants, d).quantity == QuantAt(quants, d).quantity
    decreases |cands|
  {
    if cands == [] || need <= 0.0 {
      assert lines + [] == lines;
    } else {
      var d := cands[0];
      var free := Free(quants, d);
      if free <= 0.0 {
        ReserveKeepsTriangle(locs, lines, quants, exact, cands[1..], need, m, dstLoc, st);
      } else {
        var take := if free < need then free else need;
        var q := QuantAt(quants, d);
        var l := Line(m, d, dstLoc, None, take, st);
        var q1 := quants[d := Quant(q.quantity, q.reserved + take)];
        ReserveOne(locs, lines, quants, exact, l);
        ReserveKeepsTriangle(locs, lines + [l], q1, exact, cands[1..], need - take, m, dstLoc, st);
        var rest := Reserve(q1, cands[1..], need - take, m, dstLoc, st);
        assert lines + [l] + rest.lines == lines + ([l] + rest.lines);
      }
    }
  }

  predicate MintedFor(l: Line, cands: seq<Dims>, m: Id, dstLoc: Loc, st: MoveState) {
    l.mv == m && l.src in cands && l.dstLoc == dstLoc && l.resultPkg.None? && l.qty > 0.0 && l.state == st
  }

  /** Every minted line is positive and at a candidate. */
  lemma {:induction false} ReserveMints(quants: map<Dims, Quant>, cands: seq<Dims>, need: real, m: Id, dstLoc: Loc,
      st: MoveState)
    ensures forall l :: l in Reserve(quants, cands, need, m, dstLoc, st).lines ==> MintedFor(l, cands, m, dstLoc, st)
    decreases |cands|
  {
    if cands != [] && need > 0.0 {
      var free := Free(quants, cands[0]);
      var take := if free < need then free else need;
      var q := QuantAt(quants, cands[0]);
      var q1 := quants[cands[0] := Quant(q.quantity, q.reserved + take)];
      ReserveMints(quants, cands[1..], need, m, dstLoc, st);
      ReserveMints(q1, cands[1..], need - take, m, dstLoc, st);
      forall l | MintedFor(l, cands[1..], m, dstLoc, st) ensures MintedFor(l, cands, m, dstLoc, st) {
        assert cands == [cands[0]] + cands[1..];
      }
    }
  }

  /** The minted lines sum to what was taken. */
  lemma {:induction false} ReserveSum(quants: map<Dims, Quant>, cands: seq<Dims>, need: real, m: Id, dstLoc: Loc,
      st: MoveState)
    ensures var r := Reserve(quants, cands, need, m, dstLoc, st); r.took == Sum(r.lines, QtyOf)
    decreases |cands|
  {
    if cands != [] && need > 0.0 {
      var d := cands[0];
      var free := Free(quants, d);
      if free <= 0.0 {
        ReserveSum(quants, cands[1..], need, m, dstLoc, st);
      } else {
        var take := if free < need then free else need;
        var q := QuantAt(quants, d);
        var l := Line(m, d, dstLoc, None, take, st);
        var q1 := quants[d := Quant(q.quantity, q.reserved + take)];
        var rest := Reserve(q1, cands[1..], need - take, m, dstLoc, st);
        ReserveSum(q1, cands[1..], need - take, m, dstLoc, st);
        SumConcat([l], rest.lines, QtyOf);
        SumAppend([], l, QtyOf);
        assert [] + [l] == [l];
      }
    }
  }

  /** No more than the need is taken, and all of it unless every candidate is exhausted. */
  lemma {:induction false} ReserveTakes(quants: map<Dims, Quant>, cands: seq<Dims>, need: real, m: Id, dstLoc: Loc,
      st: MoveState)
    ensures var r := Reserve(quants, cands, need, m, dstLoc, st);
      && 0.0 <= r.took && (need > 0.0 ==> r.took <= need)
      && (forall d :: Free(r.quants, d) <= Free(quants, d))
      && (need <= 0.0 || r.took == need || forall d :: d in cands ==> Free(r.quants, d) <= 0.0)
    decreases |cands|
  {
    if cands != [] && need > 0.0 {
      var d := cands[0];
      var free := Free(quants, d);
      assert cands == [d] + cands[1..];
      if free <= 0.0 {
        ReserveTakes(quants, cands[1..], need, m, dstLoc, st);
        assert Free(Reserve(quants, cands[1..], need, m, dstLoc, st).quants, d) <= Free(quants, d);
      } else {
        var take := if free < need then free else need;
        var q := QuantAt(quants, d);
        var q1 := quants[d := Quant(q.quantity, q.reserved + take)];
        ReserveTakes(q1, cands[1..], need - take, m, dstLoc, st);
        assert Free(Reserve(q1, cands[1..], need - take, m, dstLoc, st).quants, d) <= Free(q1, d) == free - take;
      }
    }
  }

  /** A quant off the list is not touched. */
  lemma {:induction false} ReserveOutside(quants: map<Dims, Quant>, cands: seq<Dims>, need: real, m: Id, dstLoc: Loc,
      st: MoveState, d: Dims)
    requires d !in cands
    ensures QuantAt(Reserve(quants, cands, need, m, dstLoc, st).quants, d) == QuantAt(quants, d)
    decreases |cands|
  {
    if cands != [] && need > 0.0 {
      var free := Free(quants, cands[0]);
      var take := if free < need then free else need;
      var q := QuantAt(quants, cands[0]);
      ReserveOutside(quants, cands[1..], need, m, dstLoc, st, d);
      ReserveOutside(quants[cands[0] := Quant(q.quantity, q.reserved + take)], cands[1..], need - take, m, dstLoc,
        st, d);
    }
  }

  predicate Exhausts(quants: map<Dims, Quant>, after: map<Dims, Quant>, earlier: Dims, later: Dims) {
    QuantAt(after, later) != QuantAt(quants, later) ==> Free(after, earlier) <= 0.0
  }

  /** What the first candidate is left with, and what the rest are asked for. */
  lemma ReserveHead(quants: map<Dims, Quant>, cands: seq<Dims>, need: real, m: Id, dstLoc: Loc, st: MoveState)
    requires cands != [] && need > 0.0
    ensures var d, free := cands[0], Free(quants, cands[0]); var take := if free < need then free else need;
      Reserve(quants, cands, need, m, dstLoc, st).quants ==
        if free <= 0.0 then Reserve(quants, cands[1..], need, m, dstLoc, st).quants
        else Reserve(quants[d := Quant(QuantAt(quants, d).quantity, QuantAt(quants, d).reserved + take)],
                     cands[1..], need - take, m, dstLoc, st).quants
  {
  }

  lemma {:induction false} EarlierExhausted(quants: map<Dims, Quant>, cands: seq<Dims>, need: real, m: Id, dstLoc: Loc,
      st: MoveState, i: nat, j: nat)
    requires i < j < |cands| && forall a, b :: 0 <= a < b < |cands| ==> cands[a] != cands[b]
    ensures Exhausts(quants, Reserve(quants, cands, need, m, dstLoc, st).quants, cands[i], cands[j])
    decreases |cands|
  {
    if need > 0.0 {
      var d, free, q := cands[0], Free(quants, cands[0]), QuantAt(quants, cands[0]);
      var take := if free < need then free else need;
      var q1 := if free <= 0.0 then quants else quants[d := Quant(q.quantity, q.reserved + take)];
      var left := if free <= 0.0 then need else need - take;
      ReserveHead(quants, cands, need, m, dstLoc, st);
      assert left == 0.0 ==> Reserve(q1, cands[1..], left, m, dstLoc, st).quants == q1;
      hide Reserve;
      assert cands[1..][j - 1] == cands[j] && cands[j] != d;
      if i > 0 {
        EarlierExhausted(q1, cands[1..], left, m, dstLoc, st, i - 1, j - 1);
      } else {
        ReserveTakes(q1, cands[1..], left, m, dstLoc, st);
      }
    }
  }

  /** Candidates are used up in the order the store gave them: one is touched only when every one
      before it has nothing free left. Quants off the list are not touched at all. */
  lemma ReserveInOrder(quants: map<Dims, Quant>, cands: seq<Dims>, need: real, m: Id, dstLoc: Loc, st: MoveState)
    requires forall a, b :: 0 <= a < b < |cands| ==> cands[a] != cands[b]
    ensures var after := Reserve(quants, cands, need, m, dstLoc, st).quants;
      && (forall i, j :: 0 <= i < j < |cands| ==> Exhausts(quants, after, cands[i], cands[j]))
      && (forall d :: d !in cands ==> QuantAt(after, d) == QuantAt(quants, d))
  {
    hide Exhausts, Reserve;
    var after := Reserve(quants, cands, need, m, dstLoc, st).quants;
    forall i, j | 0 <= i < j < |cands| ensures Exhausts(quants, after, cands[i], cands[j]) {
      EarlierExhausted(quants, cands, need, m, dstLoc, st, i, j);
    }
    forall d | d !in cands ensures QuantAt(after, d) == QuantAt(quants, d) {
      ReserveOutside(quants, cands, need, m, dstLoc, st, d);
    }
  }

  // ---- release: recompute from the mirror ----------------------------------------------

  lemma ZeroMirror(lines: seq<Line>, m: Id, d: Dims)
    requires QtysNonNegative(lines)
    ensures Mirror(ZeroLines(lines, m), d) == Sum(lines, OtherLiveW(m, d))
    ensures 0.0 <= Mirror(ZeroLines(lines, m), d) <= Mirror(lines, d)
    ensures d !in Touched(lines, m) ==> Mirror(ZeroLines(lines, m), d) == Mirror(lines, d)
  {
    var zeroed := ZeroLines(lines, m);
    SumEqual(zeroed, lines, LiveW(d), OtherLiveW(m, d));
    SumLe(zeroed, lines, LiveW(d), LiveW(d));
    SumNonNegative(zeroed, LiveW(d));
    if d !in Touched(lines, m) {
      forall i | 0 <= i < |lines| ensures LiveW(d)(zeroed[i]) == LiveW(d)(lines[i]) {
        assert lines[i] in lines;
      }
      SumEqual(zeroed, lines, LiveW(d), LiveW(d));
    }
  }

  /** Zeroing a move's lines and recomputing the counters they touched keeps the triangle. */
  lemma UnreserveKeepsTriangle(locs: map<Loc, Location>, lines: seq<Line>, quants: map<Dims, Quant>, exact: bool, m: Id)
    requires Triangle(locs, lines, quants, exact) && QtysNonNegative(lines)
    ensures var lines' := ZeroLines(lines, m);
      Triangle(locs, lines', Recompute(quants, lines', Touched(lines, m)), exact)
  {
    var lines' := ZeroLines(lines, m);
    var after := Recompute(quants, lines', Touched(lines, m));
    forall d: Dims {:trigger QuantAt(after, d)} | IsInternal(locs, d.loc)
      ensures Corner(lines', QuantAt(after, d), d, exact)
    {
      ZeroMirror(lines, m, d);
      assert Corner(lines, QuantAt(quants, d), d, exact);
    }
  }

  /** Restamping lines between live states, or lines that hold nothing, leaves every mirror. */
  lemma StampMirror(lines: seq<Line>, m: Id, st: MoveState, d: Dims)
    requires forall l :: l in lines && l.mv == m ==>
      (Live(l.state) && Live(st)) || (!Live(l.state) && !Live(st)) || l.qty == 0.0
    ensures Mirror(StampLines(lines, m, st), d) == Mirror(lines, d)
  {
    var stamped := StampLines(lines, m, st);
    forall i | 0 <= i < |lines| ensures LiveW(d)(stamped[i]) == LiveW(d)(lines[i]) {
      assert lines[i] in lines;
    }
    SumEqual(stamped, lines, LiveW(d), LiveW(d));
  }

  lemma StampKeepsTriangle(locs: map<Loc, Location>, lines: seq<Line>, quants: map<Dims, Quant>, exact: bool, m: Id,
      st: MoveState)
    requires Triangle(locs, lines, quants, exact)
    requires forall l :: l in lines && l.mv == m ==>
      (Live(l.state) && Live(st)) || (!Live(l.state) && !Live(st)) || l.qty == 0.0
    ensures Triangle(locs, StampLines(lines, m, st), quants, exact)
  {
    forall d: Dims {:trigger QuantAt(quants, d)} | IsInternal(locs, d.loc)
      ensures Corner(StampLines(lines, m, st), QuantAt(quants, d), d, exact)
    {
      assert Corner(lines, QuantAt(quants, d), d, exact);
      StampMirror(lines, m, st, d);
    }
  }

  // ---- done: release, then draw -----------------------------------------------------------

  function DrawOne(quants: map<Dims, Quant>, l: Line, fromSrc: bool, toDst: bool): Outcome<map<Dims, Quant>> {
    if l.qty <= 0.0 then Ok(quants) else
    var q := QuantAt(quants, l.src);
    if fromSrc && q.quantity < l.qty then Err(InsufficientStock) else
    var q1 := if fromSrc then quants[l.src := Quant(q.quantity - l.qty, q.reserved)] else quants;
    var t := QuantAt(q1, DstDims(l));
    Ok(if toDst then q1[DstDims(l) := Quant(t.quantity + l.qty, t.reserved)] else q1)
  }

  /** The available step: every line draws from an internal source and lands at an internal
      destination; a line the source quant cannot cover refuses the whole move. */
  function DrawAll(quants: map<Dims, Quant>, ls: seq<Line>, fromSrc: bool, toDst: bool): Outcome<map<Dims, Quant>> {
    if ls == [] then Ok(quants) else
    match DrawAll(quants, ls[..|ls| - 1], fromSrc, toDst)
    case Err(e) => Err(e)
    case Ok(q) => DrawOne(q, ls[|ls| - 1], fromSrc, toDst)
  }

  predicate Between(ls: seq<Line>, s: Loc, t: Loc) {
    s != t && forall l :: l in ls ==> l.qty >= 0.0 && l.src.loc == s && l.dstLoc == t
  }

  /** When every source quant covers what its lines draw, no line is refused, and each quant
      changes by exactly what is drawn from it and what lands on it. */
  lemma {:induction false} DrawIsExact(quants: map<Dims, Quant>, ls: seq<Line>, s: Loc, t: Loc, fromSrc: bool,
      toDst: bool)
    requires Between(ls, s, t)
    requires fromSrc ==> forall d: Dims | d.loc == s :: Sum(ls, SrcW(d)) <= QuantAt(quants, d).quantity
    ensures var r := DrawAll(quants, ls, fromSrc, toDst);
      r.Ok? && forall d {:trigger QuantAt(r.value, d)} ::
        && QuantAt(r.value, d).reserved == QuantAt(quants, d).reserved
        && QuantAt(r.value, d).quantity == QuantAt(quants, d).quantity
             - (if fromSrc then Sum(ls, SrcW(d)) else 0.0) + (if toDst then Sum(ls, LandsW(d)) else 0.0)
  {
    if ls != [] {
      var n := |ls| - 1;
      var l := ls[n];
      assert l in ls;
      if fromSrc {
        forall d: Dims | d.loc == s ensures Sum(ls[..n], SrcW(d)) <= QuantAt(quants, d).quantity {
          assert Sum(ls, SrcW(d)) <= QuantAt(quants, d).quantity;
        }
      }
      DrawIsExact(quants, ls[..n], s, t, fromSrc, toDst);
      var q := DrawAll(quants, ls[..n], fromSrc, toDst).value;
      if fromSrc {
        assert Sum(ls[..n], LandsW(l.src)) == 0.0 by { SumZero(ls[..n], LandsW(l.src)); }
        assert Sum(ls, SrcW(l.src)) <= QuantAt(quants, l.src).quantity;
        assert QuantAt(q, l.src).quantity >= l.qty;
      }
      var q' := DrawOne(q, l, fromSrc, toDst).value;
      forall d {:trigger QuantAt(q', d)}
        ensures QuantAt(q', d).reserved == QuantAt(quants, d).reserved
        ensures QuantAt(q', d).quantity == QuantAt(quants, d).quantity
             - (if fromSrc then Sum(ls, SrcW(d)) else 0.0) + (if toDst then Sum(ls, LandsW(d)) else 0.0)
      {
        assert QuantAt(q, d).reserved == QuantAt(quants, d).reserved;
      }
    }
  }

  /** Marking a live move's lines done takes exactly what they hold out of each mirror. */
  lemma DoneMirror(lines: seq<Line>, m: Id, d: Dims)
    requires QtysNonNegative(lines)
    requires forall l :: l in lines && l.mv == m ==> Live(l.state)
    ensures var lines' := StampLines(lines, m, Done);
      Mirror(lines', d) >= 0.0 && Mirror(lines, d) == Mirror(lines', d) + Sum(LinesOf(lines, m), SrcW(d))
    ensures (forall l :: l in lines && l.mv == m && l.qty > 0.0 ==> l.src != d) ==>
      Sum(LinesOf(lines, m), SrcW(d)) == 0.0
  {
    var lines' := StampLines(lines, m, Done);
    SumLinesOf(lines, m, SrcW(d), HeldW(m, d));
    forall i | 0 <= i < |lines|
      ensures LiveW(d)(lines[i]) == LiveW(d)(lines'[i]) + HeldW(m, d)(lines[i]) && LiveW(d)(lines'[i]) >= 0.0 {
      assert lines[i] in lines;
    }
    SumAdd(lines, lines', lines, LiveW(d), LiveW(d), HeldW(m, d));
    SumNonNegative(lines', LiveW(d));
    if forall l :: l in lines && l.mv == m && l.qty > 0.0 ==> l.src != d {
      SumZero(lines, HeldW(m, d));
    }
  }

  /** The done verb's two steps on the quants keep the triangle: the lines drop out of the mirror,
      the counters they touched are recomputed, and then the stock they reserved is drawn. No
      line is refused, whatever else is reserved. */
  lemma DoneKeepsTriangle(locs: map<Loc, Location>, lines: seq<Line>, quants: map<Dims, Quant>, exact: bool, m: Id,
      s: Loc, t: Loc, ds: set<Dims>)
    requires Triangle(locs, lines, quants, exact) && QtysNonNegative(lines)
    requires Between(LinesOf(lines, m), s, t)
    requires forall l :: l in lines && l.mv == m ==> Live(l.state)
    requires forall l :: l in lines && l.mv == m && l.qty > 0.0 ==> l.src in ds
    ensures var lines' := StampLines(lines, m, Done); var q1 := Recompute(quants, lines', ds);
      var r := DrawAll(q1, LinesOf(lines, m), IsInternal(locs, s), IsInternal(locs, t));
      r.Ok? && Triangle(locs, lines', r.value, exact)
  {
    var lines' := StampLines(lines, m, Done);
    var q1 := Recompute(quants, lines', ds);
    var own := LinesOf(lines, m);
    if IsInternal(locs, s) {
      forall d: Dims | d.loc == s ensures Sum(own, SrcW(d)) <= QuantAt(q1, d).quantity {
        assert Corner(lines, QuantAt(quants, d), d, exact);
        DoneMirror(lines, m, d);
      }
    }
    DrawIsExact(q1, own, s, t, IsInternal(locs, s), IsInternal(locs, t));
    var q2 := DrawAll(q1, own, IsInternal(locs, s), IsInternal(locs, t)).value;
    forall d: Dims {:trigger QuantAt(q2, d)} | IsInternal(locs, d.loc)
      ensures Corner(lines', QuantAt(q2, d), d, exact) {
      assert Corner(lines, QuantAt(quants, d), d, exact);
      DoneMirror(lines, m, d);
      SumNonNegative(own, LandsW(d));
      if d.loc != s { SumZero(own, SrcW(d)); }
    }
  }
}
