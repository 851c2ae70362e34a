/** The loops of the engine's verbs, each over values read in the verb's transaction and proved
    against the function that says what it computes. */
module EngineLoops {
  import opened Common
  import opened StockTypes
  import opened Reservation
  import opened Engine

  /** Write the reverse link on every parent, one after the other. */
  method LinkAll(moves: map<Id, Move>, parents: seq<Id>, child: Id) returns (linked: map<Id, Move>)
    ensures linked == LinkParents(moves, parents, child)
  {
    linked := moves;
    for i := 0 to |parents|
      invariant linked == LinkParents(moves, parents[..i], child)
    {
      var p := parents[i];
      assert parents[..i + 1] == parents[..i] + [p];
      if p in linked { linked := linked[p := LinkParent(linked[p], child)]; }
    }
    assert parents[..|parents|] == parents;
  }

  lemma ReserveSkip(quants: map<Dims, Quant>, cands: seq<Dims>, need: real, m: Id, dstLoc: Loc, st: MoveState)
    requires cands != [] && need > 0.0 && Free(quants, cands[0]) <= 0.0
    ensures Reserve(quants, cands, need, m, dstLoc, st) == Reserve(quants, cands[1..], need, m, dstLoc, st)
  {
  }

  /** Walk the candidates while something is still needed. */
  method ReserveCandidates(quants: map<Dims, Quant>, cands: seq<Dims>, need: real, m: Id, dstLoc: Loc, st: MoveState)
      returns (r: Reserved)
    ensures r == Reserve(quants, cands, need, m, dstLoc, st)
  {
    var q, lines, took, remaining := quants, [], 0.0, need;
    var i := 0;
    while i < |cands| && remaining > 0.0
      invariant 0 <= i <= |cands|
      invariant var rest := Reserve(q, cands[i..], remaining, m, dstLoc, st);
        Reserve(quants, cands, need, m, dstLoc, st) == Reserved(rest.quants, lines + rest.lines, took + rest.took)
    {
      var d := cands[i];
      assert cands[i..][0] == d && cands[i..][1..] == cands[i + 1..];
      var locked := QuantAt(q, d);
      var free := locked.quantity - locked.reserved;
      if free > 0.0 {
        var take := if free < remaining then free else remaining;
        var l := Line(m, d, dstLoc, None, take, st);
        ghost var rest := Reserve(q[d := Quant(locked.quantity, locked.reserved + take)], cands[i + 1..],
          remaining - take, m, dstLoc, st);
        assert lines + ([l] + rest.lines) == lines + [l] + rest.lines;
        q := q[d := Quant(locked.quantity, locked.reserved + take)];
        lines := lines + [l];
        took := took + take;
        remaining := remaining - take;
      } else {
        ReserveSkip(q, cands[i..], remaining, m, dstLoc, st);
      }
      i := i + 1;
    }
    assert lines + [] == lines;
    r := Reserved(q, lines, took);
  }

  function Members<T>(xs: seq<T>): set<T> { set x | x in xs }

  /** Note a quant's dimensions once. */
  method Note(seen: seq<Dims>, d: Dims) returns (noted: seq<Dims>)
    ensures Members(noted) == Members(seen) + {d}
  {
    noted := if d in seen then seen else seen + [d];
  }

  function DrawnOf(own: seq<Line>): set<Dims> { set l | l in own && l.qty > 0.0 :: l.src }

  lemma TouchedAppend(lines: seq<Line>, l: Line, m: Id)
    ensures Touched(lines + [l], m) == Touched(lines, m) + (if l.mv == m then {l.src} else {})
    ensures DrawnOf(lines + [l]) == DrawnOf(lines) + (if l.qty > 0.0 then {l.src} else {})
  {
    var more := if l.mv == m then {l.src} else {};
    forall d | d in Touched(lines, m) + more ensures d in Touched(lines + [l], m) {
      if d in Touched(lines, m) {
        var x :| x in lines && x.mv == m && x.src == d;
        assert x in lines + [l];
      } else {
        assert l in lines + [l];
      }
    }
    forall d | d in DrawnOf(lines) + (if l.qty > 0.0 then {l.src} else {}) ensures d in DrawnOf(lines + [l]) {
      if d in DrawnOf(lines) {
        var x :| x in lines && x.qty > 0.0 && x.src == d;
        assert x in lines + [l];
      } else {
        assert l in lines + [l];
      }
    }
  }

  /** Re-derive the counter of each listed quant from the live mirror. */
  method RecomputeEach(quants: map<Dims, Quant>, lines: seq<Line>, dims: seq<Dims>) returns (after: map<Dims, Quant>)
    ensures after == Recompute(quants, lines, Members(dims))
  {
    after := quants;
    for i := 0 to |dims|
      invariant after == Recompute(quants, lines, Members(dims[..i]))
    {
      var d := dims[i];
      assert dims[..i + 1] == dims[..i] + [d];
      assert Members(dims[..i + 1]) == Members(dims[..i]) + {d};
      after := after[d := Quant(QuantAt(after, d).quantity, Mirror(lines, d))];
    }
    assert dims[..|dims|] == dims;
  }

  function PositiveOfW(m: Id): Line -> real { (l: Line) => if l.mv == m && l.qty > 0.0 then l.qty else 0.0 }

  lemma ZeroNext(lines: seq<Line>, i: nat, m: Id)
    requires i < |lines|
    ensures ZeroLines(lines[..i + 1], m) + lines[i + 1..] ==
      (ZeroLines(lines[..i], m) + lines[i..])[i := ZeroLine(lines[i], m)]
    ensures (ZeroLines(lines[..i], m) + lines[i..])[i] == lines[i]
  {
  }

  /** Zero the lines of a move, noting each distinct quant they touched, then recompute those. */
  method ReleaseLines(lines: seq<Line>, quants: map<Dims, Quant>, m: Id)
    returns (zeroed: seq<Line>, after: map<Dims, Quant>, released: real)
    ensures zeroed == ZeroLines(lines, m)
    ensures after == Recompute(quants, zeroed, Touched(lines, m))
    ensures released == Sum(lines, PositiveOfW(m))
  {
    var seen: seq<Dims> := [];
    zeroed, released := lines, 0.0;
    for i := 0 to |lines|
      invariant zeroed == ZeroLines(lines[..i], m) + lines[i..]
      invariant Members(seen) == Touched(lines[..i], m)
      invariant released == Sum(lines[..i], PositiveOfW(m))
    {
      var line := lines[i];
      assert lines[..i + 1] == lines[..i] + [line];
      SumAppend(lines[..i], line, PositiveOfW(m));
      TouchedAppend(lines[..i], line, m);
      ZeroNext(lines, i, m);
      if line.mv == m {
        if line.qty > 0.0 { released := released + line.qty; }
        zeroed := zeroed[i := line.(qty := 0.0)];
        seen := Note(seen, line.src);
      }
    }
    assert lines[..|lines|] == lines && ZeroLines(lines, m) + [] == ZeroLines(lines, m);
    after := RecomputeEach(quants, zeroed, seen);
  }

  /** The reserved step of a done: one recompute per distinct source of a positive line. */
  method ReleaseDrawn(quants: map<Dims, Quant>, lines: seq<Line>, own: seq<Line>) returns (after: map<Dims, Quant>)
    ensures after == Recompute(quants, lines, DrawnOf(own))
  {
    var seen: seq<Dims> := [];
    for i := 0 to |own|
      invariant Members(seen) == DrawnOf(own[..i])
    {
      assert own[..i + 1] == own[..i] + [own[i]];
      TouchedAppend(own[..i], own[i], own[i].mv);
      if own[i].qty > 0.0 { seen := Note(seen, own[i].src); }
    }
    assert own[..|own|] == own;
    after := RecomputeEach(quants, lines, seen);
  }

  /** The available step of a done: each line in turn draws its source and lands at its destination. */
  method DrawLines(quants: map<Dims, Quant>, own: seq<Line>, fromSrc: bool, toDst: bool)
      returns (r: Outcome<map<Dims, Quant>>)
    ensures r == DrawAll(quants, own, fromSrc, toDst)
  {
    var q := quants;
    for i := 0 to |own|
      invariant DrawAll(quants, own[..i], fromSrc, toDst) == Ok(q)
    {
      var l := own[i];
      assert own[..i + 1][..i] == own[..i];
      if l.qty > 0.0 {
        if fromSrc {
          var src := QuantAt(q, l.src);
          if src.quantity < l.qty {
            DrawStaysRefused(quants, own, i + 1, fromSrc, toDst);
            return Err(InsufficientStock);
          }
          q := q[l.src := Quant(src.quantity - l.qty, src.reserved)];
        }
        if toDst {
          var dst := QuantAt(q, DstDims(l));
          q := q[DstDims(l) := Quant(dst.quantity + l.qty, dst.reserved)];
        }
      }
    }
    assert own[..|own|] == own;
    r := Ok(q);
  }

  lemma {:induction false} DrawStaysRefused(quants: map<Dims, Quant>, own: seq<Line>, n: nat, fromSrc: bool,
      toDst: bool)
    requires n <= |own| && DrawAll(quants, own[..n], fromSrc, toDst).Err?
    ensures DrawAll(quants, own, fromSrc, toDst) == Err(InsufficientStock)
  {
    if n == |own| {
      assert own[..n] == own;
      RefusalIsStock(quants, own, fromSrc, toDst);
    } else {
      assert own[..|own| - 1][..n] == own[..n];
      DrawStaysRefused(quants, own[..|own| - 1], n, fromSrc, toDst);
    }
  }

  lemma {:induction false} RefusalIsStock(quants: map<Dims, Quant>, own: seq<Line>, fromSrc: bool, toDst: bool)
    ensures DrawAll(quants, own, fromSrc, toDst).Err? ==> DrawAll(quants, own, fromSrc, toDst) == Err(InsufficientStock)
  {
    if own != [] { RefusalIsStock(quants, own[..|own| - 1], fromSrc, toDst); }
  }

  /** Confirm every waiting child whose parents are all done. Confirming one never makes another
      releasable, so the order of the children does not matter. */
  method ReleaseChildren(moves: map<Id, Move>, children: seq<Id>) returns (after: map<Id, Move>)
    ensures after == Release(moves, children)
  {
    after := moves;
    for i := 0 to |children|
      invariant after == Release(moves, children[..i])
    {
      var c := children[i];
      assert children[..i + 1] == children[..i] + [c];
      if c in after && after[c].state == Waiting {
        assert after[c] == moves[c];
        SameParentsReleased(moves, children[..i], moves[c]);
        if ParentsDone(after, after[c]) { after := after[c := after[c].(state := Confirmed)]; }
      }
    }
    assert children[..|children|] == children;
  }

  lemma SameParentsReleased(moves: map<Id, Move>, kids: seq<Id>, mv: Move)
    ensures ParentsDone(Release(moves, kids), mv) <==> ParentsDone(moves, mv)
  {
    var after := Release(moves, kids);
    forall p | p in moves ensures after[p].state == Done <==> moves[p].state == Done {}
  }

  /** The done quantity, or the refusal of a negative line. */
  method TotalDone(own: seq<Line>) returns (r: Outcome<real>)
    ensures r == if exists l :: l in own && l.qty < 0.0 then Err(NegativeQuantity) else Ok(Sum(own, QtyOf))
  {
    var total := 0.0;
    for i := 0 to |own|
      invariant total == Sum(own[..i], QtyOf)
      invariant forall l :: l in own[..i] ==> l.qty >= 0.0
    {
      assert own[..i + 1][..i] == own[..i];
      assert own[..i + 1] == own[..i] + [own[i]];
      if own[i].qty < 0.0 { return Err(NegativeQuantity); }
      total := total + own[i].qty;
    }
    assert own[..|own|] == own;
    r := Ok(total);
  }
}
