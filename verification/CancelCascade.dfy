/** The facts behind the cancel cascade: cancelling one more move extends a cancelled set, and a
    set closed under the cascade's hops is everything the cascade reaches. */
module CancelCascade {
  import opened Common
  import opened StockTypes
  import opened Reservation
  import opened Engine

  /** Release one more live move's lines, stamp them and the move cancelled. */
  function CancelOne(s: Estate, m: Id): Estate
    requires m in s.moves
  {
    var u := UnreserveLines(s, m);
    u.(moves := s.moves[m := s.moves[m].(state := Cancelled)], lines := StampLines(u.lines, m, Cancelled))
  }

  lemma CancelLinesOnce(lines: seq<Line>, ms: set<Id>, m: Id)
    ensures StampLines(ZeroLines(CancelLines(lines, ms), m), m, Cancelled) == CancelLines(lines, ms + {m})
  {
  }

  lemma TouchedCancelled(lines: seq<Line>, ms: set<Id>, m: Id)
    ensures Touched(CancelLines(lines, ms), m) == TouchedBy(lines, {m})
    ensures TouchedBy(lines, ms) + TouchedBy(lines, {m}) == TouchedBy(lines, ms + {m})
  {
    var after := CancelLines(lines, ms);
    forall d | d in TouchedBy(lines, {m}) ensures d in Touched(after, m) {
      var l :| l in lines && l.mv == m && l.src == d;
      var i :| 0 <= i < |lines| && lines[i] == l;
      assert after[i] in after;
    }
    forall d | d in Touched(after, m) ensures d in TouchedBy(lines, {m}) {
      var l :| l in after && l.mv == m && l.src == d;
      var i :| 0 <= i < |lines| && after[i] == l;
      assert lines[i] in lines;
    }
  }

  /** Cancelled lines hold nothing, so stamping them again leaves every mirror. */
  lemma StampedMirror(lines: seq<Line>, m: Id, d: Dims)
    ensures Mirror(StampLines(ZeroLines(lines, m), m, Cancelled), d) == Mirror(ZeroLines(lines, m), d)
  {
    forall l | l in ZeroLines(lines, m) && l.mv == m ensures l.qty == 0.0 {
      var i :| 0 <= i < |lines| && l == ZeroLine(lines[i], m);
    }
    StampMirror(ZeroLines(lines, m), m, Cancelled, d);
  }

  lemma UntouchedMirror(lines: seq<Line>, m: Id, d: Dims)
    requires d !in Touched(lines, m)
    ensures Mirror(ZeroLines(lines, m), d) == Mirror(lines, d)
  {
    var zeroed := ZeroLines(lines, m);
    forall i | 0 <= i < |lines| ensures LiveW(d)(zeroed[i]) == LiveW(d)(lines[i]) { assert lines[i] in lines; }
    SumEqual(zeroed, lines, LiveW(d), LiveW(d));
  }

  lemma CancelQuantsOnce(quants: map<Dims, Quant>, lines: seq<Line>, ms: set<Id>, m: Id)
    ensures var before := CancelLines(lines, ms); var zeroed := ZeroLines(before, m);
      Recompute(Recompute(quants, before, TouchedBy(lines, ms)), zeroed, Touched(before, m))
        == Recompute(quants, CancelLines(lines, ms + {m}), TouchedBy(lines, ms + {m}))
  {
    var before := CancelLines(lines, ms);
    var zeroed := ZeroLines(before, m);
    var after := CancelLines(lines, ms + {m});
    CancelLinesOnce(lines, ms, m);
    TouchedCancelled(lines, ms, m);
    hide CancelLines, ZeroLines, Mirror, StampLines;
    forall d ensures Mirror(zeroed, d) == Mirror(after, d)
      && (d !in Touched(before, m) ==> Mirror(before, d) == Mirror(after, d)) {
      StampedMirror(before, m, d);
      if d !in Touched(before, m) { UntouchedMirror(before, m, d); }
    }
    var a := Recompute(Recompute(quants, before, TouchedBy(lines, ms)), zeroed, Touched(before, m));
    var b := Recompute(quants, after, TouchedBy(lines, ms + {m}));
    assert a.Keys == b.Keys;
    forall d | d in a.Keys ensures a[d] == b[d] { }
  }

  /** Cancelling a move after a set is cancelling the set with the move in it. */
  lemma CancelOneMore(s: Estate, ms: set<Id>, m: Id)
    requires m in s.moves
    ensures CancelOne(CancelAll(s, ms), m) == CancelAll(s, ms + {m})
  {
    CancelLinesOnce(s.lines, ms, m);
    CancelQuantsOnce(s.quants, s.lines, ms, m);
    var a := CancelOne(CancelAll(s, ms), m);
    assert a.moves == CancelMoves(s.moves, ms + {m});
  }

  lemma CancelNone(s: Estate)
    ensures CancelAll(s, {}) == s
  {
    assert CancelLines(s.lines, {}) == s.lines;
    assert CancelMoves(s.moves, {}) == s.moves;
    assert TouchedBy(s.lines, {}) == {};
    assert Recompute(s.quants, s.lines, {}) == s.quants by {
      forall d | d in s.quants ensures Recompute(s.quants, s.lines, {})[d] == s.quants[d] {}
    }
  }

  lemma OutsideCancel(s: Estate, ms: set<Id>, m: Id)
    requires m !in ms
    ensures var after := CancelAll(s, ms).moves;
      (m in after <==> m in s.moves) && (m in after ==> after[m] == s.moves[m])
  {
  }

  lemma CancelAllKeeps(s: Estate, ms: set<Id>)
    ensures CancelAll(s, ms).(moves := s.moves, lines := s.lines, quants := s.quants) == s
  {
  }

  // ---- reachability ------------------------------------------------------------------

  lemma RootReached(moves: map<Id, Move>, root: Id)
    ensures Reached(moves, root, root)
  {
    assert CancelPath(moves, [root], root, root);
  }

  lemma HopReaches(moves: map<Id, Move>, root: Id, a: Id, b: Id)
    requires Reached(moves, root, a) && CancelHop(moves, a, b)
    ensures Reached(moves, root, b)
  {
    var path :| CancelPath(moves, path, root, a);
    var longer := path + [b];
    assert CancelPath(moves, longer, root, b);
  }

  lemma {:induction false} PathStaysInside(moves: map<Id, Move>, path: seq<Id>, root: Id, m: Id, inside: set<Id>)
    requires CancelPath(moves, path, root, m) && root in inside
    requires forall a, b :: a in inside && CancelHop(moves, a, b) ==> b in inside
    ensures m in inside
  {
    var n := |path| - 1;
    if n > 0 {
      assert CancelPath(moves, path[..n], root, path[n - 1]);
      PathStaysInside(moves, path[..n], root, path[n - 1], inside);
      assert CancelHop(moves, path[n - 1], path[n - 1 + 1]);
    }
  }

  /** A set of reached moves that contains the root and is closed under hops is the cancel set. */
  lemma ClosedIsCancelSet(moves: map<Id, Move>, root: Id, inside: set<Id>)
    requires root in inside
    requires forall m :: m in inside ==> m in moves && Reached(moves, root, m)
    requires forall a, b :: a in inside && CancelHop(moves, a, b) ==> b in inside
    ensures inside == CancelSet(moves, root)
  {
    forall m | m in CancelSet(moves, root) ensures m in inside {
      var path :| CancelPath(moves, path, root, m);
      PathStaysInside(moves, path, root, m, inside);
    }
  }

  /** A set with the root in it, and with every live child its live, propagating moves name. */
  ghost predicate Closed(moves: map<Id, Move>, root: Id, inside: set<Id>) {
    && root in inside
    && forall a, b | a in inside && a in moves && b in moves && b in moves[a].dest ::
         Live(moves[a].state) && moves[a].propagate && Live(moves[b].state) ==> b in inside
  }

  /** What a cancel reaches is the least such set: a move is reached exactly when it is in every one. */
  lemma ReachedIffInEveryClosed(moves: map<Id, Move>, root: Id, m: Id)
    ensures Reached(moves, root, m) <==>
      forall inside: set<Id> {:trigger Closed(moves, root, inside)} :: Closed(moves, root, inside) ==> m in inside
  {
    if Reached(moves, root, m) {
      var path :| CancelPath(moves, path, root, m);
      forall inside: set<Id> {:trigger Closed(moves, root, inside)} | Closed(moves, root, inside) ensures m in inside {
        PathStaysInside(moves, path, root, m, inside);
      }
    } else {
      var reached := CancelSet(moves, root) + {root};
      RootReached(moves, root);
      forall a, b | a in reached && a in moves && b in moves && b in moves[a].dest
        && Live(moves[a].state) && moves[a].propagate && Live(moves[b].state) ensures b in reached {
        assert CancelHop(moves, a, b);
        HopReaches(moves, root, a, b);
      }
      assert Closed(moves, root, reached) && m !in reached;
    }
  }

  // ---- the breadth-first walk ----------------------------------------------------------

  /** `f` is a child some cancelled, propagating move hands on. */
  predicate HandedOn(moves: map<Id, Move>, gone: set<Id>, f: Id) {
    exists p :: p in gone && p in moves && moves[p].propagate && f in moves[p].dest
  }

  /** Mid-walk: what is cancelled was live and reached, and each child it hands on was visited or
      waits in the frontier, which holds nothing else. */
  ghost predicate Walked(moves: map<Id, Move>, root: Id, gone: set<Id>, visited: set<Id>, frontier: seq<Id>) {
    && root in gone
    && (forall m :: m in gone ==> m in moves && Live(moves[m].state) && Reached(moves, root, m))
    && (forall f :: HandedOn(moves, gone, f) ==> f in visited || f in frontier)
    && (forall f :: f in frontier ==> HandedOn(moves, gone, f))
  }

  lemma WalkStarts(moves: map<Id, Move>, root: Id)
    requires root in moves && Live(moves[root].state)
    ensures Walked(moves, root, {root}, {root}, if moves[root].propagate then moves[root].dest else [])
  {
    RootReached(moves, root);
    if moves[root].propagate {
      forall f | f in moves[root].dest ensures HandedOn(moves, {root}, f) { assert root in {root}; }
    }
  }

  /** Cancelling one live move of the generation extends the walk by its children. */
  lemma WalkExtends(moves: map<Id, Move>, root: Id, gone: set<Id>, visited: set<Id>, frontier: seq<Id>, f: Id)
    requires Walked(moves, root, gone, visited, frontier)
    requires f in moves && Live(moves[f].state) && HandedOn(moves, gone, f)
    ensures Walked(moves, root, gone + {f}, visited, frontier + (if moves[f].propagate then moves[f].dest else []))
  {
    var gone' := gone + {f};
    var more := if moves[f].propagate then moves[f].dest else [];
    var p :| p in gone && p in moves && moves[p].propagate && f in moves[p].dest;
    assert CancelHop(moves, p, f);
    HopReaches(moves, root, p, f);
    forall x | HandedOn(moves, gone', x) ensures x in visited || x in frontier + more {
      if !HandedOn(moves, gone, x) {
        var q :| q in gone' && q in moves && moves[q].propagate && x in moves[q].dest;
        assert q == f;
      }
    }
    forall x | x in frontier + more ensures HandedOn(moves, gone', x) {
      if x in frontier {
        var q :| q in gone && q in moves && moves[q].propagate && x in moves[q].dest;
        assert q in gone';
      } else {
        assert f in gone';
      }
    }
  }

  lemma HandedOnGrows(moves: map<Id, Move>, gone: set<Id>, more: set<Id>, f: Id)
    requires HandedOn(moves, gone, f) && gone <= more
    ensures HandedOn(moves, more, f)
  {
  }

  /** A walk with nothing left in the frontier has cancelled exactly the cancel set. */
  lemma WalkEnds(moves: map<Id, Move>, root: Id, gone: set<Id>, visited: set<Id>)
    requires Walked(moves, root, gone, visited, [])
    requires forall v :: v in visited && v in moves && Live(moves[v].state) ==> v in gone
    ensures gone == CancelSet(moves, root)
  {
    forall a, b | a in gone && CancelHop(moves, a, b) ensures b in gone { assert HandedOn(moves, gone, b); }
    ClosedIsCancelSet(moves, root, gone);
  }

  lemma SetShrinks<T>(small: set<T>, large: set<T>)
    requires small < large
    ensures |small| < |large|
  {
    assert large == small + (large - small);
    assert |large| == |small| + |large - small|;
    assert large - small != {};
  }

  /** A cancel is refused exactly for a move that does not exist, is done or was cancelled. */
  lemma CancelRefusedIff(s: Estate, root: Id)
    ensures var r := Cancel(s, root);
      && (r == Err(NotFound) <==> root !in s.moves)
      && (r == Err(WrongMoveState) <==>
            root in s.moves && (s.moves[root].state == Done || s.moves[root].state == Cancelled))
      && (r.Err? ==> r.error == NotFound || r.error == WrongMoveState)
  {
  }

  /** What a cancel leaves, move by move: exactly the reached moves are cancelled and hold nothing,
      every other move and its lines are untouched, and no done move was reached. */
  lemma CancelIsExact(s: Estate, root: Id, m: Id)
    requires Cancel(s, root).Ok? && m in s.moves
    ensures var s' := Cancel(s, root).value; var reached := Reached(s.moves, root, m);
      && s'.moves.Keys == s.moves.Keys
      && s'.moves[m] == (if reached then s.moves[m].(state := Cancelled) else s.moves[m])
      && (reached ==> Live(s.moves[m].state) && MoveQty(s'.lines, m) == 0.0)
      && (!reached ==> LinesOf(s'.lines, m) == LinesOf(s.lines, m))
  {
    var ms := CancelSet(s.moves, root);
    if Reached(s.moves, root, m) {
      var path :| CancelPath(s.moves, path, root, m);
      if |path| > 1 { assert CancelHop(s.moves, path[|path| - 2], path[|path| - 2 + 1]); }
      SumZero(CancelLines(s.lines, ms), OfW(m));
    } else {
      UntouchedLines(s.lines, ms, m);
    }
  }

  lemma {:induction false} UntouchedLines(lines: seq<Line>, ms: set<Id>, m: Id)
    requires m !in ms
    ensures LinesOf(CancelLines(lines, ms), m) == LinesOf(lines, m)
  {
    if lines != [] {
      var n := |lines| - 1;
      UntouchedLines(lines[..n], ms, m);
      assert CancelLines(lines, ms)[..n] == CancelLines(lines[..n], ms);
    }
  }

  /** Line by line and quant by quant: the lines of reached moves are zeroed and cancelled, every quant they
      name has its counter restated as what the live lines hold there, and nothing else is written. */
  lemma CancelOnStock(s: Estate, root: Id, i: nat, d: Dims)
    requires Cancel(s, root).Ok? && i < |s.lines| && forall l :: l in s.lines ==> l.mv in s.moves
    ensures var s' := Cancel(s, root).value;
      && s' == s.(moves := s'.moves, lines := s'.lines, quants := s'.quants) && |s'.lines| == |s.lines|
      && s'.lines[i] == (if Reached(s.moves, root, s.lines[i].mv) then s.lines[i].(qty := 0.0, state := Cancelled)
         else s.lines[i])
      && QuantAt(s'.quants, d).quantity == QuantAt(s.quants, d).quantity
      && QuantAt(s'.quants, d).reserved ==
         if exists l :: l in s.lines && l.src == d && Reached(s.moves, root, l.mv) then Sum(s'.lines, LiveW(d))
         else QuantAt(s.quants, d).reserved
  {
    hide Reached;
    assert s.lines[i] in s.lines;
    var ms := CancelSet(s.moves, root);
    if l :| l in s.lines && l.src == d && Reached(s.moves, root, l.mv) { assert d in TouchedBy(s.lines, ms); }
  }
}
