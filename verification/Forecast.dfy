/** What the lines of a delivery that have not landed are going to carry out of the bins, told before any
    of them moves, and so what its rows and its header are going to be asked to hold. */
module Forecast {
  import opened Common
  import opened StockTypes
  import opened Valuation
  import opened ValuationLaws
  import opened Reservation
  import opened Engine
  import opened Invariants
  import opened Soundness
  import opened Runs
  import opened Frames
  import opened Doors
  import opened DoorSoundness
  import opened DoorWalks
  import opened DeliveryTotals
  import opened DoorVerbs
  import MoveGl

  type Bins = map<BinKey, Bin>

  function SourceKey(locs: map<Loc, Location>, nm: NewMove): Option<BinKey> { KeyOf(nm.item, LocAt(locs, nm.src)) }

  /** What a line done now would carry out. */
  function LineWorth(bins: Bins, locs: map<Loc, Location>, nm: NewMove): real {
    match SourceKey(locs, nm)
    case None => 0.0
    case Some(k) => OutValue(BinAt(bins, k), nm.demand, nm.forced)
  }

  function BinsAfter(bins: Bins, locs: map<Loc, Location>, nm: NewMove): Bins {
    match SourceKey(locs, nm)
    case None => bins
    case Some(k) => bins[k := StepBin(BinAt(bins, k), OutOp(nm.demand, nm.forced))]
  }

  /** What the lines from `i` on that have not landed carry out, done one after the other. */
  ghost function Worths(bins: Bins, locs: map<Loc, Location>, moves: map<Id, Move>, job: Job, i: nat): seq<real>
    decreases |job.lines| - i
  {
    if i >= |job.lines| then []
    else if job.lines[i].None? || Landed(moves, job.lines[i]) then Worths(bins, locs, moves, job, i + 1)
    else
      var nm := job.lines[i].value;
      [LineWorth(bins, locs, nm)] + Worths(BinsAfter(bins, locs, nm), locs, moves, job, i + 1)
  }

  ghost function ToCome(s: Estate, job: Job): seq<real> { Worths(s.books.bins, s.locs, s.moves, job, 0) }

  /** No row is going to refuse its cost. */
  ghost predicate RowsWillTake(s: Estate, job: Job) { forall x :: x in ToCome(s, job) ==> x >= 0.0 }

  /** What the header's total is going to be. */
  ghost function HeaderToCome(s: Estate, job: Job): real {
    CarriedTo(s, job, |job.lines|) + Total(ToCome(s, job))
  }

  lemma TotalHead(x: real, rest: seq<real>)
    ensures Total([x] + rest) == x + Total(rest)
  {
    SumConcat([x], rest, Same);
    SumAppend([], x, Same);
    assert [] + [x] == [x];
  }

  // ---- where the forecast looks ------------------------------------------------------------------

  lemma {:induction false} SkipLanded(bins: Bins, locs: map<Loc, Location>, moves: map<Id, Move>, job: Job, i: nat,
      n: nat)
    requires i <= n && LandedTo(moves, job, n)
    ensures Worths(bins, locs, moves, job, i) == Worths(bins, locs, moves, job, n)
    decreases n - i
  {
    hide Landed;
    if i < n { SkipLanded(bins, locs, moves, job, i + 1, n); }
  }

  lemma {:induction false} SameWorths(bins: Bins, locs: map<Loc, Location>, moves: map<Id, Move>, after: map<Id, Move>,
      job: Job, i: nat)
    requires forall k :: i <= k < |job.lines| ==> (Landed(after, job.lines[k]) <==> Landed(moves, job.lines[k]))
    ensures Worths(bins, locs, after, job, i) == Worths(bins, locs, moves, job, i)
    decreases |job.lines| - i
  {
    hide Landed, LineWorth, BinsAfter;
    if i < |job.lines| {
      SameWorths(bins, locs, moves, after, job, i + 1);
      if job.lines[i].Some? {
        SameWorths(BinsAfter(bins, locs, job.lines[i].value), locs, moves, after, job, i + 1);
      }
    }
  }

  /** Nothing is to come once every line has landed. */
  lemma NothingToCome(s: Estate, job: Job)
    requires LandedTo(s.moves, job, |job.lines|)
    ensures ToCome(s, job) == [] && HeaderToCome(s, job) == CarriedTo(s, job, |job.lines|)
  {
    SkipLanded(s.books.bins, s.locs, s.moves, job, 0, |job.lines|);
  }

  // ---- verbs on the other lines --------------------------------------------------------------------

  lemma VerbCarries(s: Estate, c: Cmd, m: Id)
    requires DoorCmd(c) && !(c.FinishCmd? && c.id == m && Exec(s, c).Ok?)
    ensures CarriedOut(Step(s, c).books.rows, m) == CarriedOut(s.books.rows, m)
  {
    if c.FinishCmd? {
      if Exec(s, c).Ok? {
        FinishExec(s, c.id, c.child);
        FinishCarried(s, c.id, Never, c.child, [], m);
      }
      hide Finish, Mint;
    } else {
      OtherKeepsBooks(s, c);
      hide Step;
    }
  }

  /** A line another verb is about neither lands nor carries. */
  lemma OtherLineStays(locs: map<Loc, Location>, jobs: seq<Job>, w: World, w': World, j: nat, i: nat, c: Cmd, k: nat)
    requires WorldInv(locs, jobs, w) && WorldInv(locs, jobs, w') && JobsOk(locs, jobs) && ActsOn(jobs, j, i, w.s, c)
    requires w'.s == Step(w.s, c) && j < |jobs| && k < |jobs[j].lines| && k != i
    ensures Landed(w'.s.moves, jobs[j].lines[k]) <==> Landed(w.s.moves, jobs[j].lines[k])
    ensures LineCarried(w'.s, jobs[j].lines[k]) == LineCarried(w.s, jobs[j].lines[k])
  {
    hide WorldInv, JobsOk, ActsOn, Step, Exec, CarriedOut;
    if jobs[j].lines[k].Some? {
      assert Leg(jobs, j, k);
      var nm := MoveOf(jobs, j, k);
      OtherLineSame(locs, jobs, w, j, i, c, k);
      if exists m :: NamedMove(w.s.moves, m, nm.name) {
        var m :| NamedMove(w.s.moves, m, nm.name);
        assert NamedMove(w'.s.moves, m, nm.name);
        TheOneMove(locs, jobs, w, j, k, m);
        TheOneMove(locs, jobs, w', j, k, m);
        NotItsActor(locs, jobs, w, j, i, c, k, m);
        VerbCarries(w.s, c, m);
      }
    }
  }

  lemma NotItsActor(locs: map<Loc, Location>, jobs: seq<Job>, w: World, j: nat, i: nat, c: Cmd, k: nat, m: Id)
    requires JobsOk(locs, jobs) && ActsOn(jobs, j, i, w.s, c) && Leg(jobs, j, k) && k != i
    requires NamedMove(w.s.moves, m, MoveOf(jobs, j, k).name)
    ensures DoorCmd(c) && !(c.FinishCmd? && c.id == m)
  {
    NamesDiffer(locs, jobs, j, i, k);
    ActorNamed(jobs, j, i, w.s, c);
  }

  // ---- verbs short of the done ------------------------------------------------------------------------

  lemma NotLandedAt(locs: map<Loc, Location>, jobs: seq<Job>, w: World, j: nat, i: nat, m: Id)
    requires WorldInv(locs, jobs, w) && Leg(jobs, j, i) && NamedMove(w.s.moves, m, MoveOf(jobs, j, i).name)
    ensures i < |jobs[j].lines| && jobs[j].lines[i] == Some(MoveOf(jobs, j, i))
    ensures Landed(w.s.moves, jobs[j].lines[i]) <==> w.s.moves[m].state == Done
  {
    TheOneMove(locs, jobs, w, j, i, m);
    hide WorldInv;
  }

  lemma UndoneCarriesNothing(locs: map<Loc, Location>, jobs: seq<Job>, w: World, m: Id)
    requires WorldInv(locs, jobs, w) && (m in w.s.moves ==> w.s.moves[m].state != Done)
    ensures CarriedOut(w.s.books.rows, m) == 0.0
  {
    assert (m in w.s.moves && w.s.moves[m].state == Done) || Unposted(w.s.books.rows, StockEntry(m));
    hide Sound;
    SumZero(w.s.books.rows, CarriedW(m));
  }

  ghost predicate Finishes(s: Estate, c: Cmd) { c.FinishCmd? && Exec(s, c).Ok? }

  /** Before its done, its own verbs leave a line unlanded and uncarried. */
  lemma OwnLineStays(locs: map<Loc, Location>, jobs: seq<Job>, w: World, w': World, j: nat, i: nat, c: Cmd)
    requires WorldInv(locs, jobs, w) && WorldInv(locs, jobs, w') && ActsOn(jobs, j, i, w.s, c) && w'.s == Step(w.s, c)
    requires !Finishes(w.s, c)
    ensures Leg(jobs, j, i)
    ensures Landed(w'.s.moves, jobs[j].lines[i]) <==> Landed(w.s.moves, jobs[j].lines[i])
    ensures LineCarried(w'.s, jobs[j].lines[i]) == LineCarried(w.s, jobs[j].lines[i])
  {
    hide WorldInv, Step, Exec, CarriedOut, MoveOf;
    LegOf(jobs, j, i, w.s, c);
    var nm, s, s' := MoveOf(jobs, j, i), w.s, w'.s;
    if Exec(s, c).Err? {
      RefusedStays(s, c);
    } else if c.CreateCmd? {
      CreateAdds(s, c.id, nm);
      NotLandedAt(locs, jobs, w', j, i, c.id);
      TheNamed(locs, jobs, w', j, i, c.id);
      UndoneCarriesNothing(locs, jobs, w', c.id);
    } else {
      var m := Actor(c);
      StillUndone(s, c, m);
      NameKept(s, c, m);
      NotLandedAt(locs, jobs, w, j, i, m);
      NotLandedAt(locs, jobs, w', j, i, m);
      TheNamed(locs, jobs, w, j, i, m);
      TheNamed(locs, jobs, w', j, i, m);
      VerbCarries(s, c, m);
    }
  }

  lemma StillUndone(s: Estate, c: Cmd, m: Id)
    requires DoorCmd(c) && Contract(s, c) && m in s.moves && !Finishes(s, c)
    ensures m in Step(s, c).moves && (Step(s, c).moves[m].state == Done <==> s.moves[m].state == Done)
  {
    StepKeeps(s, c);
    assert KeptBy(s, Step(s, c).moves, FinishedBy(c), m);
    RefusedOrOther(s, c);
    hide Step, Exec;
  }

  lemma RefusedOrOther(s: Estate, c: Cmd)
    requires !Finishes(s, c)
    ensures c.FinishCmd? ==> Step(s, c) == s
  {
    hide Finish;
  }

  /** Short of a done nothing changes in what is to come. */
  lemma VerbKeepsForecast(locs: map<Loc, Location>, jobs: seq<Job>, w: World, w': World, j: nat, i: nat, c: Cmd)
    requires WorldInv(locs, jobs, w) && WorldInv(locs, jobs, w') && JobsOk(locs, jobs) && ActsOn(jobs, j, i, w.s, c)
    requires w'.s == Step(w.s, c) && !Finishes(w.s, c) && j < |jobs|
    ensures w'.s.books == w.s.books && ToCome(w'.s, jobs[j]) == ToCome(w.s, jobs[j])
    ensures HeaderToCome(w'.s, jobs[j]) == HeaderToCome(w.s, jobs[j])
  {
    hide WorldInv, JobsOk, ActsOn, Step, Exec, Landed, LineCarried, Finishes;
    BooksKept(jobs, j, i, w.s, c);
    SoundOf(locs, jobs, w);
    SoundOf(locs, jobs, w');
    var job := jobs[j];
    forall k | 0 <= k < |job.lines|
      ensures Landed(w'.s.moves, job.lines[k]) <==> Landed(w.s.moves, job.lines[k])
      ensures LineCarriedW(w'.s)(job.lines[k]) == LineCarriedW(w.s)(job.lines[k])
    {
      if k == i {
        OwnLineStays(locs, jobs, w, w', j, i, c);
      } else {
        OtherLineStays(locs, jobs, w, w', j, i, c, k);
      }
    }
    SameWorths(w.s.books.bins, w.s.locs, w.s.moves, w'.s.moves, job, 0);
    assert job.lines[..|job.lines|] == job.lines;
    SumEqual(job.lines, job.lines, LineCarriedW(w'.s), LineCarriedW(w.s));
  }

  lemma BooksKept(jobs: seq<Job>, j: nat, i: nat, s: Estate, c: Cmd)
    requires ActsOn(jobs, j, i, s, c) && !Finishes(s, c)
    ensures Step(s, c).books == s.books
  {
    RefusedOrOther(s, c);
    if !c.FinishCmd? { OtherKeepsBooks(s, c); }
    hide Step, Exec;
  }

  // ---- the done ---------------------------------------------------------------------------------------

  /** A line's done carries what was told of it, and leaves the bins as was told. */
  lemma DoneIsForecast(locs: map<Loc, Location>, jobs: seq<Job>, w: World, w': World, j: nat, i: nat, m: Id, x: Id)
    requires WorldInv(locs, jobs, w) && WorldInv(locs, jobs, w') && Outbound(locs, jobs, j) && Leg(jobs, j, i)
    requires NamedMove(w.s.moves, m, MoveOf(jobs, j, i).name)
    requires Finish(w.s, m, Never, x, []) == Ok(w'.s)
    ensures Worth(w.s, m) == LineWorth(w.s.books.bins, locs, MoveOf(jobs, j, i))
    ensures w'.s.books.bins == BinsAfter(w.s.books.bins, locs, MoveOf(jobs, j, i))
  {
    hide Sound, Finish, LineInv, StepBin, OutValue, Post;
    var s, nm := w.s, MoveOf(jobs, j, i);
    assert LineInv(s, nm);
    OrderOf(s, nm, m);
    SoundOf(locs, jobs, w);
    FinishTakesAll(s, m, x);
    DoneWholeLine(locs, jobs, w', j, i, m);
    FinishMoves(s, m, x);
    SumLinesOf(s.lines, m, QtyOf, OfW(m));
    hide WorldInv;
    MintsBins(s.books, s.moves[m], m, LocAt(locs, nm.src), LocAt(locs, nm.dst), nm.demand);
  }

  lemma MintsBins(books: Books, mv: Move, id: Id, src: Location, dst: Location, qty: real)
    requires Mint(books, mv, id, src, dst, qty).Ok? && KeyOf(mv.item, dst).None?
    ensures var m := Mint(books, mv, id, src, dst, qty).value;
      match KeyOf(mv.item, src)
      case None => m.outValue == 0.0 && m.books == books
      case Some(k) =>
        && m.outValue == OutValue(BinAt(books.bins, k), qty, mv.forced)
        && m.books.bins == books.bins[k := StepBin(BinAt(books.bins, k), OutOp(qty, mv.forced))]
  {
    hide StepBin, OutValue;
  }

  /** The first of what is to come has come. */
  lemma FinishTakesFromForecast(locs: map<Loc, Location>, jobs: seq<Job>, w: World, w': World, j: nat, i: nat, m: Id,
      x: Id)
    requires WorldInv(locs, jobs, w) && WorldInv(locs, jobs, w') && JobsOk(locs, jobs) && Outbound(locs, jobs, j)
    requires ActsOn(jobs, j, i, w.s, FinishCmd(m, Never, x, [])) && w'.s == Step(w.s, FinishCmd(m, Never, x, []))
    requires Exec(w.s, FinishCmd(m, Never, x, [])).Ok? && LandedTo(w.s.moves, jobs[j], i)
    ensures m in w.s.moves && ToCome(w.s, jobs[j]) == [Worth(w.s, m)] + ToCome(w'.s, jobs[j])
    ensures HeaderToCome(w'.s, jobs[j]) == HeaderToCome(w.s, jobs[j])
    ensures i < |jobs[j].lines| && LandedTo(w'.s.moves, jobs[j], i + 1)
  {
    hide WorldInv, JobsOk, Step, Exec, Finish, Landed, Worth, LineWorth, BinsAfter, LineCarried, Outbound, Fresh;
    var c, job, s, s' := FinishCmd(m, Never, x, []), jobs[j], w.s, w'.s;
    FinishExec(s, m, x);
    SoundOf(locs, jobs, w);
    SoundOf(locs, jobs, w');
    FinishTakesAll(s, m, x);
    LegOf(jobs, j, i, s, c);
    NameKept(s, c, m);
    NotLandedAt(locs, jobs, w, j, i, m);
    NotLandedAt(locs, jobs, w', j, i, m);
    DoneIsForecast(locs, jobs, w, w', j, i, m, x);
    forall k | 0 <= k < |job.lines| && k != i
      ensures Landed(s'.moves, job.lines[k]) <==> Landed(s.moves, job.lines[k])
      ensures LineCarriedW(s')(job.lines[k]) == LineCarriedW(s)(job.lines[k])
    {
      OtherLineStays(locs, jobs, w, w', j, i, c, k);
    }
    LineComes(locs, jobs, w, w', j, i, m, x);
    Forecasts(s, s', job, i);
  }

  /** The line carried nothing before, and its worth after. */
  lemma LineComes(locs: map<Loc, Location>, jobs: seq<Job>, w: World, w': World, j: nat, i: nat, m: Id, x: Id)
    requires WorldInv(locs, jobs, w) && WorldInv(locs, jobs, w') && Outbound(locs, jobs, j) && Leg(jobs, j, i)
    requires NamedMove(w.s.moves, m, MoveOf(jobs, j, i).name) && NamedMove(w'.s.moves, m, MoveOf(jobs, j, i).name)
    requires Finish(w.s, m, Never, x, []) == Ok(w'.s)
    ensures LineCarried(w.s, jobs[j].lines[i]) == 0.0
    ensures LineCarried(w'.s, jobs[j].lines[i]) == LineWorth(w.s.books.bins, locs, MoveOf(jobs, j, i))
  {
    SoundOf(locs, jobs, w);
    assert LineInv(w.s, MoveOf(jobs, j, i));
    OrderOf(w.s, MoveOf(jobs, j, i), m);
    FinishTakesAll(w.s, m, x);
    FinishCarriesWorth(w.s, m, x);
    hide WorldInv, Finish, CarriedOut, LineCarried, Worth, LineWorth, Sound;
    UndoneCarriesNothing(locs, jobs, w, m);
    TheNamed(locs, jobs, w, j, i, m);
    TheNamed(locs, jobs, w', j, i, m);
    DoneIsForecast(locs, jobs, w, w', j, i, m, x);
  }

  lemma Forecasts(s: Estate, s': Estate, job: Job, i: nat)
    requires i < |job.lines| && job.lines[i].Some? && LandedTo(s.moves, job, i) && s'.locs == s.locs
    requires !Landed(s.moves, job.lines[i]) && Landed(s'.moves, job.lines[i])
    requires forall k :: 0 <= k < |job.lines| && k != i ==>
      (Landed(s'.moves, job.lines[k]) <==> Landed(s.moves, job.lines[k]))
      && LineCarriedW(s')(job.lines[k]) == LineCarriedW(s)(job.lines[k])
    requires s'.books.bins == BinsAfter(s.books.bins, s.locs, job.lines[i].value)
    requires LineCarried(s', job.lines[i]) ==
             LineCarried(s, job.lines[i]) + LineWorth(s.books.bins, s.locs, job.lines[i].value)
    ensures ToCome(s, job) == [LineWorth(s.books.bins, s.locs, job.lines[i].value)] + ToCome(s', job)
    ensures HeaderToCome(s', job) == HeaderToCome(s, job) && LandedTo(s'.moves, job, i + 1)
  {
    hide Landed, LineWorth, BinsAfter, LineCarried;
    var bins := s'.books.bins;
    SkipLanded(s.books.bins, s.locs, s.moves, job, 0, i);
    SkipLanded(bins, s.locs, s'.moves, job, 0, i + 1);
    SameWorths(bins, s.locs, s.moves, s'.moves, job, i + 1);
    assert job.lines[..|job.lines|] == job.lines;
    SumBut(job.lines, i, LineCarriedW(s), LineCarriedW(s'));
    TotalHead(LineWorth(s.books.bins, s.locs, job.lines[i].value), ToCome(s', job));
  }

  // ---- a negative cost --------------------------------------------------------------------------------

  /** The rates of the bins a door draws from, as their column holds them. */
  predicate RatesHeld(bins: Bins, locs: map<Loc, Location>, job: Job) {
    forall k :: 0 <= k < |job.lines| && job.lines[k].Some? && SourceKey(locs, job.lines[k].value).Some? ==>
      BinAt(bins, SourceKey(locs, job.lines[k].value).value).rate >= 0.0
  }

  /** A line carries a negative value out exactly when it drains a bin of negative value, so its bin is then
      empty and no longer holds the line's quantity. */
  lemma NegativeDrains(s: Estate, bins: Bins, job: Job, i: nat)
    requires i < |job.lines| && job.lines[i].Some? && job.lines[i].value.forced.None? && job.lines[i].value.demand > 0.0
    requires RatesHeld(bins, s.locs, job) && s.books.bins == BinsAfter(bins, s.locs, job.lines[i].value)
    ensures RatesHeld(s.books.bins, s.locs, job)
    ensures LineWorth(bins, s.locs, job.lines[i].value) < 0.0 ==> !Stocked(s, job.lines[i].value)
  {
    var nm := job.lines[i].value;
    if SourceKey(s.locs, nm).Some? {
      var b := BinAt(bins, SourceKey(s.locs, nm).value);
      MoveGl.AmountNonNegative(nm.demand, b.rate);
      hide Amount;
    }
  }
}
