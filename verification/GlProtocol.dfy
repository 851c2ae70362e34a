/** The general-ledger leg of receipts and deliveries: submit, repost and cancel against an
    accounting sink that keeps one journal per voucher and posting type, over every run of
    rejections and of crashes between the post and its mark. */
module GlProtocol {
  import opened Common

  type Id = nat
  type Acct = nat

  datatype Kind = Receipt | Delivery
  datatype Status = Draft | Submitted | Cancelled
  datatype Posting = Pending | Posted | Failed | NotApplicable
  datatype Side = OriginalPost | ReversalPost

  /** A voucher header: `lines` is what its item rows add up to, `header` its stored total. */
  datatype Doc = Doc(
    kind: Kind, status: Status, posting: Posting, orig: Option<Id>, rev: Option<Id>,
    lines: real, header: real, quantity: real, asset: Acct, contra: Acct)

  datatype Journal = Journal(post: Id, debit: Acct, credit: Acct, amount: real, reverses: Option<Id>)

  datatype Books = Books(docs: map<Id, Doc>, ledger: map<(Id, Side), Journal>)

  /** What becomes of a call: it dies before its status write, or after it and before the sink
      answers; the sink rejects; the sink accepts. The last two with or without the mark. */
  datatype Fate = Dies | DiesAfterStatus | Rejected(marked: bool) | Accepted(post: Id, marked: bool)

  datatype Call =
    | Submit(v: Id, cogs: real, recorded: real, periodic: bool, fate: Fate)
    | Repost(v: Id, periodic: bool, fate: Fate)
    | Cancel(v: Id, fate: Fate)

  // ---- the sink ---------------------------------------------------------------------

  /** Accounting answers a repeated key with the journal it already has. */
  function Post(ledger: map<(Id, Side), Journal>, key: (Id, Side), j: Journal): map<(Id, Side), Journal> {
    if key in ledger then ledger else ledger[key := j]
  }

  function OriginalOf(d: Doc, post: Id, amount: real): Journal {
    if d.kind == Receipt then Journal(post, d.asset, d.contra, amount, None)
      else Journal(post, d.contra, d.asset, amount, None)
  }

  function ReversalOf(d: Doc, post: Id, amount: real, original: Id): Journal {
    var o := OriginalOf(d, post, amount);
    Journal(post, o.credit, o.debit, amount, Some(original))
  }

  /** Post the original and reconcile; the mark never overwrites a posted voucher's ids. */
  function EmitOriginal(s: Books, v: Id, amount: real, fate: Fate): Books
    requires v in s.docs
  {
    var d := s.docs[v];
    match fate
    case Rejected(marked) => if marked then s.(docs := s.docs[v := d.(posting := Failed)]) else s
    case Accepted(post, marked) =>
      var ledger := Post(s.ledger, (v, OriginalPost), OriginalOf(d, post, amount));
      if marked && d.posting != Posted
      then Books(s.docs[v := d.(posting := Posted, orig := Some(ledger[(v, OriginalPost)].post))], ledger)
      else s.(ledger := ledger)
    case _ => s
  }

  /** Post the reversal and record its id; a rejection touches nothing. */
  function EmitReversal(s: Books, v: Id, amount: real, original: Id, fate: Fate): Books
    requires v in s.docs
  {
    match fate
    case Accepted(post, marked) =>
      var ledger := Post(s.ledger, (v, ReversalPost), ReversalOf(s.docs[v], post, amount, original));
      Books(if marked then s.docs[v := s.docs[v].(rev := Some(ledger[(v, ReversalPost)].post))] else s.docs, ledger)
    case _ => s
  }

  // ---- the doors ------------------------------------------------------------------------

  /** A delivery learns its cost as its lines land; a receipt's rows and total are fixed at creation. */
  function Land(d: Doc, cogs: real, recorded: real): Doc {
    if d.kind == Delivery then d.(status := Submitted, header := cogs, lines := recorded) else d.(status := Submitted)
  }

  function SubmitAmount(d: Doc): real { if d.kind == Receipt then d.lines else d.header }

  function SetDoc(s: Books, v: Id, d: Doc): Books { s.(docs := s.docs[v := d]) }

  function Step(s: Books, c: Call): Books {
    if c.v !in s.docs then s else
    var d := s.docs[c.v];
    match c
    case Submit(v, cogs, recorded, periodic, fate) =>
      if d.status != Draft || fate.Dies? then s else
      var landed := Land(d, cogs, recorded);
      var s1 := SetDoc(s, v, landed);
      if fate.DiesAfterStatus? then s1
      else if periodic || (SubmitAmount(landed) == 0.0 && d.quantity == 0.0)
      then SetDoc(s1, v, landed.(posting := NotApplicable))
      else EmitOriginal(s1, v, SubmitAmount(landed), fate)
    case Repost(v, periodic, fate) =>
      if d.posting == Posted || d.posting == NotApplicable || fate.Dies? then s
      else if periodic then SetDoc(s, v, d.(posting := NotApplicable))
      else EmitOriginal(s, v, d.header, fate)
    case Cancel(v, fate) =>
      if fate.Dies? || d.orig.None? then s
      else if d.status == Cancelled then (if d.rev.Some? then s else EmitReversal(s, v, d.header, d.orig.value, fate))
      else if d.status == Draft then s
      else EmitReversal(SetDoc(s, v, d.(status := Cancelled)), v, d.lines, d.orig.value, fate)
  }

  // ---- what every run keeps -----------------------------------------------------------------

  predicate Recorded(ledger: map<(Id, Side), Journal>, key: (Id, Side), id: Option<Id>) {
    id.Some? ==> key in ledger && ledger[key].post == id.value
  }

  /** Recorded ids are the ledger's, a posted voucher has its original there, and a reversal is of a
      cancelled voucher, of the original on record, on the opposite sides. */
  predicate Settled(s: Books, v: Id, d: Doc) {
    && Recorded(s.ledger, (v, OriginalPost), d.orig)
    && Recorded(s.ledger, (v, ReversalPost), d.rev)
    && (d.posting == Posted ==> d.orig.Some?)
    && ((v, OriginalPost) in s.ledger ==>
       s.ledger[(v, OriginalPost)] ==
       OriginalOf(d, s.ledger[(v, OriginalPost)].post, s.ledger[(v, OriginalPost)].amount))
    && ((v, ReversalPost) in s.ledger ==>
          && d.status == Cancelled && d.orig.Some?
          && s.ledger[(v, ReversalPost)] ==
             ReversalOf(d, s.ledger[(v, ReversalPost)].post, s.ledger[(v, ReversalPost)].amount, d.orig.value))
  }

  ghost predicate Safe(s: Books) {
    && (forall v :: v in s.docs ==> Settled(s, v, s.docs[v]))
    && (forall key :: key in s.ledger ==> key.0 in s.docs)
  }

  /** Journals are only ever added. */
  predicate LedgerGrows(before: map<(Id, Side), Journal>, after: map<(Id, Side), Journal>) {
    forall key :: key in before ==> key in after && after[key] == before[key]
  }

  /** A step on voucher `v` touches its header and its own journals only. */
  ghost predicate OnlyOn(s: Books, s': Books, v: Id) {
    && s'.docs.Keys == s.docs.Keys
    && (forall w :: w in s.docs && w != v ==> s'.docs[w] == s.docs[w])
    && LedgerGrows(s.ledger, s'.ledger)
    && (forall key :: key in s'.ledger && key !in s.ledger ==> key.0 == v)
  }

  lemma OthersSettled(s: Books, s': Books, v: Id)
    requires Safe(s) && OnlyOn(s, s', v) && v in s.docs && Settled(s', v, s'.docs[v])
    ensures Safe(s')
  {
    forall w | w in s'.docs ensures Settled(s', w, s'.docs[w]) { assert Settled(s, w, s.docs[w]); }
  }

  lemma EmitOriginalSettled(s: Books, v: Id, amount: real, fate: Fate)
    requires v in s.docs && Settled(s, v, s.docs[v])
    ensures var s' := EmitOriginal(s, v, amount, fate); OnlyOn(s, s', v) && Settled(s', v, s'.docs[v])
  {
  }

  lemma EmitReversalSettled(s: Books, v: Id, amount: real, fate: Fate)
    requires v in s.docs && Settled(s, v, s.docs[v]) && s.docs[v].status == Cancelled && s.docs[v].orig.Some?
    ensures var s' := EmitReversal(s, v, amount, s.docs[v].orig.value, fate);
      OnlyOn(s, s', v) && Settled(s', v, s'.docs[v])
  {
  }

  /** A header write that keeps kind, accounts and recorded ids, and a cancelled status. */
  lemma SetDocSettled(s: Books, v: Id, d: Doc)
    requires v in s.docs && Settled(s, v, s.docs[v])
    requires var was := s.docs[v];
      d.kind == was.kind && d.asset == was.asset && d.contra == was.contra && d.orig == was.orig && d.rev == was.rev
    requires s.docs[v].status == Cancelled ==> d.status == Cancelled
    requires d.posting == Posted ==> d.orig.Some?
    ensures OnlyOn(s, SetDoc(s, v, d), v) && Settled(SetDoc(s, v, d), v, d)
  {
  }

  lemma OnlyOnThrough(a: Books, b: Books, c: Books, v: Id)
    requires OnlyOn(a, b, v) && OnlyOn(b, c, v)
    ensures OnlyOn(a, c, v)
  {
  }

  lemma StepOnlyOn(s: Books, c: Call)
    requires c.v in s.docs && Settled(s, c.v, s.docs[c.v])
    ensures var s' := Step(s, c); OnlyOn(s, s', c.v) && Settled(s', c.v, s'.docs[c.v])
  {
    var v, d := c.v, s.docs[c.v];
    hide EmitOriginal, EmitReversal, Settled, OnlyOn;
    SetDocSettled(s, v, d) by { assert d.posting == Posted ==> d.orig.Some? by { PostedHasOriginal(s, v); } }
    assert SetDoc(s, v, d) == s by { assert s.docs[v := d] == s.docs; }
    PostedHasOriginal(s, v);
    match c
    case Submit(_, cogs, recorded, periodic, fate) =>
      if d.status == Draft {
        var landed := Land(d, cogs, recorded);
        SetDocSettled(s, v, landed);
        var s1 := SetDoc(s, v, landed);
        SetDocSettled(s1, v, landed.(posting := NotApplicable));
        OnlyOnThrough(s, s1, SetDoc(s1, v, landed.(posting := NotApplicable)), v);
        EmitOriginalSettled(s1, v, SubmitAmount(landed), fate);
        OnlyOnThrough(s, s1, EmitOriginal(s1, v, SubmitAmount(landed), fate), v);
      }
    case Repost(_, periodic, fate) =>
      SetDocSettled(s, v, d.(posting := NotApplicable));
      EmitOriginalSettled(s, v, d.header, fate);
    case Cancel(_, fate) =>
      if d.orig.Some? {
        var cancelled := d.(status := Cancelled);
        SetDocSettled(s, v, cancelled);
        var s1 := SetDoc(s, v, cancelled);
        EmitReversalSettled(s1, v, d.lines, fate);
        OnlyOnThrough(s, s1, EmitReversal(s1, v, d.lines, d.orig.value, fate), v);
        if d.status == Cancelled { EmitReversalSettled(s, v, d.header, fate); }
      }
  }

  lemma PostedHasOriginal(s: Books, v: Id)
    requires v in s.docs && Settled(s, v, s.docs[v])
    ensures s.docs[v].posting == Posted ==> s.docs[v].orig.Some?
  {
  }

  lemma StepSafe(s: Books, c: Call)
    requires Safe(s)
    ensures Safe(Step(s, c)) && LedgerGrows(s.ledger, Step(s, c).ledger)
  {
    if c.v in s.docs {
      assert Settled(s, c.v, s.docs[c.v]);
      StepOnlyOn(s, c);
      hide Step, Settled;
      OthersSettled(s, Step(s, c), c.v);
    }
  }

  function Run(s: Books, cs: seq<Call>): Books {
    if cs == [] then s else Step(Run(s, cs[..|cs| - 1]), cs[|cs| - 1])
  }

  function DraftOf(kind: Kind, total: real, quantity: real, asset: Acct, contra: Acct): Doc {
    Doc(kind, Draft, Pending, None, None,
      if kind == Receipt then total else 0.0, if kind == Receipt then total else 0.0, quantity, asset, contra)
  }

  /** Every voucher a draft as created, and nothing posted. */
  ghost predicate Opening(s: Books) {
    && s.ledger == map[]
    && forall v :: v in s.docs ==>
         var d := s.docs[v];
         d.status == Draft && d.posting == Pending && d.orig.None? && d.rev.None? && d.lines == d.header
           && (d.kind == Delivery ==> d.header == 0.0)
  }

  /** Over every run of submits, reposts and cancels of any vouchers: at most one original and one
      reversal journal each, recorded ids never drift from the ledger, `posted` implies the
      original is there, and no journal is ever lost or rewritten. */
  lemma {:induction false} EveryRunIsSafe(s: Books, cs: seq<Call>)
    requires Opening(s)
    ensures Safe(Run(s, cs)) && LedgerGrows(s.ledger, Run(s, cs).ledger)
  {
    if cs != [] {
      var n := |cs| - 1;
      EveryRunIsSafe(s, cs[..n]);
      StepSafe(Run(s, cs[..n]), cs[n]);
    }
  }

  /** A cancel, whatever its fate, leaves the original's posting state and ids alone. */
  lemma CancelKeepsTheOriginal(s: Books, v: Id, fate: Fate)
    requires v in s.docs
    ensures var d, d' := s.docs[v], Step(s, Cancel(v, fate)).docs[v]; d'.posting == d.posting && d'.orig == d.orig
  {
  }

  // ---- both journals together net to zero ------------------------------------------------------

  function At(j: Journal, a: Acct): real {
    (if j.debit == a then j.amount else 0.0) - (if j.credit == a then j.amount else 0.0)
  }

  predicate BothPosted(s: Books, v: Id) { (v, OriginalPost) in s.ledger && (v, ReversalPost) in s.ledger }

  /** The two journals cancel on every account exactly when their amounts agree. */
  lemma NetsToZeroIff(s: Books, v: Id)
    requires Safe(s) && v in s.docs && BothPosted(s, v) && s.docs[v].asset != s.docs[v].contra
    ensures var o, r := s.ledger[(v, OriginalPost)], s.ledger[(v, ReversalPost)];
      (forall a :: At(o, a) + At(r, a) == 0.0) <==> o.amount == r.amount
  {
    var d := s.docs[v];
    var o, r := s.ledger[(v, OriginalPost)], s.ledger[(v, ReversalPost)];
    assert Settled(s, v, d);
    if forall a :: At(o, a) + At(r, a) == 0.0 { assert At(o, d.asset) + At(r, d.asset) == 0.0; }
  }

  /** At some point of the run the voucher's original was in the ledger while it was still a draft. */
  ghost predicate PostedAsDraft(s: Books, cs: seq<Call>, v: Id) {
    || (cs != [] && PostedAsDraft(s, cs[..|cs| - 1], v))
    || (var s' := Run(s, cs); v in s'.docs && s'.docs[v].status == Draft && (v, OriginalPost) in s'.ledger)
  }

  /** At some point of the run the voucher was cancelled and its reversal not yet in the ledger. */
  ghost predicate Stranded(s: Books, cs: seq<Call>, v: Id) {
    || (cs != [] && Stranded(s, cs[..|cs| - 1], v))
    || (var s' := Run(s, cs); v in s'.docs && s'.docs[v].status == Cancelled && (v, ReversalPost) !in s'.ledger)
  }

  /** What the journals of a voucher carry, given what happened to it: an original posted while a draft
      carries the empty total of an unlanded delivery, any other the stored total; a reversal posted
      by the recovery leg carries the stored total, any other what the rows add up to. */
  predicate Priced(s: Books, v: Id, d: Doc, early: bool, late: bool) {
    && (d.kind == Receipt || d.status == Draft ==> d.lines == d.header)
    && (d.kind == Delivery && d.status == Draft ==> d.header == 0.0)
    && ((v, OriginalPost) in s.ledger ==>
       s.ledger[(v, OriginalPost)].amount == (if early && d.kind == Delivery then 0.0 else d.header))
    && ((v, OriginalPost) in s.ledger && d.status == Draft ==> early)
    && (early ==> (v, OriginalPost) in s.ledger)
    && ((v, ReversalPost) in s.ledger ==> s.ledger[(v, ReversalPost)].amount == if late then d.header else d.lines)
    && (d.status == Cancelled && (v, ReversalPost) !in s.ledger ==> late)
    && (late ==> d.status == Cancelled)
  }

  lemma StepPriced(s: Books, c: Call, early: bool, late: bool)
    requires c.v in s.docs && Settled(s, c.v, s.docs[c.v]) && Priced(s, c.v, s.docs[c.v], early, late)
    ensures var s' := Step(s, c);
      && c.v in s'.docs
      && var d := s'.docs[c.v];
      Priced(s', c.v, d, early || (d.status == Draft && (c.v, OriginalPost) in s'.ledger), late
        || (d.status == Cancelled && (c.v, ReversalPost) !in s'.ledger))
  {
    var d := s.docs[c.v];
    match c
    case Submit(_, cogs, recorded, periodic, fate) => assert (c.v, ReversalPost) in s.ledger ==> d.status == Cancelled;
    case Repost(_, periodic, fate) =>
    case Cancel(_, fate) =>
  }

  /** Over every run, whatever is rejected, crashed or reposted when, of this voucher or any other. */
  lemma {:induction false} EveryRunIsPriced(s: Books, cs: seq<Call>, v: Id)
    requires Opening(s) && v in s.docs
    ensures var s' := Run(s, cs); v in s'.docs && Priced(s', v, s'.docs[v], PostedAsDraft(s, cs, v), Stranded(s, cs, v))
  {
    if cs != [] {
      var n := |cs| - 1;
      var before, c := Run(s, cs[..n]), cs[n];
      EveryRunIsPriced(s, cs[..n], v);
      EveryRunIsSafe(s, cs[..n]);
      var early, late := PostedAsDraft(s, cs[..n], v), Stranded(s, cs[..n], v);
      assert Settled(before, v, before.docs[v]);
      if c.v == v {
        StepPriced(before, c, early, late);
        hide Step, Settled;
      } else {
        if c.v in before.docs {
          assert Settled(before, c.v, before.docs[c.v]);
          StepOnlyOn(before, c);
        }
        hide Step, Settled;
        assert Run(s, cs).docs[v] == before.docs[v];
      }
    }
  }

  /** An original moves the voucher's asset account up for a receipt and down for a delivery, its other
      account the other way, by the stored total, unless a delivery's was posted while it was a draft:
      then by nothing. */
  lemma OriginalMovesTheAsset(s: Books, cs: seq<Call>, v: Id)
    requires Opening(s) && v in s.docs && (v, OriginalPost) in Run(s, cs).ledger
    ensures var s' := Run(s, cs); var j := s'.ledger[(v, OriginalPost)];
      && v in s'.docs
      && var d := s'.docs[v];
      var moved := if d.kind == Receipt then d.header else if PostedAsDraft(s, cs, v) then 0.0 else -d.header;
      d.asset != d.contra ==> At(j, d.asset) == moved && At(j, d.contra) == -moved
  {
    EveryRunIsSafe(s, cs);
    EveryRunIsPriced(s, cs, v);
    var s' := Run(s, cs);
    assert Settled(s', v, s'.docs[v]);
  }

  /** Every receipt, in every run: once both its journals are in, every account nets to zero. */
  lemma CancelledReceiptNets(s: Books, cs: seq<Call>, v: Id, a: Acct)
    requires Opening(s) && v in s.docs && s.docs[v].kind == Receipt && BothPosted(Run(s, cs), v)
    ensures var s' := Run(s, cs); At(s'.ledger[(v, OriginalPost)], a) + At(s'.ledger[(v, ReversalPost)], a) == 0.0
  {
    EveryRunIsSafe(s, cs);
    EveryRunIsPriced(s, cs, v);
    KindKept(s, cs, v);
    var s' := Run(s, cs);
    assert Settled(s', v, s'.docs[v]);
  }

  lemma {:induction false} KindKept(s: Books, cs: seq<Call>, v: Id)
    requires v in s.docs
    ensures v in Run(s, cs).docs && Run(s, cs).docs[v].kind == s.docs[v].kind
  {
    if cs != [] { KindKept(s, cs[..|cs| - 1], v); }
  }

  /** Every voucher, in every run: once both journals are in, every account nets to zero exactly when
      the voucher is a receipt, or what the original carried, nothing if it was posted while a draft
      and else the stored total, is what the reversal carried, the stored total if it was posted by
      the recovery leg and else the rows' sum. */
  lemma CancelledVoucherNetsIff(s: Books, cs: seq<Call>, v: Id)
    requires Opening(s) && v in s.docs && BothPosted(Run(s, cs), v)
    ensures var s' := Run(s, cs);
      && v in s'.docs
      && var d := s'.docs[v]; var o, r := s'.ledger[(v, OriginalPost)], s'.ledger[(v, ReversalPost)];
      d.asset != d.contra ==> ((forall a :: At(o, a) + At(r, a) == 0.0) <==>
        d.kind == Receipt || (if PostedAsDraft(s, cs, v) then 0.0 else d.header) ==
          (if Stranded(s, cs, v) then d.header else d.lines))
  {
    EveryRunIsSafe(s, cs);
    EveryRunIsPriced(s, cs, v);
    var s' := Run(s, cs);
    if s'.docs[v].asset != s'.docs[v].contra { NetsToZeroIff(s', v); }
    hide Settled, PostedAsDraft, Stranded, Run, At;
  }

  // ---- where the promise stops ---------------------------------------------------------------------

  /** A draft's submission that has something to post and is accepted leaves its own amount in the ledger
      exactly when no journal was there before, or one that already carried that amount. */
  lemma SubmissionIsWhatIsPosted(s: Books, v: Id, cogs: real, recorded: real, post: Id, marked: bool)
    requires Safe(s) && v in s.docs && s.docs[v].status == Draft
    requires var landed := Land(s.docs[v], cogs, recorded); SubmitAmount(landed) != 0.0 || landed.quantity != 0.0
    ensures var s' := Step(s, Submit(v, cogs, recorded, false, Accepted(post, marked)));
      var amount := SubmitAmount(s'.docs[v]);
      && (v, OriginalPost) in s'.ledger
      && (s'.ledger[(v, OriginalPost)].amount == amount
         <==> (v, OriginalPost) !in s.ledger || s.ledger[(v, OriginalPost)].amount == amount)
      && (s.docs[v].kind == Delivery ==> amount == cogs)
  {
    assert Settled(s, v, s.docs[v]);
  }

  /** An accepted cancellation of a voucher whose original carries the stored total nets every account to
      zero exactly when it is the recovery leg of an earlier one or the rows add up to that total. */
  lemma CancellationNetsIff(s: Books, v: Id, post: Id, marked: bool)
    requires Safe(s) && v in s.docs && s.docs[v].status != Draft && s.docs[v].orig.Some?
      && s.docs[v].asset != s.docs[v].contra
    requires (v, OriginalPost) in s.ledger && s.ledger[(v, OriginalPost)].amount == s.docs[v].header
      && (v, ReversalPost) !in s.ledger
    ensures var s' := Step(s, Cancel(v, Accepted(post, marked)));
      && BothPosted(s', v)
      && ((forall a :: At(s'.ledger[(v, OriginalPost)], a) + At(s'.ledger[(v, ReversalPost)], a) == 0.0) <==>
            s.docs[v].status == Cancelled || s.docs[v].lines == s.docs[v].header)
  {
    var c := Cancel(v, Accepted(post, marked));
    assert Settled(s, v, s.docs[v]);
    StepSafe(s, c);
    NetsToZeroIff(Step(s, c), v);
    hide At;
  }

  function OneDoc(d: Doc): Books { Books(map[0 := d], map[]) }

  /** A delivery that lost one line's recorded cost of 4.00: the original carries 10.00, the
      cancellation reverses 6.00, and the accounts keep 4.00. */
  lemma LostRecordLeavesABalance()
    ensures var s := OneDoc(DraftOf(Delivery, 0.0, 2.0, 1, 2));
      var s' := Run(s, [Submit(0, 10.0, 6.0, false, Accepted(100, true)), Cancel(0, Accepted(101, true))]);
      Opening(s) && BothPosted(s', 0)
        && At(s'.ledger[(0, OriginalPost)], 1) + At(s'.ledger[(0, ReversalPost)], 1) == -4.0
  {
    var s := OneDoc(DraftOf(Delivery, 0.0, 2.0, 1, 2));
    var cs := [Submit(0, 10.0, 6.0, false, Accepted(100, true)), Cancel(0, Accepted(101, true))];
    assert cs[..1] == [cs[0]] && cs[..1][..0] == [];
    assert Run(s, cs[..1]) == Step(s, cs[0]);
  }

  /** A repost does not look at the status: a draft delivery reposted before its submission puts a
      journal of zero in the ledger, and the submission's real cost is answered with that journal. */
  lemma RepostedDraftShadowsTheSubmission()
    ensures var s := OneDoc(DraftOf(Delivery, 0.0, 2.0, 1, 2));
      var s' := Run(s, [Repost(0, false, Accepted(100, true)), Submit(0, 10.0, 10.0, false, Accepted(101, true))]);
      && Opening(s) && 0 in s'.docs && s'.docs[0].posting == Posted && s'.docs[0].header == 10.0
      && (0, OriginalPost) in s'.ledger && s'.ledger[(0, OriginalPost)].amount == 0.0
  {
    var s := OneDoc(DraftOf(Delivery, 0.0, 2.0, 1, 2));
    var cs := [Repost(0, false, Accepted(100, true)), Submit(0, 10.0, 10.0, false, Accepted(101, true))];
    assert cs[..1] == [cs[0]] && cs[..1][..0] == [];
    assert Run(s, cs[..1]) == Step(s, cs[0]);
  }

  // ---- nothing stays stuck --------------------------------------------------------------------------

  /** A pending or failed voucher is posted by the next accepted repost, and whether the journal was
      already there from a crashed attempt or not, the id recorded is the ledger's. */
  lemma RepostSettles(s: Books, v: Id, post: Id)
    requires Safe(s) && v in s.docs && (s.docs[v].posting == Pending || s.docs[v].posting == Failed)
    ensures var s' := Step(s, Repost(v, false, Accepted(post, true)));
      && s'.docs[v].posting == Posted
      && (v, OriginalPost) in s'.ledger && s'.docs[v].orig == Some(s'.ledger[(v, OriginalPost)].post)
      && ((v, OriginalPost) in s.ledger ==> s'.ledger == s.ledger)
  {
  }

  /** A cancelled voucher whose reversal is not recorded gets it from the next accepted cancel, which
      posts no second reversal, and every further cancel changes nothing. */
  lemma CancelSettles(s: Books, v: Id, post: Id, again: Fate)
    requires Safe(s) && v in s.docs && s.docs[v].status == Cancelled && s.docs[v].orig.Some?
    ensures var s' := Step(s, Cancel(v, Accepted(post, true)));
      && s'.docs[v].rev.Some? && (v, ReversalPost) in s'.ledger
         && s'.docs[v].rev == Some(s'.ledger[(v, ReversalPost)].post)
      && ((v, ReversalPost) in s.ledger ==> s'.ledger == s.ledger)
      && Step(s', Cancel(v, again)) == s'
  {
    assert Settled(s, v, s.docs[v]);
  }

  /** Nothing to post: no quantity, and no amount of the kind the voucher posts. */
  predicate NothingDue(d: Doc) { d.quantity == 0.0 && (if d.kind == Receipt then d.lines else d.header) == 0.0 }

  predicate LegOpen(d: Doc) { d.posting == Pending || d.posting == Failed }

  /** What a submission or repost makes of an open leg. Only periodic valuation, or a submission with nothing
      to post, retires it; only an accepted post whose mark is written settles it, with the ledger's id on
      record; a rejection whose mark is written leaves it failed; anything else leaves it as it was. The
      sink gains the journal exactly when it accepts one. */
  lemma WhatClosesALeg(s: Books, c: Call)
    requires c.v in s.docs && LegOpen(s.docs[c.v]) && !c.Cancel? && (c.Submit? ==> s.docs[c.v].status == Draft)
    ensures var s' := Step(s, c); var v, d := c.v, s.docs[c.v];
      && v in s'.docs
      && var d' := s'.docs[v];
      var begun := !c.fate.Dies? && !(c.Submit? && c.fate.DiesAfterStatus?);
      var retired := begun && (c.periodic || (c.Submit? && NothingDue(d')));
      && (d'.posting == NotApplicable <==> retired)
      && (d'.posting == Posted <==> !retired && c.fate.Accepted? && c.fate.marked)
      && (d'.posting != NotApplicable && d'.posting != Posted ==>
            d'.posting == if !retired && c.fate == Rejected(true) then Failed else d.posting)
      && d'.status == (if c.Submit? && !c.fate.Dies? then Submitted else d.status)
      && ((v, OriginalPost) in s'.ledger <==> (v, OriginalPost) in s.ledger || (!retired && c.fate.Accepted?))
      && (d'.posting == Posted ==> d'.orig == Some(s'.ledger[(v, OriginalPost)].post))
      && (d'.posting != Posted ==> d'.orig == d.orig)
      && (forall key :: key != (v, OriginalPost) ==>
            (key in s'.ledger <==> key in s.ledger) && (key in s.ledger ==> s'.ledger[key] == s.ledger[key]))
  {
  }

  /** Whatever the ledger holds, no call changes the id recorded for a posted original: an accepted post of a
      voucher already posted, a draft reposted before its submission, is not marked again. */
  lemma PostedIdsStay(s: Books, c: Call)
    requires c.v in s.docs && s.docs[c.v].posting == Posted
    ensures c.v in Step(s, c).docs && Step(s, c).docs[c.v].orig == s.docs[c.v].orig
  {
  }

  /** A rejected submission or repost leaves the leg open, and the next accepted repost posts it. */
  lemma RejectionIsRedriven(s: Books, c: Call, post: Id)
    requires Safe(s) && c.v in s.docs && LegOpen(s.docs[c.v]) && !c.Cancel? && c.fate.Rejected? && !c.periodic
    requires c.Submit? ==> s.docs[c.v].status == Draft && !NothingDue(Land(s.docs[c.v], c.cogs, c.recorded))
    ensures var s' := Step(s, c); var again := Step(s', Repost(c.v, false, Accepted(post, true)));
      && c.v in s'.docs && LegOpen(s'.docs[c.v]) && s'.ledger == s.ledger
      && (c.fate.marked ==> s'.docs[c.v].posting == Failed)
      && c.v in again.docs && again.docs[c.v].posting == Posted && (c.v, OriginalPost) in again.ledger
      && again.docs[c.v].orig == Some(again.ledger[(c.v, OriginalPost)].post)
  {
    StepSafe(s, c);
    WhatClosesALeg(s, c);
    RepostSettles(Step(s, c), c.v, post);
    hide Step, Safe;
  }

  /** A call that finds nothing to do changes nothing: one on an unknown voucher, a submission of one
      submitted before, a repost of a settled leg, and a cancel of a draft, of one whose original is not on
      record or of one whose reversal is. */
  lemma NothingToDo(s: Books, c: Call)
    requires c.v in s.docs ==>
      var d := s.docs[c.v];
      match c
      case Submit(_, _, _, _, fate) => d.status != Draft || fate.Dies?
      case Repost(_, _, fate) => !LegOpen(d) || fate.Dies?
      case Cancel(_, fate) => d.status == Draft || d.orig.None? || (d.status == Cancelled && d.rev.Some?) || fate.Dies?
    ensures Step(s, c) == s
  {
  }

  /** The cancel of a submitted voucher with its original on record cancels it whatever becomes of the
      reversal, puts the reversal in the ledger exactly when the sink accepts it, for what the rows add up
      to and naming the original, and records its id exactly when the mark is written too. */
  lemma WhatACancelLeaves(s: Books, v: Id, fate: Fate)
    requires Safe(s) && v in s.docs && s.docs[v].status == Submitted && s.docs[v].orig.Some? && !fate.Dies?
    ensures var s' := Step(s, Cancel(v, fate)); var d := s.docs[v];
      && v in s'.docs && s'.docs[v].status == Cancelled && s'.docs[v].posting == d.posting && s'.docs[v].orig == d.orig
      && ((v, ReversalPost) in s'.ledger <==> fate.Accepted?)
      && (fate.Accepted? ==>
            var j := s'.ledger[(v, ReversalPost)]; j.amount == d.lines && j.reverses == d.orig && j.post == fate.post)
      && s'.docs[v].rev == (if fate.Accepted? && fate.marked then Some(fate.post) else d.rev)
  {
    assert Settled(s, v, s.docs[v]);
  }

  /** Some submission or repost of the voucher in the run was made under periodic valuation. */
  ghost predicate EverPeriodic(cs: seq<Call>, v: Id) {
    exists i :: 0 <= i < |cs| && cs[i].v == v && !cs[i].Cancel? && cs[i].periodic
  }

  /** Over every run: a leg is retired only under periodic valuation, or by a submission with nothing to post. */
  lemma {:induction false} RetiredOnlyIf(s: Books, cs: seq<Call>, v: Id)
    requires Opening(s) && v in s.docs
    ensures var s' := Run(s, cs);
      && v in s'.docs
      && (s'.docs[v].posting == NotApplicable ==>
            EverPeriodic(cs, v) || (s'.docs[v].status != Draft && NothingDue(s'.docs[v])))
  {
    if cs != [] {
      var n := |cs| - 1;
      var front, c, before := cs[..n], cs[n], Run(s, cs[..n]);
      RetiredOnlyIf(s, front, v);
      if EverPeriodic(front, v) {
        var i :| 0 <= i < |front| && front[i].v == v && !front[i].Cancel? && front[i].periodic;
        assert cs[i] == front[i];
        assert EverPeriodic(cs, v);
      }
      if c.v == v && !c.Cancel? && c.periodic { assert EverPeriodic(cs, v); }
      KindKept(s, cs, v);
      hide EverPeriodic, Opening, Step;
      if !EverPeriodic(cs, v) { RetiredStep(before, c, v); }
    }
  }

  lemma RetiredStep(s: Books, c: Call, v: Id)
    requires v in s.docs
    requires s.docs[v].posting == NotApplicable ==> s.docs[v].status != Draft && NothingDue(s.docs[v])
    ensures v in Step(s, c).docs
    ensures c.v != v || c.Cancel? || !c.periodic ==>
      var d := Step(s, c).docs[v]; d.posting == NotApplicable ==> d.status != Draft && NothingDue(d)
  {
  }

  /** So, over every run without periodic valuation and whatever was rejected or crashed, the leg of a
      submitted voucher with something to post is on record after the next accepted repost. */
  lemma NoLegIsLost(s: Books, cs: seq<Call>, v: Id, post: Id)
    requires Opening(s) && v in s.docs && !EverPeriodic(cs, v)
    requires var d := Run(s, cs).docs; v in d && d[v].status != Draft && !NothingDue(d[v])
    ensures var s' := Step(Run(s, cs), Repost(v, false, Accepted(post, true)));
      && v in s'.docs && s'.docs[v].posting == Posted && (v, OriginalPost) in s'.ledger
      && s'.docs[v].orig == Some(s'.ledger[(v, OriginalPost)].post)
  {
    EveryRunIsSafe(s, cs);
    RetiredOnlyIf(s, cs, v);
    var now := Run(s, cs);
    assert Settled(now, v, now.docs[v]);
    hide Run, Opening, EverPeriodic;
    if LegOpen(now.docs[v]) {
      RepostSettles(now, v, post);
    } else {
      NothingToDo(now, Repost(v, false, Accepted(post, true)));
    }
  }
}
