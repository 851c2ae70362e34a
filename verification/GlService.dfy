/** The posting service: voucher headers and the sink's journals as stored state, each call stepping
    through its writes one by one, stopped wherever its fate says. */
module GlService {
  import opened Common
  import opened GlProtocol

  datatype Answer = Answered(posted: bool, post: Option<Id>) | Refused(error: GlError) | Died

  datatype GlError = NotFound | NotDraft | NotSubmitted | GlNotPosted | GlRejected

  /** What a call that reaches the sink comes back with. */
  predicate AnswersFate(r: Answer, fate: Fate) {
    && (r.Answered? <==> fate.Accepted? && fate.marked)
    && (r.Refused? <==> fate.Rejected?)
    && (r.Refused? ==> r.error == GlRejected)
  }

  class PostingService {
    var docs: map<Id, Doc>
    var ledger: map<(Id, Side), Journal>

    ghost function State(): Books
      reads this
    {
      Books(docs, ledger)
    }

    constructor (docs: map<Id, Doc>)
      ensures State() == Books(docs, map[])
    {
      this.docs, ledger := docs, map[];
    }

    /** The accounting sink: a repeated key is answered with the journal already there. */
    method SinkPost(key: (Id, Side), j: Journal) returns (post: Id)
      modifies this`ledger
      ensures ledger == Post(old(ledger), key, j) && key in ledger && post == ledger[key].post
    {
      if key !in ledger { ledger := ledger[key := j]; }
      post := ledger[key].post;
    }

    /** A voucher already settled needs no post: the recorded ids, or nothing. */
    method AlreadySettled(v: Id) returns (settled: Option<Answer>)
      requires v in docs
      ensures settled.Some? <==> docs[v].posting == Posted || docs[v].posting == NotApplicable
      ensures settled.Some? ==>
        settled.value == Answered(docs[v].posting == Posted, if docs[v].posting == Posted then docs[v].orig else None)
    {
      match docs[v].posting
      case Posted => settled := Some(Answered(true, docs[v].orig));
      case NotApplicable => settled := Some(Answered(false, None));
      case _ => settled := None;
    }

    method EmitAndReconcile(v: Id, amount: real, fate: Fate) returns (r: Answer)
      requires v in docs
      modifies this
      ensures State() == EmitOriginal(old(State()), v, amount, fate)
      ensures r.Answered? ==> r.posted && (v, OriginalPost) in ledger && r.post == Some(ledger[(v, OriginalPost)].post)
      ensures AnswersFate(r, fate)
    {
      match fate
      case Rejected(marked) =>
        if marked { docs := docs[v := docs[v].(posting := Failed)]; }
        r := Refused(GlRejected);
      case Accepted(fromSink, marked) =>
        var post := SinkPost((v, OriginalPost), OriginalOf(docs[v], fromSink, amount));
        if !marked { return Died; }
        if docs[v].posting != Posted { docs := docs[v := docs[v].(posting := Posted, orig := Some(post))]; }
        r := Answered(true, Some(post));
      case _ => r := Died;
    }

    method EmitReversalAndReconcile(v: Id, amount: real, original: Id, fate: Fate) returns (r: Answer)
      requires v in docs
      modifies this
      ensures State() == EmitReversal(old(State()), v, amount, original, fate)
      ensures r.Answered? ==> r.posted && (v, ReversalPost) in ledger && r.post == Some(ledger[(v, ReversalPost)].post)
      ensures AnswersFate(r, fate)
    {
      match fate
      case Rejected(_) => r := Refused(GlRejected);
      case Accepted(fromSink, marked) =>
        var post := SinkPost((v, ReversalPost), ReversalOf(docs[v], fromSink, amount, original));
        if !marked { return Died; }
        docs := docs[v := docs[v].(rev := Some(post))];
        r := Answered(true, Some(post));
      case _ => r := Died;
    }

    method SubmitVoucher(v: Id, cogs: real, recorded: real, periodic: bool, fate: Fate) returns (r: Answer)
      modifies this
      ensures State() == Step(old(State()), Submit(v, cogs, recorded, periodic, fate))
      ensures r == Refused(NotFound) <==> v !in old(docs)
      ensures r == Refused(NotDraft) <==> v in old(docs) && old(docs)[v].status != Draft
      ensures v in old(docs) && old(docs)[v].status == Draft ==>
        && v in docs
        && if fate.Dies? || fate.DiesAfterStatus? then r == Died
           else if periodic || NothingDue(docs[v]) then r == Answered(false, None)
           else AnswersFate(r, fate)
      ensures r.Answered? && r.posted ==> (v, OriginalPost) in ledger && r.post == Some(ledger[(v, OriginalPost)].post)
    {
      if v !in docs { return Refused(NotFound); }
      if docs[v].status != Draft { return Refused(NotDraft); }
      if fate.Dies? { return Died; }
      docs := docs[v := Land(docs[v], cogs, recorded)];
      if fate.DiesAfterStatus? { return Died; }
      var amount := SubmitAmount(docs[v]);
      if periodic || (amount == 0.0 && docs[v].quantity == 0.0) {
        docs := docs[v := docs[v].(posting := NotApplicable)];
        return Answered(false, None);
      }
      r := EmitAndReconcile(v, amount, fate);
    }

    method RepostVoucher(v: Id, periodic: bool, fate: Fate) returns (r: Answer)
      modifies this
      ensures State() == Step(old(State()), Repost(v, periodic, fate))
      ensures r == Refused(NotFound) <==> v !in old(docs)
      ensures v in old(docs) ==>
        var d := old(docs)[v];
        if d.posting == Posted then r == Answered(true, d.orig)
        else if d.posting == NotApplicable then r == Answered(false, None)
        else if fate.Dies? then r == Died
        else if periodic then r == Answered(false, None)
        else AnswersFate(r, fate)
      ensures r.Answered? && r.posted && old(docs)[v].posting != Posted ==>
        (v, OriginalPost) in ledger && r.post == Some(ledger[(v, OriginalPost)].post)
    {
      if v !in docs { return Refused(NotFound); }
      var settled := AlreadySettled(v);
      if settled.Some? { return settled.value; }
      if fate.Dies? { return Died; }
      if periodic {
        docs := docs[v := docs[v].(posting := NotApplicable)];
        return Answered(false, None);
      }
      r := EmitAndReconcile(v, docs[v].header, fate);
    }

    method CancelVoucher(v: Id, fate: Fate) returns (r: Answer)
      modifies this
      ensures State() == Step(old(State()), Cancel(v, fate))
      ensures r == Refused(NotFound) <==> v !in old(docs)
      ensures r == Refused(NotSubmitted) <==> v in old(docs) && old(docs)[v].status == Draft
      ensures v in old(docs) && old(docs)[v].status != Draft ==>
        var d := old(docs)[v];
        if d.status == Cancelled && d.rev.Some? then r == Answered(true, d.rev)
        else if d.orig.None? then r == Refused(GlNotPosted)
        else if fate.Dies? then r == Died
        else AnswersFate(r, fate)
      ensures r.Answered? && old(docs)[v].rev.None? ==>
        (v, ReversalPost) in ledger && r.post == Some(ledger[(v, ReversalPost)].post)
    {
      if v !in docs { return Refused(NotFound); }
      if docs[v].status == Cancelled {
        if docs[v].rev.Some? { return Answered(true, docs[v].rev); }
        if docs[v].orig.None? { return Refused(GlNotPosted); }
        if fate.Dies? { return Died; }
        r := EmitReversalAndReconcile(v, docs[v].header, docs[v].orig.value, fate);
        return;
      }
      if docs[v].status != Submitted { return Refused(NotSubmitted); }
      if docs[v].orig.None? { return Refused(GlNotPosted); }
      if fate.Dies? { return Died; }
      docs := docs[v := docs[v].(status := Cancelled)];
      r := EmitReversalAndReconcile(v, docs[v].lines, docs[v].orig.value, fate);
    }
  }
}
