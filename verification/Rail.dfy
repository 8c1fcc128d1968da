/**
  Where the rail's answers come from (packages/payments/src/stellar-rail.ts:237-259): what the chain
  showed when it was asked, and a clock read after that.
  */
module Rail {
  import opened Common
  import opened World

  /** A transaction with a time bound enters a ledger that closes no later than the bound, or never. */
  datatype Inclusion = Inclusion(closedAt: int, successful: bool)
  datatype Envelope = Envelope(maxTime: int, inclusion: Option<Inclusion>)

  predicate Bounded(e: Envelope) { e.inclusion.Some? ==> e.inclusion.value.closedAt <= e.maxTime }

  /** What becomes of it in the end. */
  function FinalFate(e: Envelope): Fate
  {
    match e.inclusion
    case None => Dead
    case Some(i) => if i.successful then Applied else Fate.Failed
  }

  /** `reconcile`: the chain as it stood at `view`, then the clock at `now`. */
  function Reconcile(e: Envelope, view: int, now: int): Answer
  {
    if e.inclusion.Some? && e.inclusion.value.closedAt <= view then
      (if e.inclusion.value.successful then SaysSettled else SaysFailed)
    else if now > e.maxTime then SaysExpired
    else SaysPending
  }

  /**
    Every question is answered, and in time: what was included and seen is told as it ended; once the bound is past
    on the chain and on the clock the answer is definite, and it is what became of the payment. Before the clock
    passes the bound nothing is called expired.
    */
  lemma {:induction false} AnswersComeInTime(e: Envelope, view: int, now: int)
    requires Bounded(e)
    ensures e.inclusion.Some? && e.inclusion.value.closedAt <= view ==>
              Reconcile(e, view, now) == if e.inclusion.value.successful then SaysSettled else SaysFailed
    ensures e.maxTime <= view && e.maxTime < now ==>
              && (Reconcile(e, view, now) == SaysSettled <==> FinalFate(e) == Applied)
              && (Reconcile(e, view, now) == SaysFailed <==> FinalFate(e) == Fate.Failed)
              && (Reconcile(e, view, now) == SaysExpired <==> FinalFate(e) == Dead)
    ensures now <= e.maxTime && (e.inclusion.None? || view < e.inclusion.value.closedAt) ==> Reconcile(e, view, now) == SaysPending
  {}

  /** Settled and failed are true and final whenever they are said; once the bound is past, so is every later answer. */
  lemma {:induction false} DecisionsAreFinal(e: Envelope, view: int, now: int, laterView: int, laterNow: int)
    requires Bounded(e) && view <= now && laterView <= laterNow && view <= laterView && now <= laterNow
    ensures Reconcile(e, view, now) in {SaysSettled, SaysFailed} ==>
              && Truthful(FinalFate(e), Reconcile(e, view, now))
              && Reconcile(e, laterView, laterNow) == Reconcile(e, view, now)
    ensures e.maxTime <= view && Reconcile(e, view, now) == SaysExpired ==>
              FinalFate(e) == Dead && Reconcile(e, laterView, laterNow) == SaysExpired
  {}

  /**
    The contract "expired was never applied" rests on the order of the two readings. It holds for every
    transaction with this bound exactly when the chain was seen at or after the bound, or the clock had
    not passed it: an answer taken before the bound and a clock read after it may call a payment expired
    that was applied in between.
    */
  lemma {:induction false} ExpiredIsTrueExactlyWhen(maxTime: int, view: int, now: int)
    requires view <= now
    ensures (forall e {:trigger Bounded(e)} :: Bounded(e) && e.maxTime == maxTime ==> Truthful(FinalFate(e), Reconcile(e, view, now)))
            <==> maxTime <= view || now <= maxTime
  {
    if view < maxTime < now {
      var late := Envelope(maxTime, Some(Inclusion(maxTime, true)));
      assert Bounded(late) && Reconcile(late, view, now) == SaysExpired && FinalFate(late) == Applied;
    }
  }
}
