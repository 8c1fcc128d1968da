/** What an unsound reading costs: a payout that is given back and paid as well. */
module RailWitness {
  import opened Common
  import opened Sums
  import opened Ledger
  import opened Serving
  import opened World
  import opened PayoutLinks
  import opened WorldPayouts
  import opened WorldAudit
  import opened WorldPayments
  import opened WorldWitness
  import opened WitnessPayout
  import opened Rail
  import opened RailWorld

  /** Every envelope enters a ledger in its last moment. */
  function Late(maxTime: int): Envelopes { (b: Id) => Envelope(maxTime, Some(Inclusion(maxTime, true))) }

  function Submitting(): Event { Pay(DoPrepared(0, true, Survives)) }

  function Lifted(events: seq<Event>): seq<RailEvent>
  {
    seq(|events|, i requires 0 <= i < |events| => AtServer(events[i]))
  }

  function Signed1(): seq<RailEvent> { Lifted(Asked()) + [AtServer(Submitting())] }

  function Sending1(): seq<RailEvent> { Signed1() + [AtServer(Pay(DoSent(0)))] }

  function Misled(view: int, clock: int): seq<RailEvent> { Sending1() + [AnswersProc(0, Seen(view, clock), false)] }

  lemma {:induction false} RailNext(env: Envelopes, events: seq<RailEvent>, e: RailEvent)
    ensures RailRun(env, CFG, events + [e]) == RailStep(env, CFG, RailRun(env, CFG, events), e)
  {
    assert (events + [e])[..|events|] == events;
    hide RailStep;
  }

  /** As long as nothing was signed there is nothing to foretell. */
  lemma {:induction false} NothingForetold(env: Envelopes, w: World, e: Event)
    requires !FromChain(e) && Step(CFG, w, e).txs == []
    ensures RailStep(env, CFG, w, AtServer(e)) == Step(CFG, w, e)
  {
    var w' := Step(CFG, w, e);
    assert Step(CFG, w', Tick(0)) == w';
    hide AdStep, PayStep, MarketStep;
  }

  lemma {:induction false} LiftedRun(env: Envelopes, events: seq<Event>)
    requires forall i :: 0 <= i < |events| ==> !FromChain(events[i])
    requires Run(CFG, Empty(), events).txs == []
    ensures RailRun(env, CFG, Lifted(events)) == Run(CFG, Empty(), events)
  {
    if |events| > 0 {
      var front, last := events[..|events| - 1], events[|events| - 1];
      TxsGrow(CFG, Run(CFG, Empty(), front), last);
      assert Lifted(events) == Lifted(front) + [AtServer(last)];
      RailNext(env, Lifted(front), AtServer(last));
      hide Step, RailRun, RailStep, Lifted;
      LiftedRun(env, front);
      NothingForetold(env, Run(CFG, Empty(), front), last);
    }
  }

  /** The withdrawal asks about a transaction of this fate. */
  ghost predicate Questioning(w: World, fate: Fate)
  {
    && w.journal == [Topup(Id(9), SPONSOR, FUNDS), Submitted(AdvertiserKind, BATCH, SPONSOR, ASKED)]
    && w.txs == [Tx(AdvertiserKind, BATCH, SPONSOR, ASKED, true, fate)]
    && w.procs == map[0 := Proc(AdvertiserKind, SPONSOR, ASKED, Asking(BATCH, CFG.confirmWaitMs, true))]
  }

  lemma {:induction false} SendsAndAsks(w: World, fate: Fate)
    requires Signing(w) && fate != Open
    ensures var signed := Prepared(w, 0, true, Survives);
            && signed.txs == [Tx(AdvertiserKind, BATCH, SPONSOR, ASKED, true, Open)]
            && Questioning(Sent(CFG, ChainDecides(signed, 0, fate), 0), fate)
  {
    FundsAreSpendable(w);
    hide WithdrawLimit;
    assert Post(w.journal, Submitted(AdvertiserKind, BATCH, SPONSOR, ASKED)) == w.journal + [Submitted(AdvertiserKind, BATCH, SPONSOR, ASKED)];
  }

  lemma {:induction false} ForetoldApplied(maxTime: int, w: World)
    requires Prepared(w, 0, true, Survives).txs == [Tx(AdvertiserKind, BATCH, SPONSOR, ASKED, true, Open)]
    ensures RailStep(Late(maxTime), CFG, w, AtServer(Submitting())) == ChainDecides(Prepared(w, 0, true, Survives), 0, Applied)
  {
    hide Prepared;
    var w' := Prepared(w, 0, true, Survives);
    assert EnvelopeOf(Late(maxTime), w'.txs[0]) == Envelope(maxTime, Some(Inclusion(maxTime, true)));
    assert Step(CFG, w, Submitting()) == w';
  }

  lemma {:induction false} SentAgain(env: Envelopes, w: World)
    requires |w.txs| == 1 && w.txs[0].fate != Open
    ensures RailStep(env, CFG, w, AtServer(Pay(DoSent(0)))) == Sent(CFG, w, 0)
  {
    hide Sent;
    assert Step(CFG, w, Pay(DoSent(0))) == Sent(CFG, w, 0);
  }

  lemma {:induction false} RailSignsAndSends(maxTime: int, w: World)
    requires Signing(w)
    ensures var env := Late(maxTime);
            var w' := RailStep(env, CFG, RailStep(env, CFG, w, AtServer(Submitting())), AtServer(Pay(DoSent(0))));
            w' == Sent(CFG, ChainDecides(Prepared(w, 0, true, Survives), 0, Applied), 0) && Questioning(w', Applied)
  {
    SendsAndAsks(w, Applied);
    ForetoldApplied(maxTime, w);
    hide Signing, Prepared, Sent, RailStep, Questioning;
    SentAgain(Late(maxTime), ChainDecides(Prepared(w, 0, true, Survives), 0, Applied));
  }

  lemma {:induction false} AskedIsPlain()
    ensures forall i :: 0 <= i < |Asked()| ==> !FromChain(Asked()[i])
  {}

  lemma {:induction false} RailAsks(maxTime: int)
    ensures var w := RailRun(Late(maxTime), CFG, Sending1());
            var w0 := Run(CFG, Empty(), Asked());
            w == Sent(CFG, ChainDecides(Prepared(w0, 0, true, Survives), 0, Applied), 0) && Questioning(w, Applied)
  {
    var env, w0 := Late(maxTime), Run(CFG, Empty(), Asked());
    GetsToSigning();
    RailSignsAndSends(maxTime, w0);
    assert w0.txs == [];
    AskedIsPlain();
    hide Run, RailRun, Prepared, RailStep, Sent, Questioning, Signing, ChainDecides, Asked, Lifted, FromChain;
    LiftedRun(env, Asked());
    RailNext(env, Lifted(Asked()), AtServer(Submitting()));
    RailNext(env, Signed1(), AtServer(Pay(DoSent(0))));
  }

  function Dying(): seq<Event> { Asked() + [Submitting()] + [Pay(DoChain(0, Dead))] + [Pay(DoSent(0))] }

  lemma {:induction false} DyingRun()
    ensures Run(CFG, Empty(), Dying()) ==
            Sent(CFG, ChainDecides(Prepared(Run(CFG, Empty(), Asked()), 0, true, Survives), 0, Dead), 0)
  {
    hide Run, Asked, Prepared, Sent, ChainDecides;
    RunExtends(Asked(), Submitting());
    RunExtends(Asked() + [Submitting()], Pay(DoChain(0, Dead)));
    RunExtends(Asked() + [Submitting()] + [Pay(DoChain(0, Dead))], Pay(DoSent(0)));
  }

  /** The same world, had the chain let the transaction die. */
  lemma {:induction false} BelievedIsReachable(w: World, v: World)
    requires var w0 := Run(CFG, Empty(), Asked());
             && w == Sent(CFG, ChainDecides(Prepared(w0, 0, true, Survives), 0, Applied), 0)
             && v == Sent(CFG, ChainDecides(Prepared(w0, 0, true, Survives), 0, Dead), 0)
    ensures Good(v) && Questioning(v, Dead) && |w.txs| == 1 && Believed(w, 0, SaysExpired) == v
  {
    var w0 := Run(CFG, Empty(), Asked());
    GetsToSigning();
    DyingRun();
    Reachable(CFG, Dying());
    hide Run, Asked, Dying, Good;
    SendsAndAsks(w0, Applied);
    SendsAndAsks(w0, Dead);
    hide Prepared, Signing;
  }

  /** Told that the transaction expired, the server gives the money back. */
  lemma {:induction false} BelievesAndRefunds(v: World)
    requires Good(v) && Questioning(v, Dead)
    ensures var w' := Answered(v, 0, SaysExpired, false);
            w'.journal == Post(v.journal, ReversalOf(v.journal, BATCH, SPONSOR)) && HasId(w'.journal, ReversalId(Payout(BATCH, SPONSOR)))
  {
    assert Linked(v.journal, v.txs);
    hide Good, Linked, ReversalOf;
    RefundPost(v.journal, v.txs, 0);
    PostHasId(v.journal, ReversalOf(v.journal, BATCH, SPONSOR));
    ReversalIdOf(v.journal);
    hide Post, HasId;
    assert TxAt(v, BATCH) == 0;
  }

  lemma {:induction false} ReversalIdOf(j: seq<Posting>)
    ensures IdOf(ReversalOf(j, BATCH, SPONSOR)) == ReversalId(Payout(BATCH, SPONSOR)) && ReversalOf(j, BATCH, SPONSOR).Reversal?
  {}

  lemma {:induction false} MisledSays(maxTime: int, view: int, clock: int, w: World)
    requires view < maxTime < clock && Questioning(w, Applied)
    ensures var e := AnswersProc(0, Seen(view, clock), false);
            && AskedAbout(w, e) == Some(0) && Says(Late(maxTime), w.txs[0], e.reading) == SaysExpired
            && RailStep(Late(maxTime), CFG, w, e) == Answered(Believed(w, 0, SaysExpired), 0, SaysExpired, false).(txs := w.txs)
  {
    assert TxAt(w, BATCH) == 0;
    assert EnvelopeOf(Late(maxTime), w.txs[0]) == Envelope(maxTime, Some(Inclusion(maxTime, true)));
    hide Answered, EnvelopeOf, Late, TxAt;
  }

  /** The chain paid what the ledger took back. */
  lemma {:induction false} PaidAndReversed(w: World, j: seq<Posting>)
    requires j == [Topup(Id(9), SPONSOR, FUNDS), Submitted(AdvertiserKind, BATCH, SPONSOR, ASKED)]
    requires w.txs == [Tx(AdvertiserKind, BATCH, SPONSOR, ASKED, true, Applied)]
    requires w.journal == Post(j, ReversalOf(j, BATCH, SPONSOR)) && HasId(w.journal, ReversalId(Payout(BATCH, SPONSOR)))
    ensures ChainPaid(w, SPONSOR) == ASKED && Debited(w.journal, SPONSOR) == 0 && IsReversed(w.journal, w.txs[0])
  {
    SumAppend([], w.txs[0], PaidWeight(SPONSOR));
    assert w.txs == [] + [w.txs[0]];
    ReversalIdOf(j);
    hide ReversalOf, HasId;
    SumZero(w.journal, DebitWeight(w.journal, SPONSOR));
  }

  /**
    Any reading of a chain before the bound and a clock after it can call a payment expired that is applied
    in between: the server gives the money back, and the chain pays it too.
    */
  lemma {:induction false} UnsoundReadingPaysTwice(maxTime: int, view: int, clock: int)
    requires view < maxTime < clock
    ensures AllBounded(Late(maxTime))
    ensures var w := RailRun(Late(maxTime), CFG, Misled(view, clock));
            && |w.txs| == 1 && w.txs[0].fate == Applied && IsReversed(w.journal, w.txs[0])
            && ChainPaid(w, SPONSOR) == ASKED && Debited(w.journal, SPONSOR) == 0
  {
    var w0 := Run(CFG, Empty(), Asked());
    var w := RailRun(Late(maxTime), CFG, Sending1());
    var v := Sent(CFG, ChainDecides(Prepared(w0, 0, true, Survives), 0, Dead), 0);
    RailAsks(maxTime);
    RailNext(Late(maxTime), Sending1(), AnswersProc(0, Seen(view, clock), false));
    MisledSays(maxTime, view, clock, w);
    BelievedIsReachable(w, v);
    BelievesAndRefunds(v);
    PaidAndReversed(RailRun(Late(maxTime), CFG, Misled(view, clock)), v.journal);
    hide Run, RailRun, RailStep, Answered, Prepared, Sent, Good, ReversalOf, Post;
  }

  /* ---------- exactly when the rail is safe ---------- */

  /** Every answer of the run comes from this reading, or got lost. */
  ghost predicate OnlyReads(events: seq<RailEvent>, r: Reading)
  {
    forall n :: 0 <= n < |events| && !events[n].AtServer? ==> events[n].reading in {r, Lost}
  }

  ghost predicate AlwaysSafe(maxTime: int, r: Reading)
  {
    forall env: Envelopes, cfg, events {:trigger RailRun(env, cfg, events)} ::
      AllBounded(env) && (forall b :: env(b).maxTime == maxTime) && OnlyReads(events, r) ==> Safe(env, RailRun(env, cfg, events))
  }

  lemma {:induction false} UnsafeWhen(maxTime: int, view: int, clock: int)
    requires view < maxTime < clock
    ensures !AlwaysSafe(maxTime, Seen(view, clock))
  {
    var env, events := Late(maxTime), Misled(view, clock);
    var w := RailRun(env, CFG, events);
    UnsoundReadingPaysTwice(maxTime, view, clock);
    assert OnlyReads(events, Seen(view, clock));
    assert forall b :: env(b).maxTime == maxTime;
    hide RailRun, ChainPaid, Debited, SafeTx, Misled, Late, OnlyReads, AllBounded;
    assert ChainPaid(w, SPONSOR) > Debited(w.journal, SPONSOR);
    assert !Safe(env, w);
  }

  lemma {:induction false} SafeWhen(maxTime: int, view: int, clock: int)
    requires maxTime <= view || clock <= maxTime
    ensures AlwaysSafe(maxTime, Seen(view, clock))
  {
    hide RailRun, Safe, OnlyReads;
    forall env: Envelopes, cfg, events
      | AllBounded(env) && (forall b :: env(b).maxTime == maxTime) && OnlyReads(events, Seen(view, clock))
      ensures Safe(env, RailRun(env, cfg, events)) {
      SoundWhenever(maxTime, view, clock, env, cfg, events);
      SoundReadingsAreSafe(env, cfg, events);
    }
  }

  /**
    With one time bound and one way of reading, no run pays twice exactly when the chain is seen at or
    after the bound, or the clock has not passed it.
    */
  lemma {:induction false} RailIsSafeExactlyWhen(maxTime: int, view: int, clock: int)
    ensures AlwaysSafe(maxTime, Seen(view, clock)) <==> maxTime <= view || clock <= maxTime
  {
    hide AlwaysSafe;
    if view < maxTime < clock {
      UnsafeWhen(maxTime, view, clock);
    } else {
      SafeWhen(maxTime, view, clock);
    }
  }

  lemma {:induction false} SoundWhenever(maxTime: int, view: int, clock: int, env: Envelopes, cfg: Config, events: seq<RailEvent>)
    requires (maxTime <= view || clock <= maxTime) && (forall b :: env(b).maxTime == maxTime) && OnlyReads(events, Seen(view, clock))
    ensures AllSound(env, cfg, events)
  {
    hide RailRun;
  }
}
