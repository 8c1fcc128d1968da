/** Solvency: no run of the server ever takes an advertiser, or any internal account, below what it owes. */
module WorldMoney {
  import opened Common
  import opened Money
  import opened Sums
  import opened Ledger
  import opened Selector
  import opened Serving
  import opened World
  import opened WorldShape
  import opened PayoutLinks
  import opened WorldPayouts
  import opened Commitments

  /** An advertiser's balance over and above live deliveries and pending impressions not billed yet. */
  function Free(w: World, a: Id): int { Balance(w.journal, Advertiser(a)) - Exposed(w, RateOf(a)) }

  ghost predicate Reserved(w: World) { forall a {:trigger Free(w, a)} :: 0 <= Free(w, a) }

  /** What the code calls spendable is never more than what is really free. */
  lemma {:induction false} SpendableIsFree(w: World, a: Id)
    requires Offers(w) && Reports(w)
    ensures Spendable(w, a) <= Max0(Free(w, a))
    ensures (forall k :: 0 <= k < |w.impressions| && w.impressions[k].state == Pending ==>
               !HasId(w.journal, ShownId(w.impressions[k].id))) ==> Spendable(w, a) == Max0(Free(w, a))
  {
    RatesWeigh(w, a, {});
    ExposedIsNotNegative(w, RateOf(a));
    if forall k :: 0 <= k < |w.impressions| && w.impressions[k].state == Pending ==>
         !HasId(w.journal, ShownId(w.impressions[k].id)) {
      SumSame(w.impressions, UnpostedWeight(w.journal, RateOf(a)), PendingWeight(RateOf(a)));
    }
  }

  lemma {:induction false} ReserveIsNotNegative(w: World, sponsor: Id)
    ensures 0 <= PoolReserve(w, sponsor)
  {
    hide PoolSpent;
    SumNonNegative(w.pools, ReserveWeight(w, sponsor));
  }

  /* ---------- what one posting does to an advertiser ---------- */

  lemma {:induction false} PostedBalance(j: seq<Posting>, p: Posting, a: Account)
    ensures Balance(Post(j, p), a) == Balance(j, a) + (if HasId(j, IdOf(p)) then 0 else EffectOf(p, a))
  {
    SumAppend(j, p, Effect(a));
  }

  /* ---------- serving ---------- */

  /** Giving slots back touches neither money nor records. */
  lemma {:induction false} ReturnSlotsKeeps(w: World, publisher: Id)
    ensures ReturnSlots(w, publisher) ==
            w.(returned := ReturnSlots(w, publisher).returned, stages := ReturnSlots(w, publisher).stages)
  {}

  /** What a serve step needs to know about its selection, read in the world it started from. */
  lemma {:induction false} ServeAffords(cfg: Config, w: World, publisher: Id, nonce: Id, coin: (Id, Id) -> bool, crash: bool)
    returns (made: Option<Selection>)
    requires Offers(w) && Reports(w)
    ensures var w' := Serve(cfg, w, publisher, nonce, coin, crash);
            && w' == w.(deliveries := w'.deliveries, served := w'.served, procs := w'.procs,
                        returned := w'.returned, stages := w'.stages)
            && (made.None? ==> w'.deliveries == w.deliveries && w'.served == w.served)
    ensures made.Some? ==>
              var s := made.value;
              var w' := Serve(cfg, w, publisher, nonce, coin, crash);
              var d := DeliveryFor(s, publisher, nonce, w.now);
              && nonce !in w.served && s.campaign in w.campaigns
              && w'.deliveries == Keep(w.deliveries + [d], (x: Delivery) => KeptByGc(x, w.now))
              && w'.served == w.served[nonce := d]
              && 0 <= s.rate <= RateFromCpm(s.campaign.bid)
              && (s.campaign.pool.None? ==>
                    s.rate <= Max0(Spendable(w, s.campaign.advertiser) - PoolReserve(w, s.campaign.advertiser)))
              && (s.campaign.pool.Some? ==>
                    && s.rate == RateFromCpm(s.campaign.bid)
                    && s.rate <= Spendable(w, s.campaign.advertiser)
                    && PoolOf(w, publisher) == s.campaign.pool
                    && PoolAllows(w, publisher, s.campaign.pool.value, s.rate))
              && (s.campaign.blocks.Some? ==>
                    Committed(w, s.campaign.id) < s.campaign.blocks.value * IMPRESSIONS_PER_BLOCK)
              && s.rate <= Max0(Spendable(w, s.campaign.advertiser))
              && 0 < Spendable(w, s.campaign.advertiser)
  {
    made := ServeCases(cfg, w, publisher, nonce, coin, crash);
    hide Serve;
    if made.Some? {
      PassesIn(cfg, w, publisher, made.value);
    }
  }

  lemma {:induction false} PassesIn(cfg: Config, w: World, publisher: Id, s: Selection)
    requires var d := DepsFor(cfg, ReturnSlots(w, publisher), publisher);
             && Passes(d, s.campaign) && 0 <= s.rate <= RateFromCpm(s.campaign.bid) <= SpendableFor(d, s.campaign)
             && (s.campaign.pool.Some? ==> s.rate == RateFromCpm(s.campaign.bid))
    ensures var c := s.campaign;
            && (c.pool.None? ==> s.rate <= Max0(Spendable(w, c.advertiser) - PoolReserve(w, c.advertiser)))
            && (c.pool.Some? ==>
                  && s.rate <= Spendable(w, c.advertiser)
                  && PoolOf(w, publisher) == c.pool && PoolAllows(w, publisher, c.pool.value, s.rate))
            && (c.blocks.Some? ==> Committed(w, c.id) < c.blocks.value * IMPRESSIONS_PER_BLOCK)
            && s.rate <= Max0(Spendable(w, c.advertiser)) && 0 < Spendable(w, c.advertiser)
  {
    var w1 := ReturnSlots(w, publisher);
    ReturnSlotsKeeps(w, publisher);
    hide ReturnSlots;
    SlotsDoNotMatter(w, w1, publisher, s);
    ReserveIsNotNegative(w, s.campaign.advertiser);
    hide Spendable, PoolReserve, Committed, PoolOf, PoolAllows, SpentToday;
  }

  lemma {:induction false} SlotsDoNotMatter(w: World, w1: World, publisher: Id, s: Selection)
    requires w1 == w.(returned := w1.returned, stages := w1.stages)
    ensures Spendable(w1, s.campaign.advertiser) == Spendable(w, s.campaign.advertiser)
    ensures PoolReserve(w1, s.campaign.advertiser) == PoolReserve(w, s.campaign.advertiser)
    ensures Committed(w1, s.campaign.id) == Committed(w, s.campaign.id)
    ensures PoolOf(w1, publisher) == PoolOf(w, publisher)
    ensures forall pool, rate :: PoolAllows(w1, publisher, pool, rate) == PoolAllows(w, publisher, pool, rate)
  {
    SlotsAndReserve(w, w1, s.campaign.advertiser);
    forall pool ensures PoolCampaigns(w1, pool) == PoolCampaigns(w, pool) && PoolAt(w1, pool) == PoolAt(w, pool) {}
  }

  lemma {:induction false} SlotsAndReserve(w: World, w1: World, sponsor: Id)
    requires w1 == w.(returned := w1.returned, stages := w1.stages)
    ensures PoolReserve(w1, sponsor) == PoolReserve(w, sponsor)
  {
    forall pool ensures PoolSpent(w1, pool) == PoolSpent(w, pool) {
      assert PoolCampaigns(w1, pool) == PoolCampaigns(w, pool);
    }
    hide PoolSpent;
    SumSame(w.pools, ReserveWeight(w1, sponsor), ReserveWeight(w, sponsor));
  }

  lemma {:induction false} FreeServe(cfg: Config, w: World, publisher: Id, nonce: Id, coin: (Id, Id) -> bool, crash: bool, a: Id)
    returns (made: Option<Selection>)
    requires Offers(w) && Reports(w)
    ensures Free(Serve(cfg, w, publisher, nonce, coin, crash), a) ==
            Free(w, a) - (if made.Some? && made.value.campaign.advertiser == a then made.value.rate else 0)
    ensures made.Some? ==>
              && 0 <= made.value.rate <= RateFromCpm(made.value.campaign.bid)
              && made.value.rate <= Free(w, made.value.campaign.advertiser)
  {
    made := ServeAffords(cfg, w, publisher, nonce, coin, crash);
    var w' := Serve(cfg, w, publisher, nonce, coin, crash);
    hide Serve;
    if made.Some? {
      var d := DeliveryFor(made.value, publisher, nonce, w.now);
      ServeCommits(w, w', d, RateOf(a));
      SpendableIsFree(w, made.value.campaign.advertiser);
    }
  }

  /* ---------- reporting and verifying ---------- */

  lemma {:induction false} FreeVerify(cfg: Config, w: World, k: nat, o: Oracle, crash: bool, a: Id)
    requires Offers(w) && Reports(w)
    ensures Free(w, a) <= Free(Verify(cfg, w, k, o, crash), a)
  {
    RatesWeigh(w, a, {});
    var billed, denied := VerifyCommits(cfg, w, k, o, crash, RateOf(a), 0);
    if billed || denied {
      assert GoodReport(w, w.impressions[k]);
    }
    hide Verify, Judged, Offers, Reports, LiveSum, UnpostedSum, HasId;
    if billed {
      SumAppend(w.journal, ShownOf(w.impressions[k]), Effect(Advertiser(a)));
    }
  }

  lemma {:induction false} ReservedAd(cfg: Config, w: World, e: AdEvent)
    requires Offers(w) && Reports(w) && Reserved(w)
    ensures Reserved(AdStep(cfg, w, e))
  {
    forall a ensures 0 <= Free(AdStep(cfg, w, e), a) {
      assert 0 <= Free(w, a);
      RatesWeigh(w, a, {});
      hide Serve, Ingest, Verify, Vacuum, Free;
      match e {
        case DoServe(p, n, coin, crash) => var made := FreeServe(cfg, w, p, n, coin, crash, a);
        case DoIngest(p, ev, crash) => FreeIngest(cfg, w, p, ev, crash, a);
        case DoVerify(k, o, crash) => FreeVerify(cfg, w, k, o, crash, a);
        case DoRestart =>
        case DoVacuum(before) => FreeVacuum(w, before, a);
      }
    }
  }

  lemma {:induction false} FreeIngest(cfg: Config, w: World, p: Id, ev: Report, crash: IngestCrash, a: Id)
    requires Offers(w) && Reports(w)
    ensures Free(w, a) <= Free(Ingest(cfg, w, p, ev, crash), a)
  {
    RatesWeigh(w, a, {});
    hide Ingest;
    IngestCommits(cfg, w, p, ev, crash, RateOf(a), 0);
  }

  lemma {:induction false} FreeVacuum(w: World, before: int, a: Id)
    ensures Free(Vacuum(w, before), a) == Free(w, a)
  {
    VacuumCommits(w, before, RateOf(a));
    hide Vacuum;
  }

  /* ---------- payments ---------- */

  /** A posting that is not an impression moves what is free by its effect on the balance. */
  lemma {:induction false} FreePost(w: World, w': World, p: Posting, a: Id)
    requires !p.Shown? && w'.journal == Post(w.journal, p)
    requires w'.deliveries == w.deliveries && w'.impressions == w.impressions && w'.now == w.now
    ensures Free(w', a) == Free(w, a) + (if HasId(w.journal, IdOf(p)) then 0 else EffectOf(p, Advertiser(a)))
  {
    PostedBalance(w.journal, p, Advertiser(a));
    OtherPostCommits(w.journal, p, w.impressions, RateOf(a));
    hide Post, EffectOf;
  }

  lemma {:induction false} RefundEffect(t: Tx, a: Account)
    ensures EffectOf(Reversal(Payout(t.batch, t.owner), EntriesOf(SubmitOf(t))), a) == -EffectOf(SubmitOf(t), a)
  {
    EntriesEffect(SubmitOf(t), a);
  }

  /** What a payment step writes to the journal, if anything. */
  ghost predicate Written(w: World, w': World, p: Posting)
  {
    && w'.journal == Post(w.journal, p)
    && match p
       case Topup(_, _, amount) => 0 < amount && InRange(amount)
       case Submitted(kind, _, owner, amount) =>
         0 < amount <= WithdrawLimit(w, kind, owner) && amount <= Balance(w.journal, Source(kind, owner))
       case Settled(b, o, amount) => exists k :: 0 <= k < |w.txs| && SameMoney(w.txs[k], b, o, amount) && w.txs[k].fate == Applied
       case Reversal(r, original) =>
         exists k :: 0 <= k < |w.txs| && r == Payout(w.txs[k].batch, w.txs[k].owner) && w.txs[k].fate in {Failed, Dead}
                     && original == EntriesOf(SubmitOf(w.txs[k]))
       case Shown(_, _, _, _, _, _) => false
  }

  lemma {:induction false} PayWrites(cfg: Config, w: World, e: PayEvent) returns (p: Option<Posting>)
    requires Payouts(w)
    ensures p.None? ==> PayStep(cfg, w, e).journal == w.journal
    ensures p.Some? ==> Written(w, PayStep(cfg, w, e), p.value)
  {
    p := None;
    hide Begin, Validated, Prepared, Sent, Answered, Resume, ChainDecides, WithdrawLimit;
    match e {
      case DoDeposit(a, amount, t) =>
        if amount > 0 && InRange(amount) { p := Some(Topup(t, a, amount)); }
      case DoPrepared(pid, ok, crash) =>
        var t := PreparedCases(w, pid, ok, crash);
        if t.Some? {
          assert ProcLinked(w, w.procs[pid]);
          p := Some(SubmitOf(t.value));
        }
      case DoAnswered(pid, a, crash) => p := AnsweredWrites(w, pid, a, crash);
      case DoResume(k, a, crash) => p := ResumeWrites(w, k, a, crash);
      case _ =>
    }
  }

  lemma {:induction false} SettleWrites(w: World, w': World, k: nat, a: Answer, crash: bool) returns (p: Option<Posting>)
    requires Payouts(w) && k < |w.txs| && Truthful(w.txs[k].fate, a)
    requires a == SaysSettled ==> w'.journal == Settle(w, w.txs[k].batch, w.txs[k].owner, w.txs[k].amount, crash).journal
    requires a in {SaysFailed, SaysExpired} ==> w'.journal == Refund(w, w.txs[k].batch, w.txs[k].owner, crash).journal
    requires a in {SaysPending, Throws} ==> w'.journal == w.journal
    ensures p.None? ==> w'.journal == w.journal
    ensures p.Some? ==> Written(w, w', p.value)
  {
    var t := w.txs[k];
    match a {
      case SaysSettled =>
        p := Some(Settled(t.batch, t.owner, t.amount));
        assert SameMoney(w.txs[k], t.batch, t.owner, t.amount);
      case SaysPending => p := None;
      case Throws => p := None;
      case _ =>
        RefundPost(w.journal, w.txs, k);
        p := Some(ReversalOf(w.journal, t.batch, t.owner));
    }
  }

  lemma {:induction false} AnsweredWrites(w: World, pid: nat, a: Answer, crash: bool) returns (p: Option<Posting>)
    requires Payouts(w)
    ensures p.None? ==> Answered(w, pid, a, crash).journal == w.journal
    ensures p.Some? ==> Written(w, Answered(w, pid, a, crash), p.value)
  {
    hide Settle, Refund;
    p := None;
    if pid in w.procs && w.procs[pid].phase.Asking? {
      var q := w.procs[pid];
      var k := TxAt(w, q.phase.batch);
      AskedTx(w, pid);
      hide TxAt, Payouts;
      if k >= 0 && Truthful(w.txs[k].fate, a) {
        p := SettleWrites(w, Answered(w, pid, a, crash), k, a, crash);
      }
    }
  }

  lemma {:induction false} ResumeWrites(w: World, i: nat, a: Answer, crash: bool) returns (p: Option<Posting>)
    requires Payouts(w)
    ensures p.None? ==> Resume(w, i, a, crash).journal == w.journal
    ensures p.Some? ==> Written(w, Resume(w, i, a, crash), p.value)
  {
    hide Settle, Refund;
    p := None;
    if i < |w.items| && w.items[i].state == ItemSubmitted {
      var it := w.items[i];
      var k := TxAt(w, it.batch);
      assert ItemLinked(w, it);
      if k >= 0 && Truthful(w.txs[k].fate, a) {
        var m :| 0 <= m < |w.txs| && SameMoney(w.txs[m], it.batch, it.owner, it.amount);
        p := SettleWrites(w, Resume(w, i, a, crash), k, a, crash);
      }
    }
  }

  /** A payment only ever takes what is free, and refunds add to it. */
  lemma {:induction false} WrittenAffords(w: World, w': World, p: Posting, a: Account)
    requires Offers(w) && Reports(w) && Payouts(w) && Written(w, w', p)
    ensures EffectOf(p, a) < 0 ==>
              || !Internal(a)
              || (p.Settled? && a == PayoutsInFlight)
              || (p.Reversal? && a == PayoutsInFlight)
              || (p.Submitted? && a == Source(p.kind, p.owner) && EffectOf(p, a) == -p.amount && p.amount <= Balance(w.journal, a))
    ensures p.Submitted? && p.kind == AdvertiserKind ==> p.amount <= Free(w, p.owner) - PoolReserve(w, p.owner)
  {
    if p.Reversal? {
      var k :| 0 <= k < |w.txs| && p.refId == Payout(w.txs[k].batch, w.txs[k].owner) && w.txs[k].fate in {Failed, Dead}
               && p.original == EntriesOf(SubmitOf(w.txs[k]));
      assert TxLinked(w.journal, w.txs[k]);
      RefundEffect(w.txs[k], a);
      assert Source(w.txs[k].kind, w.txs[k].owner) != PayoutsInFlight;
    }
    if p.Settled? {
      var k :| 0 <= k < |w.txs| && SameMoney(w.txs[k], p.batch, p.owner, p.amount) && w.txs[k].fate == Applied;
      assert TxLinked(w.journal, w.txs[k]);
    }
    if p.Submitted? && p.kind == AdvertiserKind {
      SpendableIsFree(w, p.owner);
      ReserveIsNotNegative(w, p.owner);
      hide Spendable, PoolReserve, Free;
    }
  }

  lemma {:induction false} ReservedPay(cfg: Config, w: World, e: PayEvent)
    requires Offers(w) && Reports(w) && Payouts(w) && Reserved(w)
    ensures Reserved(PayStep(cfg, w, e))
  {
    var p := PayWrites(cfg, w, e);
    var w' := PayStep(cfg, w, e);
    hide PayStep;
    forall a ensures 0 <= Free(w', a) {
      assert 0 <= Free(w, a);
      if p.Some? {
        FreePost(w, w', p.value, a);
        WrittenAffords(w, w', p.value, Advertiser(a));
        if p.value.Submitted? && Source(p.value.kind, p.value.owner) == Advertiser(a) {
          ReserveIsNotNegative(w, a);
        }
      }
    }
  }

  lemma {:induction false} ReservedStep(cfg: Config, w: World, e: Event)
    requires Offers(w) && Reports(w) && Payouts(w) && Reserved(w)
    ensures Reserved(Step(cfg, w, e))
  {
    hide AdStep, PayStep, MarketStep;
    match e {
      case Ad(a) => ReservedAd(cfg, w, a);
      case Pay(p) => ReservedPay(cfg, w, p);
      case Tick(ms) =>
        forall a ensures 0 <= Free(Step(cfg, w, e), a) {
          assert 0 <= Free(w, a);
          RatesWeigh(w, a, {});
          TickCommits(w, ms, RateOf(a));
        }
      case Market(m) =>
        forall a ensures 0 <= Free(Step(cfg, w, e), a) {
          assert 0 <= Free(w, a);
        }
    }
  }
}
