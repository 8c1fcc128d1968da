/**
  Money set aside for open pools: once what a sponsor has free covers it, no serving, reporting,
  verifying, expiry, restart, deposit or withdrawal takes that cover away, with one exception that is
  stated exactly: rejecting an impression that a crash left pending although it was billed.
  */
module WorldReserve {
  import opened Common
  import opened Sums
  import opened Ledger
  import opened Selector
  import opened Serving
  import opened World
  import opened WorldShape
  import opened WorldPayouts
  import opened Commitments
  import opened WorldMoney
  import opened WorldAudit
  import opened WorldPools

  /** What a sponsor has free beyond the unspent part of his open pools. */
  function Slack(w: World, s: Id): int { Free(w, s) - PoolReserve(w, s) }

  predicate Backs(w: World, p: Pool, s: Id) { p.sponsor == s && p.open }

  /** What a stake adds to each of a sponsor's open pools. */
  function ShareValue(w: World, s: Id, stake: Stake, p: Pool): int
  {
    if Backs(w, p, s) then RateIn(PoolCampaigns(w, p.id))(stake) else 0
  }

  function ShareIn(w: World, s: Id, stake: Stake): Pool -> int { (p: Pool) => ShareValue(w, s, stake, p) }

  ghost predicate Familiar(w: World, stake: Stake)
  {
    0 <= stake.rate && exists i :: 0 <= i < |w.campaigns| && w.campaigns[i].id == stake.campaign && w.campaigns[i].advertiser == stake.advertiser
  }

  lemma {:induction false} DeliveryIsFamiliar(w: World, k: nat)
    requires Offers(w) && k < |w.deliveries|
    ensures Familiar(w, OfDelivery(w.deliveries[k]))
  {
    assert Registered(w, w.deliveries[k]) && GoodOffer(w.campaigns, w.deliveries[k].nonce, w.served[w.deliveries[k].nonce]);
  }

  lemma {:induction false} ImpressionIsFamiliar(w: World, k: nat)
    requires Offers(w) && Reports(w) && k < |w.impressions| && w.impressions[k].state != Rejected
    ensures Familiar(w, OfImpression(w.impressions[k]))
  {
    assert GoodReport(w, w.impressions[k]) && GoodOffer(w.campaigns, w.impressions[k].nonce, w.served[w.impressions[k].nonce]);
  }

  /** A stake counts in at most one pool, and only in one of the advertiser who pays for it. */
  lemma {:induction false} OnePool(w: World, s: Id, stake: Stake)
    requires Catalogue(w) && Familiar(w, stake)
    ensures Sum(w.pools, ShareIn(w, s, stake)) <= RateOf(s)(stake)
    ensures forall k :: 0 <= k < |w.pools| ==> 0 <= ShareIn(w, s, stake)(w.pools[k])
  {
    var i :| 0 <= i < |w.campaigns| && w.campaigns[i].id == stake.campaign && w.campaigns[i].advertiser == stake.advertiser;
    var c := w.campaigns[i];
    assert Sponsored(w, c);
    forall k | 0 <= k < |w.pools| ensures stake.campaign in PoolCampaigns(w, w.pools[k].id) <==> c.pool == Some(w.pools[k].id) {
      InOwnPool(w, c, w.pools[k].id);
    }
    if c.pool.Some? {
      var k :| 0 <= k < |w.pools| && w.pools[k].id == c.pool.value && w.pools[k].sponsor == c.advertiser;
      hide PoolCampaigns;
      SumPoint(w.pools, k, (p: Pool) => 0, ShareIn(w, s, stake));
      SumZero(w.pools, (p: Pool) => 0);
    } else {
      SumZero(w.pools, ShareIn(w, s, stake));
    }
  }

  /** If no open pool's spending falls by more than x, the reserve grows by at most the sum of x. */
  lemma {:induction false} ReserveMoves(w: World, w': World, s: Id, x: Pool -> int)
    requires w'.pools == w.pools
    requires forall k :: 0 <= k < |w.pools| ==> 0 <= x(w.pools[k])
    requires forall k :: 0 <= k < |w.pools| && Backs(w, w.pools[k], s) ==>
               PoolSpent(w, w.pools[k].id) - x(w.pools[k]) <= PoolSpent(w', w.pools[k].id)
    ensures PoolReserve(w', s) <= PoolReserve(w, s) + Sum(w.pools, x)
  {
    var sum := (p: Pool) => ReserveWeight(w, s)(p) + x(p);
    SumAdd(w.pools, ReserveWeight(w, s), x, sum);
    hide PoolSpent;
    SumMono(w.pools, ReserveWeight(w', s), sum);
  }

  lemma {:induction false} ReserveFrame(w: World, w': World, s: Id)
    requires w'.pools == w.pools && w'.campaigns == w.campaigns
    requires w'.deliveries == w.deliveries && w'.impressions == w.impressions && w'.now == w.now
    ensures PoolReserve(w', s) == PoolReserve(w, s)
  {
    forall id ensures PoolSpent(w', id) == PoolSpent(w, id) {}
    hide PoolSpent;
    SumSame(w.pools, ReserveWeight(w', s), ReserveWeight(w, s));
  }

  /* ---------- serving ---------- */

  /** Serving takes from the reserve of the pool exactly what it commits from the sponsor's balance. */
  lemma {:induction false} SlackServe(cfg: Config, w: World, p: Id, n: Id, coin: (Id, Id) -> bool, crash: bool, s: Id)
    requires Catalogue(w) && Offers(w) && Reports(w) && 0 <= Slack(w, s)
    ensures 0 <= Slack(Serve(cfg, w, p, n, coin, crash), s)
  {
    var made := ServeAffords(cfg, w, p, n, coin, crash);
    var w' := Serve(cfg, w, p, n, coin, crash);
    hide Serve, Catalogue, Offers, Reports, Slack, PoolSpent, ServedToday, Spendable, PoolReserve, Committed, PoolCampaigns, Keep, PoolOf;
    if made.None? {
      SlackFrame(w, w', s);
    } else {
      SlackServeMade(w, w', DeliveryFor(made.value, p, n, w.now), made.value.campaign, s);
    }
  }

  lemma {:induction false} ServeFrees(w: World, w': World, d: Delivery, s: Id)
    requires w'.journal == w.journal && w'.impressions == w.impressions
    requires w'.now == w.now && Live(d, w.now)
    requires w'.deliveries == Keep(w.deliveries + [d], (x: Delivery) => KeptByGc(x, w.now))
    ensures Free(w', s) == Free(w, s) - (if d.advertiser == s then d.rate else 0)
  {
    ServeCommits(w, w', d, RateOf(s));
  }

  /** Serving spends the rate on the campaign's own pool and on no other. */
  lemma {:induction false} ServeSpends(w: World, w': World, d: Delivery, c: Campaign)
    requires Catalogue(w) && c in w.campaigns && d.campaign == c.id
    requires w'.now == w.now && Live(d, w.now) && w'.campaigns == w.campaigns
    requires w'.deliveries == Keep(w.deliveries + [d], (x: Delivery) => KeptByGc(x, w.now)) && w'.impressions == w.impressions
    ensures forall id :: PoolSpent(w', id) == PoolSpent(w, id) + (if c.pool == Some(id) then d.rate else 0)
  {
    forall id ensures PoolSpent(w', id) == PoolSpent(w, id) + (if c.pool == Some(id) then d.rate else 0) {
      InOwnPool(w, c, id);
      ServeCommits(w, w', d, RateIn(PoolCampaigns(w, id)));
      hide Keep, Catalogue;
    }
  }

  lemma {:induction false} ServeReserve(w: World, w': World, d: Delivery, c: Campaign, s: Id)
    requires Catalogue(w) && c in w.campaigns && d.campaign == c.id && d.advertiser == c.advertiser && 0 <= d.rate
    requires w'.now == w.now && Live(d, w.now) && w'.campaigns == w.campaigns && w'.pools == w.pools
    requires w'.deliveries == Keep(w.deliveries + [d], (x: Delivery) => KeptByGc(x, w.now)) && w'.impressions == w.impressions
    requires c.pool.Some? ==> PoolAt(w, c.pool.value) >= 0 && w.pools[PoolAt(w, c.pool.value)].open
                              && PoolSpent(w, c.pool.value) + d.rate <= w.pools[PoolAt(w, c.pool.value)].budget
    ensures c.pool.None? || c.advertiser != s ==> PoolReserve(w', s) <= PoolReserve(w, s)
    ensures c.pool.Some? && c.advertiser == s ==> PoolReserve(w', s) == PoolReserve(w, s) - d.rate
  {
    ServeSpends(w, w', d, c);
    hide PoolSpent, Keep, Live;
    SumMono(w.pools, ReserveWeight(w', s), ReserveWeight(w, s));
    if c.pool.Some? && c.advertiser == s {
      ReserveOfOne(w, w', d.rate, c, s);
    }
  }

  lemma {:induction false} ReserveOfOne(w: World, w': World, rate: int, c: Campaign, s: Id)
    requires Catalogue(w) && c in w.campaigns && c.pool.Some? && c.advertiser == s && w'.pools == w.pools && 0 <= rate
    requires forall id :: PoolSpent(w', id) == PoolSpent(w, id) + (if c.pool == Some(id) then rate else 0)
    requires PoolAt(w, c.pool.value) >= 0 && w.pools[PoolAt(w, c.pool.value)].open
             && PoolSpent(w, c.pool.value) + rate <= w.pools[PoolAt(w, c.pool.value)].budget
    ensures PoolReserve(w', s) == PoolReserve(w, s) - rate
  {
    var i :| 0 <= i < |w.campaigns| && w.campaigns[i] == c;
    assert Sponsored(w, w.campaigns[i]);
    hide PoolSpent;
    SumPoint(w.pools, PoolAt(w, c.pool.value), ReserveWeight(w, s), ReserveWeight(w', s));
  }

  lemma {:induction false} SlackServeMade(w: World, w': World, d: Delivery, c: Campaign, s: Id)
    requires Catalogue(w) && Offers(w) && Reports(w) && 0 <= Slack(w, s)
    requires c in w.campaigns && d.campaign == c.id && d.advertiser == c.advertiser && 0 <= d.rate
    requires w' == w.(deliveries := w'.deliveries, served := w'.served, procs := w'.procs,
                      returned := w'.returned, stages := w'.stages)
    requires Live(d, w.now) && w'.deliveries == Keep(w.deliveries + [d], (x: Delivery) => KeptByGc(x, w.now))
    requires c.pool.None? ==> d.rate <= Max0(Spendable(w, c.advertiser) - PoolReserve(w, c.advertiser))
    requires c.pool.Some? ==> PoolAt(w, c.pool.value) >= 0 && w.pools[PoolAt(w, c.pool.value)].open
                              && PoolSpent(w, c.pool.value) + d.rate <= w.pools[PoolAt(w, c.pool.value)].budget
    ensures 0 <= Slack(w', s)
  {
    ServeFrees(w, w', d, s);
    SpendableIsFree(w, s);
    ReserveIsNotNegative(w, s);
    ServeReserve(w, w', d, c, s);
    hide Spendable, PoolReserve, Free, Catalogue, Offers, Reports, PoolSpent, Keep;
  }

  /* ---------- reporting ---------- */

  lemma {:induction false} IngestSpends(cfg: Config, w: World, p: Id, ev: Report, crash: IngestCrash)
    requires Offers(w) && Reports(w)
    ensures forall id :: PoolSpent(Ingest(cfg, w, p, ev, crash), id) ==
                         PoolSpent(w, id) - ValueOf(Dropped(cfg, w, p, ev, crash), RateIn(PoolCampaigns(w, id)))
  {
    var w' := Ingest(cfg, w, p, ev, crash);
    forall id ensures PoolSpent(w', id) == PoolSpent(w, id) - ValueOf(Dropped(cfg, w, p, ev, crash), RateIn(PoolCampaigns(w, id))) {
      RatesWeigh(w, id, PoolCampaigns(w, id));
      IngestCommits(cfg, w, p, ev, crash, RateIn(PoolCampaigns(w, id)), 0);
      hide Ingest, Dropped;
    }
  }

  lemma {:induction false} SlackIngest(cfg: Config, w: World, p: Id, ev: Report, crash: IngestCrash, s: Id)
    requires Catalogue(w) && Offers(w) && Reports(w)
    ensures Slack(w, s) <= Slack(Ingest(cfg, w, p, ev, crash), s)
  {
    var w' := Ingest(cfg, w, p, ev, crash);
    var lost := Dropped(cfg, w, p, ev, crash);
    RatesWeigh(w, s, {});
    IngestCommits(cfg, w, p, ev, crash, RateOf(s), 0);
    IngestSpends(cfg, w, p, ev, crash);
    hide Ingest, PoolSpent, Dropped, Catalogue, Reports;
    if lost.Some? {
      var k :| 0 <= k < |w.deliveries| && lost.value == OfDelivery(w.deliveries[k]);
      DeliveryIsFamiliar(w, k);
    }
    hide Offers;
    LostRefills(w, w', s, lost);
  }

  /** A stake that no longer counts as spent refills a sponsor's pools by no more than his share of it. */
  lemma {:induction false} LostRefills(w: World, w': World, s: Id, lost: Option<Stake>)
    requires Catalogue(w) && w'.pools == w.pools && (lost.Some? ==> Familiar(w, lost.value))
    requires forall id :: PoolSpent(w', id) == PoolSpent(w, id) - ValueOf(lost, RateIn(PoolCampaigns(w, id)))
    ensures PoolReserve(w', s) <= PoolReserve(w, s) + ValueOf(lost, RateOf(s))
  {
    hide PoolSpent, Catalogue;
    if lost.Some? {
      OnePool(w, s, lost.value);
      ReserveMoves(w, w', s, ShareIn(w, s, lost.value));
    } else {
      SumZero(w.pools, (q: Pool) => 0);
      ReserveMoves(w, w', s, (q: Pool) => 0);
    }
  }

  /* ---------- verifying ---------- */

  /** The event rejects a pending impression under whose id the ledger already holds a debit. */
  ghost predicate RejectsBilled(cfg: Config, w: World, e: Event)
  {
    && e.Ad? && e.ad.DoVerify?
    && e.ad.k < |w.impressions| && w.impressions[e.ad.k].state == Pending
    && Judged(cfg, w, e.ad.k, e.ad.oracle).Deny? && HasId(w.journal, ShownId(w.impressions[e.ad.k].id))
  }

  function RaiseValue(w: World, s: Id, stake: Stake, p: Pool): int
  {
    if Backs(w, p, s) then
      Max0(p.budget - PoolSpent(w, p.id) + RateIn(PoolCampaigns(w, p.id))(stake)) - Max0(p.budget - PoolSpent(w, p.id))
    else 0
  }

  /** By how much a sponsor's reserve grows when a stake no longer counts as spent. */
  function Raise(w: World, s: Id, stake: Stake): int { Sum(w.pools, (p: Pool) => RaiseValue(w, s, stake, p)) }

  lemma {:induction false} VerifySpends(cfg: Config, w: World, k: nat, o: Oracle, crash: bool, s: Id)
    requires Catalogue(w) && Offers(w) && Reports(w)
    ensures var w' := Verify(cfg, w, k, o, crash);
            var denied := k < |w.impressions| && w.impressions[k].state == Pending && Judged(cfg, w, k, o).Deny?;
            forall id :: PoolSpent(w', id) ==
                         PoolSpent(w, id) - (if denied then RateIn(PoolCampaigns(w, id))(OfImpression(w.impressions[k])) else 0)
  {
    var w' := Verify(cfg, w, k, o, crash);
    forall id ensures PoolSpent(w', id) == PoolSpent(w, id) -
      (if k < |w.impressions| && w.impressions[k].state == Pending && Judged(cfg, w, k, o).Deny?
       then RateIn(PoolCampaigns(w, id))(OfImpression(w.impressions[k])) else 0) {
      RatesWeigh(w, s, PoolCampaigns(w, id));
      var billed, denied := VerifyCommits(cfg, w, k, o, crash, RateIn(PoolCampaigns(w, id)), 0);
      hide Verify, Judged;
    }
  }

  lemma {:induction false} SlackVerify(cfg: Config, w: World, k: nat, o: Oracle, crash: bool, s: Id)
    requires Catalogue(w) && Offers(w) && Reports(w)
    requires !RejectsBilled(cfg, w, Ad(DoVerify(k, o, crash)))
    ensures Slack(w, s) <= Slack(Verify(cfg, w, k, o, crash), s)
  {
    var w' := Verify(cfg, w, k, o, crash);
    FreeVerify(cfg, w, k, o, crash, s);
    VerifySpends(cfg, w, k, o, crash, s);
    RatesWeigh(w, s, {});
    var billed, denied := VerifyCommits(cfg, w, k, o, crash, RateOf(s), 0);
    hide Verify, Judged, PoolSpent;
    if denied {
      var stake := OfImpression(w.impressions[k]);
      ImpressionIsFamiliar(w, k);
      OnePool(w, s, stake);
      ReserveMoves(w, w', s, ShareIn(w, s, stake));
    } else {
      SumZero(w.pools, (q: Pool) => 0);
      ReserveMoves(w, w', s, (q: Pool) => 0);
    }
  }

  lemma {:induction false} FreeRejectsBilled(cfg: Config, w: World, k: nat, o: Oracle, crash: bool, s: Id)
    requires RejectsBilled(cfg, w, Ad(DoVerify(k, o, crash)))
    ensures Free(Verify(cfg, w, k, o, crash), s) == Free(w, s)
  {
    var posted, decided := VerifyCases(cfg, w, k, o, crash);
    hide Verify, Judged;
    DecideCommits(w.journal, w.impressions, k, decided.value, RateOf(s), 0);
  }

  /** The exception: nothing is freed, because the debit stands, while the pool gets its rate back. */
  lemma {:induction false} SlackRejectsBilled(cfg: Config, w: World, k: nat, o: Oracle, crash: bool, s: Id)
    requires Catalogue(w) && Offers(w) && Reports(w)
    requires RejectsBilled(cfg, w, Ad(DoVerify(k, o, crash)))
    ensures Slack(Verify(cfg, w, k, o, crash), s) == Slack(w, s) - Raise(w, s, OfImpression(w.impressions[k]))
  {
    var w' := Verify(cfg, w, k, o, crash);
    var stake := OfImpression(w.impressions[k]);
    VerifySpends(cfg, w, k, o, crash, s);
    FreeRejectsBilled(cfg, w, k, o, crash, s);
    hide Verify, Judged, PoolSpent, Free, Catalogue, Offers, Reports;
    RejectedRefills(w, w', s, stake);
  }

  lemma {:induction false} RejectedRefills(w: World, w': World, s: Id, stake: Stake)
    requires w'.pools == w.pools
    requires forall id :: PoolSpent(w', id) == PoolSpent(w, id) - RateIn(PoolCampaigns(w, id))(stake)
    ensures PoolReserve(w', s) == PoolReserve(w, s) + Raise(w, s, stake)
  {
    hide PoolSpent;
    SumAdd(w.pools, ReserveWeight(w, s), (p: Pool) => RaiseValue(w, s, stake, p), ReserveWeight(w', s));
  }

  /* ---------- time ---------- */

  function DropSum(w: World, ms: nat, ds: seq<Delivery>, v: Stake -> int): int
  {
    Sum(ds, LiveWeight(w.now, v)) - Sum(ds, LiveWeight(w.now + ms, v))
  }

  function PoolDrop(w: World, ms: nat, ds: seq<Delivery>, s: Id, p: Pool): int
  {
    if Backs(w, p, s) then DropSum(w, ms, ds, RateIn(PoolCampaigns(w, p.id))) else 0
  }

  ghost predicate AllFamiliar(w: World, ds: seq<Delivery>) { forall i :: 0 <= i < |ds| ==> Familiar(w, OfDelivery(ds[i])) }

  /** What expires leaves the sponsor's reservations at least as much as it refills his pools. */
  lemma {:induction false} ExpiryFreesEnough(w: World, ms: nat, ds: seq<Delivery>, s: Id)
    requires Catalogue(w) && AllFamiliar(w, ds)
    ensures Sum(w.pools, (p: Pool) => PoolDrop(w, ms, ds, s, p)) <= DropSum(w, ms, ds, RateOf(s))
    ensures forall k :: 0 <= k < |w.pools| ==> 0 <= PoolDrop(w, ms, ds, s, w.pools[k])
  {
    if |ds| == 0 {
      SumZero(w.pools, (p: Pool) => PoolDrop(w, ms, ds, s, p));
    } else {
      var front, d := ds[..|ds| - 1], ds[|ds| - 1];
      ExpiryFreesEnough(w, ms, front, s);
      OnePool(w, s, OfDelivery(d));
      if Live(d, w.now) && !Live(d, w.now + ms) {
        SumAdd(w.pools, (p: Pool) => PoolDrop(w, ms, front, s, p), ShareIn(w, s, OfDelivery(d)), (p: Pool) => PoolDrop(w, ms, ds, s, p));
      } else {
        SumSame(w.pools, (p: Pool) => PoolDrop(w, ms, front, s, p), (p: Pool) => PoolDrop(w, ms, ds, s, p));
      }
    }
  }

  lemma {:induction false} SlackTick(w: World, ms: nat, s: Id)
    requires Catalogue(w) && Offers(w) && Reports(w)
    ensures Slack(w, s) <= Slack(w.(now := w.now + ms), s)
  {
    var w' := w.(now := w.now + ms);
    forall k | 0 <= k < |w.deliveries| ensures Familiar(w, OfDelivery(w.deliveries[k])) {
      DeliveryIsFamiliar(w, k);
    }
    ExpiryFreesEnough(w, ms, w.deliveries, s);
    ReserveMoves(w, w', s, (p: Pool) => PoolDrop(w, ms, w.deliveries, s, p));
  }

  /* ---------- payments ---------- */

  /** A withdrawal takes only what is left above the reserve. */
  lemma {:induction false} SlackPay(cfg: Config, w: World, e: PayEvent, s: Id)
    requires Offers(w) && Reports(w) && Payouts(w) && 0 <= Slack(w, s)
    ensures 0 <= Slack(PayStep(cfg, w, e), s)
  {
    var p := PayWrites(cfg, w, e);
    var w' := PayStep(cfg, w, e);
    hide PayStep;
    ReserveFrame(w, w', s);
    if p.Some? {
      FreePost(w, w', p.value, s);
      WrittenAffords(w, w', p.value, Advertiser(s));
    }
  }

  /* ---------- all of it ---------- */

  /** Events that promise new money to a pool, and the clearing of old records. */
  predicate Repledges(w: World, e: Event)
  {
    || (e.Ad? && e.ad.DoVacuum?)
    || (e.Market? && e.market.DoNewPool?)
    || (e.Market? && e.market.DoSetBudget? && e.market.k < |w.pools| && w.pools[e.market.k].open
        && e.market.budget > w.pools[e.market.k].budget)
  }

  lemma {:induction false} SlackMarket(w: World, e: MarketEvent, s: Id)
    requires Catalogue(w) && Offers(w) && Reports(w) && !Repledges(w, Market(e))
    ensures Slack(w, s) <= Slack(MarketStep(w, e), s)
  {
    var w' := MarketStep(w, e);
    ReserveMarket(w, e, s);
    hide MarketStep, PoolReserve;
    assert Free(w', s) == Free(w, s);
  }

  lemma {:induction false} ReserveMarket(w: World, e: MarketEvent, s: Id)
    requires Offers(w) && Reports(w) && !Repledges(w, Market(e))
    ensures PoolReserve(MarketStep(w, e), s) <= PoolReserve(w, s)
  {
    var w' := MarketStep(w, e);
    forall id ensures PoolSpent(w', id) == PoolSpent(w, id) {
      SpentMarket(w, e, id);
    }
    PoolsShrink(w, e);
    hide MarketStep, PoolSpent, Offers, Reports;
    if w'.pools == w.pools {
      SumMono(w.pools, ReserveWeight(w', s), ReserveWeight(w, s));
    } else {
      ReserveShrinks(w, w', e.k, s);
    }
  }

  /** The pool is closed, or its budget lowered. */
  predicate Shrinks(p: Pool, q: Pool)
  {
    q.id == p.id && q.sponsor == p.sponsor && (q.open ==> p.open) && q.budget <= p.budget
  }

  lemma {:induction false} PoolsShrink(w: World, e: MarketEvent)
    requires !Repledges(w, Market(e))
    ensures var w' := MarketStep(w, e);
            w'.pools == w.pools
            || ((e.DoClosePool? || e.DoSetBudget?) && e.k < |w.pools|
                && exists p :: w'.pools == w.pools[e.k := p] && Shrinks(w.pools[e.k], p))
  {
    hide NewCampaign, NewProject, SetStatus, Join;
    if (e.DoClosePool? || e.DoSetBudget?) && e.k < |w.pools| {
      var p := MarketStep(w, e).pools[e.k];
      assert MarketStep(w, e).pools == w.pools[e.k := p] && Shrinks(w.pools[e.k], p);
    }
  }

  lemma {:induction false} ReserveShrinks(w: World, w': World, k: nat, s: Id)
    requires k < |w.pools| && exists p :: w'.pools == w.pools[k := p] && Shrinks(w.pools[k], p)
    requires forall id :: PoolSpent(w', id) == PoolSpent(w, id)
    ensures PoolReserve(w', s) <= PoolReserve(w, s)
  {
    hide PoolSpent;
    var p :| w'.pools == w.pools[k := p] && Shrinks(w.pools[k], p);
    SumMono(w.pools, ReserveWeight(w', s), ReserveWeight(w, s));
    SumUpdate(w.pools, k, p, ReserveWeight(w', s));
  }

  lemma {:induction false} SlackAd(cfg: Config, w: World, e: AdEvent, s: Id)
    requires Good(w) && 0 <= Slack(w, s) && !e.DoVacuum? && !RejectsBilled(cfg, w, Ad(e))
    ensures 0 <= Slack(AdStep(cfg, w, e), s)
  {
    hide Serve, Ingest, Verify, Slack;
    match e {
      case DoServe(p, n, coin, crash) => SlackServe(cfg, w, p, n, coin, crash, s);
      case DoIngest(p, ev, crash) => SlackIngest(cfg, w, p, ev, crash, s);
      case DoVerify(k, o, crash) => SlackVerify(cfg, w, k, o, crash, s);
      case DoRestart => SlackFrame(w, Reboot(w), s);
    }
  }

  lemma {:induction false} SlackFrame(w: World, w': World, s: Id)
    requires w'.pools == w.pools && w'.campaigns == w.campaigns && w'.journal == w.journal
    requires w'.deliveries == w.deliveries && w'.impressions == w.impressions && w'.now == w.now
    ensures Slack(w', s) == Slack(w, s)
  {
    ReserveFrame(w, w', s);
  }

  /**
    Once covered, always covered: of all events that do not promise new money, only the rejection of a
    billed impression can break the cover, and it does exactly when what it refills exceeds the slack.
    */
  lemma {:induction false} CoverStep(cfg: Config, w: World, e: Event, s: Id)
    requires Good(w) && 0 <= Slack(w, s) && !Repledges(w, e)
    ensures 0 <= Slack(Step(cfg, w, e), s) <==>
            (RejectsBilled(cfg, w, e) ==> Raise(w, s, OfImpression(w.impressions[e.ad.k])) <= Slack(w, s))
  {
    hide AdStep, PayStep, MarketStep, Slack, Raise, RejectsBilled;
    match e {
      case Ad(a) =>
        if RejectsBilled(cfg, w, e) {
          CoverRejects(cfg, w, a, s);
        } else {
          SlackAd(cfg, w, a, s);
        }
      case Pay(p) => SlackPay(cfg, w, p, s);
      case Tick(ms) => SlackTick(w, ms, s);
      case Market(m) => SlackMarket(w, m, s);
    }
    NotBilledOtherwise(cfg, w, e);
  }

  lemma {:induction false} NotBilledOtherwise(cfg: Config, w: World, e: Event)
    ensures RejectsBilled(cfg, w, e) ==> e.Ad? && e.ad.DoVerify?
  {}

  lemma {:induction false} CoverRejects(cfg: Config, w: World, e: AdEvent, s: Id)
    requires Good(w) && RejectsBilled(cfg, w, Ad(e))
    ensures Slack(AdStep(cfg, w, e), s) == Slack(w, s) - Raise(w, s, OfImpression(w.impressions[e.k]))
  {
    SlackRejectsBilled(cfg, w, e.k, e.oracle, e.crash, s);
  }

  ghost predicate KeepsPledge(cfg: Config, w: World, e: Event) { !Repledges(w, e) && !RejectsBilled(cfg, w, e) }

  /** The run from w on promises no new money and rejects nothing that was billed. */
  ghost predicate KeepsPledges(cfg: Config, w: World, events: seq<Event>)
  {
    forall n :: 0 <= n < |events| ==> KeepsPledge(cfg, Run(cfg, w, events[..n]), events[n])
  }

  lemma {:induction false} PledgesOfPrefix(cfg: Config, w: World, events: seq<Event>)
    requires KeepsPledges(cfg, w, events) && |events| > 0
    ensures var before := events[..|events| - 1];
            KeepsPledges(cfg, w, before) && KeepsPledge(cfg, Run(cfg, w, before), events[|before|])
  {
    var before := events[..|events| - 1];
    hide KeepsPledge, Run;
    forall n | 0 <= n < |before| ensures KeepsPledge(cfg, Run(cfg, w, before[..n]), before[n]) {
      assert before[..n] == events[..n];
    }
  }

  lemma {:induction false} CoverRuns(cfg: Config, w: World, events: seq<Event>, s: Id)
    requires Good(w) && 0 <= Slack(w, s) && KeepsPledges(cfg, w, events)
    ensures Good(Run(cfg, w, events)) && 0 <= Slack(Run(cfg, w, events), s)
  {
    if |events| > 0 {
      var before := events[..|events| - 1];
      PledgesOfPrefix(cfg, w, events);
      CoverRuns(cfg, w, before, s);
      hide Step, RejectsBilled, Raise, Slack, Good, Repledges;
      CoverStep(cfg, Run(cfg, w, before), events[|events| - 1], s);
      GoodStep(cfg, Run(cfg, w, before), events[|events| - 1]);
    }
  }

  /**
    From any reachable world in which `spendable` covers `poolReserve`, through any run that keeps its
    pledges: the sponsor's free money covers it at the end, and so does `spendable` itself unless a
    crash has left some impression pending although billed.
    */
  lemma {:induction false} CoverLasts(cfg: Config, w: World, events: seq<Event>, s: Id)
    requires Good(w) && PoolReserve(w, s) <= Spendable(w, s) && KeepsPledges(cfg, w, events)
    ensures var w' := Run(cfg, w, events);
            && Good(w') && PoolReserve(w', s) <= Free(w', s)
            && ((forall k :: 0 <= k < |w'.impressions| && w'.impressions[k].state == Pending ==>
                   !HasId(w'.journal, ShownId(w'.impressions[k].id))) ==> PoolReserve(w', s) <= Spendable(w', s))
  {
    var w' := Run(cfg, w, events);
    assert 0 <= Free(w, s);
    SpendableIsFree(w, s);
    hide Run, KeepsPledges, Spendable, PoolReserve, Free;
    CoverRuns(cfg, w, events, s);
    SpendableIsFree(w', s);
    ReserveIsNotNegative(w', s);
  }
}
