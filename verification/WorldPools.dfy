/**
  Sponsor pools: a pool's campaigns stay within its budget, its members within their daily cap, and
  the money a sponsor set aside for open pools stays there.
  */
module WorldPools {
  import opened Common
  import opened Sums
  import opened Selector
  import opened Serving
  import opened World
  import opened WorldShape
  import opened Commitments
  import opened WorldMoney
  import opened WorldAudit
  import opened WorldBlocks

  /* ---------- which stakes a pool counts ---------- */

  /** A campaign is in its own pool and in no other. */
  lemma {:induction false} InOwnPool(w: World, c: Campaign, pool: Id)
    requires Catalogue(w) && c in w.campaigns
    ensures c.id in PoolCampaigns(w, pool) <==> c.pool == Some(pool)
  {
    forall d | d in w.campaigns && d.id == c.id ensures d == c {
    }
  }

  /* ---------- budgets ---------- */

  ghost predicate WithinBudget(w: World, p: Pool) { PoolSpent(w, p.id) <= p.budget }

  ghost predicate Budgets(w: World)
  {
    forall k {:trigger w.pools[k]} :: 0 <= k < |w.pools| ==> WithinBudget(w, w.pools[k])
  }

  /** The event sets an open pool's budget below what it has spent. */
  ghost predicate Overcuts(w: World, e: Event)
  {
    e.Market? && e.market.DoSetBudget? && e.market.k < |w.pools| && w.pools[e.market.k].open
    && e.market.budget < PoolSpent(w, w.pools[e.market.k].id)
  }

  /** Serving charges a pool only what its budget has left. */
  lemma {:induction false} SpentServe(cfg: Config, w: World, p: Id, n: Id, coin: (Id, Id) -> bool, crash: bool, pool: Pool)
    requires Catalogue(w) && Offers(w) && Reports(w) && pool in w.pools && WithinBudget(w, pool)
    ensures WithinBudget(Serve(cfg, w, p, n, coin, crash), pool)
  {
    var made := ServeAffords(cfg, w, p, n, coin, crash);
    var w' := Serve(cfg, w, p, n, coin, crash);
    hide Serve, ServedToday;
    if made.Some? {
      var d := DeliveryFor(made.value, p, n, w.now);
      ServeCommits(w, w', d, RateIn(PoolCampaigns(w, pool.id)));
      InOwnPool(w, made.value.campaign, pool.id);
      if made.value.campaign.pool == Some(pool.id) {
        PoolFound(w, pool);
      }
    }
  }

  lemma {:induction false} PoolFound(w: World, pool: Pool)
    requires Catalogue(w) && pool in w.pools
    ensures PoolAt(w, pool.id) >= 0 && w.pools[PoolAt(w, pool.id)] == pool
  {
    var i :| 0 <= i < |w.pools| && w.pools[i] == pool;
    assert w.pools[i].id == pool.id;
  }

  /** No other step of the ad machine raises what a weighting charges. */
  lemma {:induction false} ChargedAd(cfg: Config, w: World, e: AdEvent, v: Stake -> int, since: int)
    requires Offers(w) && Reports(w) && Weighs(w, v) && since <= w.now && !e.DoServe?
    ensures Charged(AdStep(cfg, w, e), v, since) <= Charged(w, v, since)
  {
    hide Serve, Ingest, Verify, Vacuum;
    match e {
      case DoIngest(p, ev, crash) => IngestCommits(cfg, w, p, ev, crash, v, since);
      case DoVerify(k, o, crash) => var billed, denied := VerifyCommits(cfg, w, k, o, crash, v, since);
      case DoRestart =>
      case DoVacuum(before) =>
        VacuumCommits(w, before, v);
        VacuumCases(w, before);
        SumKeep(w.impressions, (i: Impression) => i.state == Pending || i.serverTs >= before, CountedWeight(v, since));
    }
  }

  lemma {:induction false} BudgetAd(cfg: Config, w: World, e: AdEvent, pool: Pool)
    requires Catalogue(w) && Offers(w) && Reports(w) && pool in w.pools && WithinBudget(w, pool)
    ensures WithinBudget(AdStep(cfg, w, e), pool)
  {
    if e.DoServe? {
      SpentServe(cfg, w, e.publisher, e.nonce, e.coin, e.crash, pool);
    } else {
      RatesWeigh(w, pool.id, PoolCampaigns(w, pool.id));
      ChargedAd(cfg, w, e, RateIn(PoolCampaigns(w, pool.id)), 0);
      hide AdStep;
    }
  }

  /** Campaigns that joined a pool since are new, so nothing was ever spent on them. */
  lemma {:induction false} NewcomersCostNothing(w: World, w': World, ids: set<Id>, ids': set<Id>)
    requires Offers(w) && Reports(w)
    requires ids <= ids' && forall id :: id in ids' - ids ==> !KnownCampaign(w, id)
    requires w'.deliveries == w.deliveries && w'.impressions == w.impressions && w'.now == w.now
    ensures SpentOn(w', ids') == SpentOn(w, ids)
    ensures forall p, since :: Charged(w', OneFor(p, ids'), since) == Charged(w, OneFor(p, ids), since)
  {
    forall k | 0 <= k < |w.deliveries| ensures w.deliveries[k].campaign in ids' <==> w.deliveries[k].campaign in ids {
      assert Registered(w, w.deliveries[k]) && GoodOffer(w.campaigns, w.deliveries[k].nonce, w.served[w.deliveries[k].nonce]);
      KnownHere(w, w.deliveries[k]);
    }
    forall k | 0 <= k < |w.impressions| && w.impressions[k].state != Rejected
      ensures w.impressions[k].campaign in ids' <==> w.impressions[k].campaign in ids {
      assert GoodReport(w, w.impressions[k]) && GoodOffer(w.campaigns, w.impressions[k].nonce, w.served[w.impressions[k].nonce]);
      KnownHere(w, w.served[w.impressions[k].nonce]);
    }
    SumSame(w.deliveries, LiveWeight(w.now, RateIn(ids')), LiveWeight(w.now, RateIn(ids)));
    SumSame(w.impressions, CountedWeight(RateIn(ids'), 0), CountedWeight(RateIn(ids), 0));
    forall p, since ensures Charged(w', OneFor(p, ids'), since) == Charged(w, OneFor(p, ids), since) {
      SumSame(w.deliveries, LiveWeight(w.now, OneFor(p, ids')), LiveWeight(w.now, OneFor(p, ids)));
      SumSame(w.impressions, CountedWeight(OneFor(p, ids'), since), CountedWeight(OneFor(p, ids), since));
    }
  }

  lemma {:induction false} KnownHere(w: World, d: Delivery)
    requires Known(w.campaigns, d)
    ensures KnownCampaign(w, d.campaign)
  {
    var i :| 0 <= i < |w.campaigns| && w.campaigns[i].id == d.campaign && w.campaigns[i].advertiser == d.advertiser;
    assert w.campaigns[i] in w.campaigns;
  }

  /** A market event adds at most one new campaign to a pool. */
  lemma {:induction false} PoolGrows(w: World, e: MarketEvent, pool: Id)
    ensures var ids, ids' := PoolCampaigns(w, pool), PoolCampaigns(MarketStep(w, e), pool);
            ids <= ids' && forall id :: id in ids' - ids ==> !KnownCampaign(w, id)
  {
    var w' := MarketStep(w, e);
    MarketPersists(w, e);
    forall c | c in w.campaigns && c.pool == Some(pool) ensures c.id in PoolCampaigns(w', pool) {
      var i :| 0 <= i < |w.campaigns| && w.campaigns[i] == c;
      assert SameCampaign(w.campaigns[i], w'.campaigns[i]);
      assert w'.campaigns[i] in w'.campaigns;
    }
    forall c | c in w'.campaigns && c.pool == Some(pool)
      ensures c.id in PoolCampaigns(w, pool) || !KnownCampaign(w, c.id) {
      var i :| 0 <= i < |w'.campaigns| && w'.campaigns[i] == c;
      hide MarketStep;
      CampaignOrigins(w, e, i);
      if i < |w.campaigns| {
        assert w.campaigns[i] in w.campaigns;
      }
    }
  }

  lemma {:induction false} SpentMarket(w: World, e: MarketEvent, pool: Id)
    requires Offers(w) && Reports(w)
    ensures PoolSpent(MarketStep(w, e), pool) == PoolSpent(w, pool)
  {
    var w' := MarketStep(w, e);
    PoolGrows(w, e, pool);
    hide MarketStep;
    NewcomersCostNothing(w, w', PoolCampaigns(w, pool), PoolCampaigns(w', pool));
  }

  /** A pool that does not exist yet has spent nothing. */
  lemma {:induction false} UnknownPool(w: World, id: Id)
    requires Catalogue(w) && PoolAt(w, id) < 0
    ensures PoolSpent(w, id) == 0
  {
    assert PoolCampaigns(w, id) == {} by {
      forall c | c in w.campaigns ensures c.pool != Some(id) {
        var i :| 0 <= i < |w.campaigns| && w.campaigns[i] == c;
        assert Sponsored(w, w.campaigns[i]);
      }
    }
    SumZero(w.deliveries, LiveWeight(w.now, RateIn({})));
    SumZero(w.impressions, CountedWeight(RateIn({}), 0));
  }

  lemma {:induction false} BudgetMarket(w: World, e: MarketEvent)
    requires Catalogue(w) && Offers(w) && Reports(w) && Budgets(w)
    ensures Budgets(MarketStep(w, e)) <==> !Overcuts(w, Market(e))
  {
    var w' := MarketStep(w, e);
    if Overcuts(w, Market(e)) {
      SpentMarket(w, e, w.pools[e.k].id);
      hide PoolSpent;
      assert !WithinBudget(w', w'.pools[e.k]);
    } else {
      forall k | 0 <= k < |w'.pools| ensures WithinBudget(w', w'.pools[k]) {
        hide MarketStep, Overcuts;
        BudgetKept(w, e, k);
      }
    }
  }

  lemma {:induction false} BudgetKept(w: World, e: MarketEvent, k: nat)
    requires Catalogue(w) && Offers(w) && Reports(w) && Budgets(w)
    requires !Overcuts(w, Market(e)) && k < |MarketStep(w, e).pools|
    ensures WithinBudget(MarketStep(w, e), MarketStep(w, e).pools[k])
  {
    var w' := MarketStep(w, e);
    PoolOrigins(w, e, k);
    SpentMarket(w, e, w'.pools[k].id);
    hide MarketStep, PoolSpent, Catalogue, Offers, Reports, Overcuts;
    if k < |w.pools| {
      assert WithinBudget(w, w.pools[k]);
    } else {
      UnknownPool(w, w'.pools[k].id);
    }
  }

  /** Where the pools of the next world come from. */
  lemma {:induction false} PoolOrigins(w: World, e: MarketEvent, k: nat)
    requires !Overcuts(w, Market(e)) && k < |MarketStep(w, e).pools|
    ensures var p := MarketStep(w, e).pools[k];
            if k < |w.pools| then
              p.id == w.pools[k].id && p.cap == w.pools[k].cap && (p.budget == w.pools[k].budget || PoolSpent(w, p.id) <= p.budget)
            else PoolAt(w, p.id) < 0 && 0 <= p.budget
  {
    hide PoolSpent, PoolAt, NewCampaign, NewProject, SetStatus, Join;
  }

  lemma {:induction false} SpentTick(w: World, ms: nat, pool: Id)
    requires Offers(w) && Reports(w)
    ensures PoolSpent(w.(now := w.now + ms), pool) <= PoolSpent(w, pool)
  {
    RatesWeigh(w, pool, PoolCampaigns(w, pool));
    TickCommits(w, ms, RateIn(PoolCampaigns(w, pool)));
  }

  /**
    Whatever happens, spending on a pool's campaigns stays within its budget, unless and only unless
    the sponsor cuts the budget below what was already spent.
    */
  lemma {:induction false} BudgetStep(cfg: Config, w: World, e: Event)
    requires Good(w) && Budgets(w)
    ensures Budgets(Step(cfg, w, e)) <==> !Overcuts(w, e)
  {
    var w' := Step(cfg, w, e);
    if e.Market? {
      BudgetMarket(w, e.market);
    } else {
      hide Step, WithinBudget, Overcuts;
      forall k | 0 <= k < |w'.pools| ensures WithinBudget(w', w'.pools[k]) {
        BudgetOther(cfg, w, e, k);
      }
    }
    OvercutsByMarket(w, e);
  }

  lemma {:induction false} OvercutsByMarket(w: World, e: Event)
    ensures Overcuts(w, e) ==> e.Market?
  {}

  lemma {:induction false} BudgetOther(cfg: Config, w: World, e: Event, k: nat)
    requires Good(w) && Budgets(w) && !e.Market? && k < |Step(cfg, w, e).pools|
    ensures WithinBudget(Step(cfg, w, e), Step(cfg, w, e).pools[k])
  {
    hide AdStep, PayStep;
    assert WithinBudget(w, w.pools[k]);
    match e {
      case Ad(a) => BudgetAd(cfg, w, a, w.pools[k]);
      case Tick(ms) => SpentTick(w, ms, w.pools[k].id);
      case Pay(q) =>
    }
  }

  /** No event of the run cut a budget below what was spent when it happened. */
  ghost predicate NeverOvercut(cfg: Config, events: seq<Event>)
  {
    forall n :: 0 <= n < |events| ==> !Overcuts(Run(cfg, Empty(), events[..n]), events[n])
  }

  /** In every run that never overcuts, `spentOn` a pool's campaigns never exceeds its budget. */
  lemma {:induction false} PoolsKeepToBudget(cfg: Config, events: seq<Event>)
    requires NeverOvercut(cfg, events)
    ensures forall k :: 0 <= k < |Run(cfg, Empty(), events).pools| ==>
              var w := Run(cfg, Empty(), events); PoolSpent(w, w.pools[k].id) <= w.pools[k].budget
  {
    if |events| > 0 {
      var before := events[..|events| - 1];
      var w := Run(cfg, Empty(), before);
      forall n | 0 <= n < |before| ensures !Overcuts(Run(cfg, Empty(), before[..n]), before[n]) {
        assert before[..n] == events[..n];
      }
      PoolsKeepToBudget(cfg, before);
      Reachable(cfg, before);
      hide Step, PoolSpent, Overcuts;
      assert Budgets(w) by {
        forall k | 0 <= k < |w.pools| ensures WithinBudget(w, w.pools[k]) {}
      }
      BudgetStep(cfg, w, events[|events| - 1]);
      var w' := Step(cfg, w, events[|events| - 1]);
      forall k | 0 <= k < |w'.pools| ensures PoolSpent(w', w'.pools[k].id) <= w'.pools[k].budget {
        assert WithinBudget(w', w'.pools[k]);
      }
    }
  }

  /* ---------- the daily cap of a member ---------- */

  ghost predicate WithinCap(w: World, p: Pool)
  {
    forall publisher {:trigger ServedToday(w, publisher, PoolCampaigns(w, p.id))} ::
      ServedToday(w, publisher, PoolCampaigns(w, p.id)) <= p.cap
  }

  ghost predicate Caps(w: World)
  {
    forall k {:trigger w.pools[k]} :: 0 <= k < |w.pools| ==> WithinCap(w, w.pools[k])
  }

  lemma {:induction false} CapServe(cfg: Config, w: World, p: Id, n: Id, coin: (Id, Id) -> bool, crash: bool, pool: Pool)
    requires Catalogue(w) && Offers(w) && Reports(w) && pool in w.pools && WithinCap(w, pool)
    ensures WithinCap(Serve(cfg, w, p, n, coin, crash), pool)
  {
    forall q ensures ServedToday(Serve(cfg, w, p, n, coin, crash), q, PoolCampaigns(Serve(cfg, w, p, n, coin, crash), pool.id)) <= pool.cap {
      CapServeFor(cfg, w, p, n, coin, crash, pool, q);
    }
  }

  lemma {:induction false} CapServeFor(cfg: Config, w: World, p: Id, n: Id, coin: (Id, Id) -> bool, crash: bool, pool: Pool, q: Id)
    requires Catalogue(w) && Offers(w) && Reports(w) && pool in w.pools && WithinCap(w, pool)
    ensures var w' := Serve(cfg, w, p, n, coin, crash);
            ServedToday(w', q, PoolCampaigns(w', pool.id)) <= pool.cap
  {
    var made := ServeAffords(cfg, w, p, n, coin, crash);
    var w' := Serve(cfg, w, p, n, coin, crash);
    hide Serve, PoolSpent, PoolCampaigns, Catalogue, Offers, Reports;
    assert ServedToday(w, q, PoolCampaigns(w, pool.id)) <= pool.cap;
    if made.Some? {
      var d := DeliveryFor(made.value, p, n, w.now);
      ServeCommits(w, w', d, OneFor(q, PoolCampaigns(w, pool.id)));
      InOwnPool(w, made.value.campaign, pool.id);
      if made.value.campaign.pool == Some(pool.id) {
        PoolFound(w, pool);
      }
    }
  }

  lemma {:induction false} CapAd(cfg: Config, w: World, e: AdEvent, pool: Pool)
    requires Catalogue(w) && Offers(w) && Reports(w) && pool in w.pools && WithinCap(w, pool)
    ensures WithinCap(AdStep(cfg, w, e), pool)
  {
    if e.DoServe? {
      CapServe(cfg, w, e.publisher, e.nonce, e.coin, e.crash, pool);
    } else {
      var w' := AdStep(cfg, w, e);
      forall q ensures ServedToday(w', q, PoolCampaigns(w', pool.id)) <= pool.cap {
        assert ServedToday(w, q, PoolCampaigns(w, pool.id)) <= pool.cap;
        ChargedAd(cfg, w, e, OneFor(q, PoolCampaigns(w, pool.id)), DayStart(w.now));
        hide AdStep;
      }
    }
  }

  lemma {:induction false} CapTick(w: World, ms: nat, pool: Pool)
    requires WithinCap(w, pool)
    ensures WithinCap(w.(now := w.now + ms), pool)
  {
    var w' := w.(now := w.now + ms);
    forall q ensures ServedToday(w', q, PoolCampaigns(w', pool.id)) <= pool.cap {
      var v := OneFor(q, PoolCampaigns(w, pool.id));
      assert ServedToday(w, q, PoolCampaigns(w, pool.id)) <= pool.cap;
      TickCommits(w, ms, v);
      SumMono(w.impressions, CountedWeight(v, DayStart(w'.now)), CountedWeight(v, DayStart(w.now)));
    }
  }

  lemma {:induction false} UnknownPoolServesNobody(w: World, id: Id, publisher: Id)
    requires Catalogue(w) && PoolAt(w, id) < 0
    ensures ServedToday(w, publisher, PoolCampaigns(w, id)) == 0
  {
    assert PoolCampaigns(w, id) == {} by {
      forall c | c in w.campaigns ensures c.pool != Some(id) {
        var i :| 0 <= i < |w.campaigns| && w.campaigns[i] == c;
        assert Sponsored(w, w.campaigns[i]);
      }
    }
    SumZero(w.deliveries, LiveWeight(w.now, OneFor(publisher, {})));
    SumZero(w.impressions, CountedWeight(OneFor(publisher, {}), DayStart(w.now)));
  }

  lemma {:induction false} CapMarket(w: World, e: MarketEvent, k: nat)
    requires Catalogue(w) && Offers(w) && Reports(w) && Caps(w) && k < |MarketStep(w, e).pools|
    ensures WithinCap(MarketStep(w, e), MarketStep(w, e).pools[k])
  {
    var w' := MarketStep(w, e);
    CapOrigins(w, e, k);
    hide MarketStep, ServedToday, PoolCampaigns, Catalogue, Offers, Reports, Caps;
    forall q ensures ServedToday(w', q, PoolCampaigns(w', w'.pools[k].id)) <= w'.pools[k].cap {
      ServedMarket(w, e, w'.pools[k].id, q);
      if k < |w.pools| {
        assert WithinCap(w, w.pools[k]);
        assert ServedToday(w, q, PoolCampaigns(w, w.pools[k].id)) <= w.pools[k].cap;
      } else {
        UnknownPoolServesNobody(w, w'.pools[k].id, q);
      }
    }
  }

  lemma {:induction false} CapOrigins(w: World, e: MarketEvent, k: nat)
    requires Caps(w) && k < |MarketStep(w, e).pools|
    ensures var p := MarketStep(w, e).pools[k];
            if k < |w.pools| then p.id == w.pools[k].id && p.cap == w.pools[k].cap && WithinCap(w, w.pools[k])
            else PoolAt(w, p.id) < 0
  {
    hide ServedToday, PoolCampaigns, PoolAt, NewCampaign, NewProject, SetStatus, Join;
  }

  lemma {:induction false} ServedMarket(w: World, e: MarketEvent, pool: Id, q: Id)
    requires Offers(w) && Reports(w)
    ensures var w' := MarketStep(w, e);
            ServedToday(w', q, PoolCampaigns(w', pool)) == ServedToday(w, q, PoolCampaigns(w, pool))
  {
    var w' := MarketStep(w, e);
    PoolGrows(w, e, pool);
    hide MarketStep, PoolCampaigns, Offers, Reports;
    NewcomersCostNothing(w, w', PoolCampaigns(w, pool), PoolCampaigns(w', pool));
    assert Charged(w', OneFor(q, PoolCampaigns(w', pool)), DayStart(w.now)) == Charged(w, OneFor(q, PoolCampaigns(w, pool)), DayStart(w.now));
  }

  lemma {:induction false} CapStep(cfg: Config, w: World, e: Event)
    requires Good(w) && Caps(w)
    ensures Caps(Step(cfg, w, e))
  {
    var w' := Step(cfg, w, e);
    forall k | 0 <= k < |w'.pools| ensures WithinCap(w', w'.pools[k]) {
      match e {
        case Market(m) => CapMarket(w, m, k);
        case Ad(a) =>
          assert WithinCap(w, w.pools[k]);
          CapAd(cfg, w, a, w.pools[k]);
        case Tick(ms) =>
          assert WithinCap(w, w.pools[k]);
          CapTick(w, ms, w.pools[k]);
        case Pay(q) =>
          assert WithinCap(w, w.pools[k]);
          forall q ensures ServedToday(w', q, PoolCampaigns(w', w.pools[k].id)) <= w.pools[k].cap {
            assert ServedToday(w, q, PoolCampaigns(w, w.pools[k].id)) <= w.pools[k].cap;
          }
      }
    }
  }

  /** In every run, no member is served a pool's ads more often in a day than the pool's cap. */
  lemma {:induction false} MembersKeepToCap(cfg: Config, events: seq<Event>)
    ensures Caps(Run(cfg, Empty(), events))
  {
    if |events| > 0 {
      var before := events[..|events| - 1];
      MembersKeepToCap(cfg, before);
      Reachable(cfg, before);
      hide Step;
      CapStep(cfg, Run(cfg, Empty(), before), events[|events| - 1]);
    }
  }
}
