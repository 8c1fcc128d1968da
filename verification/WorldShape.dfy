/** Structural invariants of every reachable world: the catalogue, the offers made, and the reports taken in. */
module WorldShape {
  import opened Common
  import opened Money
  import opened Ledger
  import opened Selector
  import opened SelectorTour
  import opened Serving
  import opened World

  /* ---------- campaigns and pools ---------- */

  ghost predicate Sponsored(w: World, c: Campaign)
  {
    c.pool.Some? ==> exists k :: 0 <= k < |w.pools| && w.pools[k].id == c.pool.value && w.pools[k].sponsor == c.advertiser
  }

  ghost predicate UniquePools(pools: seq<Pool>) { forall i, k :: 0 <= i < k < |pools| ==> pools[i].id != pools[k].id }

  ghost predicate Catalogue(w: World)
  {
    && UniqueCampaigns(w.campaigns)
    && UniquePools(w.pools)
    && (forall i :: 0 <= i < |w.campaigns| ==> ValidShare(w.campaigns[i].bps) && Sponsored(w, w.campaigns[i]))
  }

  lemma {:induction false} CatalogueStep(cfg: Config, w: World, e: Event)
    requires Catalogue(w)
    ensures Catalogue(Step(cfg, w, e))
  {
    hide AdStep, PayStep, MarketStep;
    if e.Market? {
      CatalogueMarket(w, e.market);
    } else {
      SponsorsStay(w, Step(cfg, w, e));
    }
  }

  lemma {:induction false} CatalogueMarket(w: World, e: MarketEvent)
    requires Catalogue(w)
    ensures Catalogue(MarketStep(w, e))
  {
    PoolsAfter(w, e);
    hide NewCampaign, NewProject, SetStatus, NewPool, ClosePool, SetBudget, Catalogue, PoolsChange;
    match e {
      case DoNewCampaign(id, a, bid, daily, blocks) => CatalogueNewCampaign(w, id, a, bid, daily, blocks);
      case DoNewProject(id, p) => CatalogueNewProject(w, id, p);
      case DoSetStatus(k, s) => CatalogueSetStatus(w, k, s);
      case DoNewPool(id, s, bid, budget, cap) => CataloguePool(w, NewPool(w, id, s, bid, budget, cap));
      case DoClosePool(k) => CataloguePool(w, ClosePool(w, k));
      case DoSetBudget(k, b) => CataloguePool(w, SetBudget(w, k, b));
      case _ => CataloguePool(w, MarketStep(w, e));
    }
  }

  lemma {:induction false} PoolsAfter(w: World, e: MarketEvent)
    ensures PoolsChange(w.pools, MarketStep(w, e).pools)
  {
    var qs := MarketStep(w, e).pools;
    hide NewCampaign, NewProject, SetStatus, Join, FindPool;
    if e.DoNewPool? && |qs| > |w.pools| {
      assert qs == w.pools + [qs[|w.pools|]];
    } else if (e.DoClosePool? || e.DoSetBudget?) && e.k < |w.pools| {
      assert qs == w.pools[e.k := qs[e.k]];
    }
  }

  /** A pool is added or changed. */
  lemma {:induction false} CataloguePool(w: World, w': World)
    requires Catalogue(w) && w'.campaigns == w.campaigns && PoolsChange(w.pools, w'.pools)
    ensures Catalogue(w')
  {
    SponsorsStay(w, w');
  }

  ghost predicate PoolsChange(ps: seq<Pool>, qs: seq<Pool>)
  {
    || qs == ps
    || (exists p :: qs == ps + [p] && FindPool(ps, p.id) < 0)
    || (exists k, p {:trigger ps[k := p]} :: 0 <= k < |ps| && qs == ps[k := p] && p.id == ps[k].id && p.sponsor == ps[k].sponsor)
  }

  /** Pools are added and changed, never removed, renamed or handed to another sponsor. */
  ghost predicate PoolsPersist(w: World, w': World)
  {
    && |w.pools| <= |w'.pools|
    && forall k :: 0 <= k < |w.pools| ==> w'.pools[k].id == w.pools[k].id && w'.pools[k].sponsor == w.pools[k].sponsor
  }

  lemma {:induction false} SponsoredPersists(w: World, w': World, c: Campaign)
    requires PoolsPersist(w, w') && Sponsored(w, c)
    ensures Sponsored(w', c)
  {
    if c.pool.Some? {
      var k :| 0 <= k < |w.pools| && w.pools[k].id == c.pool.value && w.pools[k].sponsor == c.advertiser;
      assert w'.pools[k].id == c.pool.value;
    }
  }

  lemma {:induction false} SponsorsStay(w: World, w': World)
    requires Catalogue(w) && w'.campaigns == w.campaigns && PoolsPersist(w, w') && UniquePools(w'.pools)
    ensures Catalogue(w')
  {
    forall i | 0 <= i < |w'.campaigns| ensures Sponsored(w', w'.campaigns[i]) {
      SponsoredPersists(w, w', w.campaigns[i]);
    }
  }

  lemma {:induction false} CatalogueNewCampaign(w: World, id: Id, advertiser: Id, bid: nat, daily: Option<int>, blocks: Option<nat>)
    requires Catalogue(w)
    ensures Catalogue(NewCampaign(w, id, advertiser, bid, daily, blocks))
  {
    var w' := NewCampaign(w, id, advertiser, bid, daily, blocks);
    forall i | 0 <= i < |w'.campaigns| ensures Sponsored(w', w'.campaigns[i]) {
      if i < |w.campaigns| {
        SponsoredPersists(w, w', w.campaigns[i]);
      }
    }
  }

  lemma {:induction false} CatalogueNewProject(w: World, id: Id, publisher: Id)
    requires Catalogue(w)
    ensures Catalogue(NewProject(w, id, publisher))
  {
    var w' := NewProject(w, id, publisher);
    forall i | 0 <= i < |w'.campaigns| ensures Sponsored(w', w'.campaigns[i]) {
      if i < |w.campaigns| {
        SponsoredPersists(w, w', w.campaigns[i]);
      }
    }
  }

  lemma {:induction false} SponsoredAlike(w: World, w': World, c: Campaign, d: Campaign)
    requires Sponsored(w, c) && w'.pools == w.pools && SameCampaign(c, d)
    ensures Sponsored(w', d)
  {}

  lemma {:induction false} CatalogueSetStatus(w: World, k: nat, status: Status)
    requires Catalogue(w)
    ensures Catalogue(SetStatus(w, k, status))
  {
    var w' := SetStatus(w, k, status);
    assert UniqueCampaigns(w'.campaigns);
    assert forall i :: 0 <= i < |w.campaigns| ==> SameCampaign(w.campaigns[i], w'.campaigns[i]);
    hide SetStatus, UniqueCampaigns, UniquePools, Sponsored;
    forall i | 0 <= i < |w'.campaigns| ensures ValidShare(w'.campaigns[i].bps) && Sponsored(w', w'.campaigns[i]) {
      assert SameCampaign(w.campaigns[i], w'.campaigns[i]);
      SponsoredAlike(w, w', w.campaigns[i], w'.campaigns[i]);
    }
  }

  /** A campaign keeps its identity, its payer, its pool and its size; only its status changes. */
  ghost predicate SameCampaign(c: Campaign, d: Campaign) { c == d.(status := c.status) }

  ghost predicate Persist(w: World, w': World)
  {
    && |w.campaigns| <= |w'.campaigns|
    && forall i :: 0 <= i < |w.campaigns| ==> SameCampaign(w.campaigns[i], w'.campaigns[i])
  }

  lemma {:induction false} CampaignsPersist(cfg: Config, w: World, e: Event)
    ensures Persist(w, Step(cfg, w, e))
  {
    hide AdStep, PayStep, MarketStep;
    if e.Market? {
      MarketPersists(w, e.market);
    }
  }

  lemma {:induction false} MarketPersists(w: World, e: MarketEvent)
    ensures Persist(w, MarketStep(w, e))
  {
  }

  /* ---------- offers ---------- */

  ghost predicate SameOffer(a: Delivery, b: Delivery) { a == b.(consumed := a.consumed) }

  ghost predicate Known(campaigns: seq<Campaign>, d: Delivery)
  {
    exists i :: 0 <= i < |campaigns| && campaigns[i].id == d.campaign && campaigns[i].advertiser == d.advertiser
  }

  ghost predicate GoodOffer(campaigns: seq<Campaign>, n: Id, d: Delivery)
  {
    d.nonce == n && 0 <= d.rate && ValidShare(d.bps) && Known(campaigns, d)
  }

  ghost predicate Registered(w: World, d: Delivery)
  {
    d.nonce in w.served && SameOffer(d, w.served[d.nonce]) && (!d.consumed ==> d.nonce !in w.backs)
  }

  ghost predicate Offers(w: World)
  {
    && (forall n :: n in w.served ==> GoodOffer(w.campaigns, n, w.served[n]))
    && UniqueNonces(w.deliveries)
    && (forall i :: 0 <= i < |w.deliveries| ==> Registered(w, w.deliveries[i]))
    && (forall n :: n in w.backs ==> n in w.served)
  }

  lemma {:induction false} KeepUniqueNonces(ds: seq<Delivery>, p: Delivery -> bool)
    requires UniqueNonces(ds)
    ensures UniqueNonces(Keep(ds, p))
  {
    if |ds| > 0 {
      var front, last := ds[..|ds| - 1], ds[|ds| - 1];
      var kept := Keep(front, p);
      KeepUniqueNonces(front, p);
      forall i | 0 <= i < |kept| ensures kept[i].nonce != last.nonce {
        assert kept[i] in kept && kept[i] in front;
      }
    }
  }

  /** Deliveries that are a part of the old ones, with the rest of the offers untouched. */
  lemma {:induction false} OffersShrink(w: World, w': World)
    requires Offers(w) && Persist(w, w') && w'.served == w.served && w'.backs == w.backs
    requires UniqueNonces(w'.deliveries) && forall d :: d in w'.deliveries ==> d in w.deliveries
    ensures Offers(w')
  {
    forall n | n in w'.served ensures GoodOffer(w'.campaigns, n, w'.served[n]) {
    }
    forall i | 0 <= i < |w'.deliveries| ensures Registered(w', w'.deliveries[i]) {
      assert w'.deliveries[i] in w.deliveries;
    }
  }

  lemma {:induction false} VacuumCases(w: World, before: int)
    ensures Vacuum(w, before).deliveries == Keep(w.deliveries, (d: Delivery) => KeptByGc(d, w.now))
    ensures Vacuum(w, before).impressions ==
            Keep(w.impressions, (i: Impression) => i.state == Pending || i.serverTs >= before)
  {}

  lemma {:induction false} OffersStep(cfg: Config, w: World, e: Event)
    requires Catalogue(w) && Offers(w)
    ensures Offers(Step(cfg, w, e))
  {
    hide AdStep, PayStep, MarketStep;
    CampaignsPersist(cfg, w, e);
    if e.Ad? {
      OffersAd(cfg, w, e.ad);
    } else {
      OffersShrink(w, Step(cfg, w, e));
    }
  }

  lemma {:induction false} OffersAd(cfg: Config, w: World, e: AdEvent)
    requires Catalogue(w) && Offers(w)
    ensures Offers(AdStep(cfg, w, e))
  {
    hide Serve, Ingest, Verify, Vacuum;
    match e {
      case DoServe(p, n, coin, crash) => OffersServe(cfg, w, p, n, coin, crash);
      case DoIngest(p, ev, crash) => OffersIngest(cfg, w, p, ev, crash);
      case DoVerify(k, o, crash) => OffersShrink(w, Verify(cfg, w, k, o, crash));
      case DoRestart => OffersShrink(w, Reboot(w));
      case DoVacuum(before) =>
        VacuumCases(w, before);
        KeepUniqueNonces(w.deliveries, (d: Delivery) => KeptByGc(d, w.now));
        OffersShrink(w, Vacuum(w, before));
    }
  }

  /** What a serve step does: nothing but give slots back, or one more delivery for a chosen campaign. */
  lemma {:induction false} ServeCases(cfg: Config, w: World, publisher: Id, nonce: Id, coin: (Id, Id) -> bool, crash: bool) returns (made: Option<Selection>)
    ensures var w' := Serve(cfg, w, publisher, nonce, coin, crash);
            && w' == w.(deliveries := w'.deliveries, served := w'.served, procs := w'.procs,
                        returned := w'.returned, stages := w'.stages)
            && (made.None? ==> w'.deliveries == w.deliveries && w'.served == w.served)
    ensures made.Some? ==>
              var s := made.value;
              var w' := Serve(cfg, w, publisher, nonce, coin, crash);
              var d := DeliveryFor(s, publisher, nonce, w.now);
              var w1 := ReturnSlots(w, publisher);
              && nonce !in w.served && s.campaign in w.campaigns
              && w'.deliveries == Keep(w.deliveries + [d], (x: Delivery) => KeptByGc(x, w.now))
              && w'.served == w.served[nonce := d]
              && Passes(DepsFor(cfg, w1, publisher), s.campaign)
              && 0 <= s.rate <= RateFromCpm(s.campaign.bid) <= SpendableFor(DepsFor(cfg, w1, publisher), s.campaign)
              && (s.campaign.pool.Some? ==> s.rate == RateFromCpm(s.campaign.bid))
  {
    if publisher in w.bans || nonce in w.served || crash {
      made := None;
    } else {
      var w1 := ReturnSlots(w, publisher);
      SelectionIsAffordable(DepsFor(cfg, w1, publisher), StageOf(w1, publisher), coin);
      made := Select(DepsFor(cfg, w1, publisher), StageOf(w1, publisher), coin).0;
    }
  }

  lemma {:induction false} OffersServe(cfg: Config, w: World, publisher: Id, nonce: Id, coin: (Id, Id) -> bool, crash: bool)
    requires Catalogue(w) && Offers(w)
    ensures Offers(Serve(cfg, w, publisher, nonce, coin, crash))
  {
    hide Serve, Passes, SpendableFor, DepsFor, ReturnSlots, Keep, Eligible;
    var w' := Serve(cfg, w, publisher, nonce, coin, crash);
    var made := ServeCases(cfg, w, publisher, nonce, coin, crash);
    if made.Some? {
      var d := DeliveryFor(made.value, publisher, nonce, w.now);
      var i :| 0 <= i < |w.campaigns| && w.campaigns[i] == made.value.campaign;
      assert GoodOffer(w.campaigns, nonce, d);
      assert UniqueNonces(w.deliveries + [d]);
      KeepUniqueNonces(w.deliveries + [d], (x: Delivery) => KeptByGc(x, w.now));
      forall k | 0 <= k < |w'.deliveries| ensures Registered(w', w'.deliveries[k]) {
        assert w'.deliveries[k] in w'.deliveries;
        if w'.deliveries[k] != d {
          assert w'.deliveries[k] in w.deliveries;
        }
      }
    }
  }

  /** What taking in a report does. */
  lemma {:induction false} IngestCases(cfg: Config, w: World, publisher: Id, ev: Report, crash: IngestCrash) returns (accepted: bool, k: int)
    ensures var w' := Ingest(cfg, w, publisher, ev, crash);
            w' == w.(deliveries := w'.deliveries, impressions := w'.impressions, backs := w'.backs,
                     procs := w'.procs, returned := w'.returned, stages := w'.stages)
    ensures accepted ==>
              var w' := Ingest(cfg, w, publisher, ev, crash);
              && 0 <= k < |w.deliveries| && w.deliveries[k].nonce == ev.nonce && Live(w.deliveries[k], w.now)
              && w.deliveries[k].publisher == publisher && w.deliveries[k].campaign == ev.campaign
              && !Seen(w.impressions, publisher, ev.id)
              && w'.deliveries == w.deliveries[k := w.deliveries[k].(consumed := true)]
              && (crash.AfterConsume? ==> w'.impressions == w.impressions && w'.backs == w.backs)
              && (crash.NoCrash? ==>
                    && w'.impressions == w.impressions + [Build(w.deliveries, w.now, publisher, ev, Pending, None)]
                    && w'.backs == w.backs[ev.nonce := (publisher, ev.id)])
    ensures accepted <==> IngestOne(cfg, w.deliveries, w.impressions, w.now, publisher, ev).verdict.Accepted?
    ensures crash.NoCrash? || !accepted ==>
              var r := IngestOne(cfg, w.deliveries, w.impressions, w.now, publisher, ev);
              var w' := Ingest(cfg, w, publisher, ev, crash);
              w'.deliveries == r.deliveries && w'.impressions == r.impressions
    ensures !accepted ==>
              var w' := Ingest(cfg, w, publisher, ev, crash);
              && w'.deliveries == w.deliveries && w'.backs == w.backs
              && (w'.impressions == w.impressions
                  || (!Seen(w.impressions, publisher, ev.id)
                      && exists r :: w'.impressions ==
                                     w.impressions + [Build(w.deliveries, w.now, publisher, ev, Rejected, Some(r))]))
  {
    accepted := IngestOne(cfg, w.deliveries, w.impressions, w.now, publisher, ev).verdict.Accepted?;
    k := DeliveryAt(w.deliveries, ev.nonce);
  }

  lemma {:induction false} OffersIngest(cfg: Config, w: World, publisher: Id, ev: Report, crash: IngestCrash)
    requires Offers(w)
    ensures Offers(Ingest(cfg, w, publisher, ev, crash))
  {
    var w' := Ingest(cfg, w, publisher, ev, crash);
    var accepted, k := IngestCases(cfg, w, publisher, ev, crash);
    if accepted {
      forall i | 0 <= i < |w'.deliveries| ensures Registered(w', w'.deliveries[i]) {
        assert Registered(w, w.deliveries[i]);
      }
    }
  }

  /* ---------- reports ---------- */

  ghost predicate Matches(d: Delivery, i: Impression)
  {
    d.publisher == i.publisher && d.campaign == i.campaign && d.advertiser == i.advertiser && d.rate == i.rate && d.bps == i.bps
  }

  /** A counted impression is the one its nonce was accepted for, at the terms frozen when the ad was served. */
  ghost predicate Backed(w: World, i: Impression)
  {
    && i.nonce in w.backs && w.backs[i.nonce] == (i.publisher, i.id)
    && i.nonce in w.served && Matches(w.served[i.nonce], i)
  }

  ghost predicate UniqueReports(imps: seq<Impression>)
  {
    forall i, k :: 0 <= i < k < |imps| ==> imps[i].publisher != imps[k].publisher || imps[i].id != imps[k].id
  }

  ghost predicate GoodReport(w: World, i: Impression)
  {
    0 <= i.rate && (i.state != Rejected ==> Backed(w, i))
  }

  ghost predicate Reports(w: World)
  {
    && UniqueReports(w.impressions)
    && (forall k :: 0 <= k < |w.impressions| ==> GoodReport(w, w.impressions[k]))
    && (forall k :: 0 <= k < |w.impressions| ==> w.impressions[k].serverTs <= w.now)
  }

  lemma {:induction false} KeepUniqueReports(imps: seq<Impression>, p: Impression -> bool)
    requires UniqueReports(imps)
    ensures UniqueReports(Keep(imps, p))
  {
    if |imps| > 0 {
      var front, last := imps[..|imps| - 1], imps[|imps| - 1];
      var kept := Keep(front, p);
      KeepUniqueReports(front, p);
      forall i | 0 <= i < |kept| ensures kept[i].publisher != last.publisher || kept[i].id != last.id {
        assert kept[i] in kept && kept[i] in front;
      }
    }
  }

  lemma {:induction false} ReportsShrink(w: World, w': World)
    requires Reports(w) && w'.backs == w.backs && w.now <= w'.now
    requires forall n :: n in w.served ==> n in w'.served && w'.served[n] == w.served[n]
    requires UniqueReports(w'.impressions) && forall i :: i in w'.impressions ==> i in w.impressions
    ensures Reports(w')
  {
    forall k | 0 <= k < |w'.impressions| ensures GoodReport(w', w'.impressions[k]) && w'.impressions[k].serverTs <= w'.now {
      assert w'.impressions[k] in w.impressions;
    }
  }

  lemma {:induction false} ReportsStep(cfg: Config, w: World, e: Event)
    requires Catalogue(w) && Offers(w) && Reports(w)
    ensures Reports(Step(cfg, w, e))
  {
    hide AdStep, PayStep, MarketStep;
    if e.Ad? {
      ReportsAd(cfg, w, e.ad);
    } else {
      ReportsShrink(w, Step(cfg, w, e));
    }
  }

  lemma {:induction false} ReportsAd(cfg: Config, w: World, e: AdEvent)
    requires Catalogue(w) && Offers(w) && Reports(w)
    ensures Reports(AdStep(cfg, w, e))
  {
    hide Serve, Ingest, Verify, Vacuum, Passes, DepsFor, SpendableFor, Keep;
    match e {
      case DoServe(p, n, coin, crash) =>
        var made := ServeCases(cfg, w, p, n, coin, crash);
        ReportsShrink(w, Serve(cfg, w, p, n, coin, crash));
      case DoIngest(p, ev, crash) => ReportsIngest(cfg, w, p, ev, crash);
      case DoVerify(k, o, crash) => ReportsVerify(cfg, w, k, o, crash);
      case DoRestart => ReportsShrink(w, Reboot(w));
      case DoVacuum(before) =>
        VacuumCases(w, before);
        KeepUniqueReports(w.impressions, (i: Impression) => i.state == Pending || i.serverTs >= before);
        ReportsShrink(w, Vacuum(w, before));
    }
  }

  lemma {:induction false} ReportsIngest(cfg: Config, w: World, publisher: Id, ev: Report, crash: IngestCrash)
    requires Offers(w) && Reports(w)
    ensures Reports(Ingest(cfg, w, publisher, ev, crash))
  {
    var w' := Ingest(cfg, w, publisher, ev, crash);
    var accepted, k := IngestCases(cfg, w, publisher, ev, crash);
    hide Ingest;
    if w'.impressions != w.impressions {
      OldReportsStay(w, w', publisher, ev, accepted, k);
      NewReportIsGood(w, w', publisher, ev, accepted, k);
      hide GoodReport, Registered, GoodOffer, Build;
    }
  }

  lemma {:induction false} OldReportsStay(w: World, w': World, publisher: Id, ev: Report, accepted: bool, k: int)
    requires Offers(w) && Reports(w) && w'.served == w.served
    requires accepted ==> 0 <= k < |w.deliveries| && w.deliveries[k].nonce == ev.nonce && !w.deliveries[k].consumed
    requires w'.backs == if accepted then w.backs[ev.nonce := (publisher, ev.id)] else w.backs
    ensures forall i :: 0 <= i < |w.impressions| ==> GoodReport(w', w.impressions[i])
  {
    forall i | 0 <= i < |w.impressions| ensures GoodReport(w', w.impressions[i]) {
      assert GoodReport(w, w.impressions[i]);
      if accepted {
        assert Registered(w, w.deliveries[k]);
      }
    }
  }

  lemma {:induction false} NewReportIsGood(w: World, w': World, publisher: Id, ev: Report, accepted: bool, k: int)
    requires Offers(w) && w'.served == w.served
    requires accepted ==> 0 <= k < |w.deliveries| && w.deliveries[k].nonce == ev.nonce
                          && w.deliveries[k].publisher == publisher && w.deliveries[k].campaign == ev.campaign
                          && w'.backs == w.backs[ev.nonce := (publisher, ev.id)]
    ensures accepted ==> GoodReport(w', Build(w.deliveries, w.now, publisher, ev, Pending, None))
    ensures forall r :: GoodReport(w', Build(w.deliveries, w.now, publisher, ev, Rejected, Some(r)))
  {
    forall d | d in w.deliveries ensures 0 <= d.rate {
      var m :| 0 <= m < |w.deliveries| && w.deliveries[m] == d;
      assert Registered(w, w.deliveries[m]);
    }
    if accepted {
      assert Registered(w, w.deliveries[k]);
      assert k == DeliveryAt(w.deliveries, ev.nonce);
    }
  }

  /** What one verification round does. */
  lemma {:induction false} VerifyCases(cfg: Config, w: World, k: nat, o: Oracle, crash: bool) returns (posted: bool, decided: Option<Impression>)
    ensures var w' := Verify(cfg, w, k, o, crash);
            && w' == w.(journal := w'.journal, impressions := w'.impressions,
                        procs := w'.procs, returned := w'.returned, stages := w'.stages)
            && (posted || decided.Some? ==> k < |w.impressions| && w.impressions[k].state == Pending)
            && w'.journal == (if posted then Post(w.journal, ShownOf(w.impressions[k])) else w.journal)
            && (posted ==> CanPostImpression(w.impressions[k]))
            && w'.impressions == (if decided.Some? then w.impressions[k := decided.value] else w.impressions)
    ensures decided.Some? ==>
              && decided.value == w.impressions[k].(state := decided.value.state, reason := decided.value.reason)
              && decided.value.state == (if posted then Verified else Rejected)
    ensures !posted && decided.Some? <==> k < |w.impressions| && w.impressions[k].state == Pending && Judged(cfg, w, k, o).Deny?
  {
    posted, decided := false, None;
    if k < |w.impressions| && w.impressions[k].state == Pending {
      var i := w.impressions[k];
      match Judged(cfg, w, k, o) {
        case Wait =>
        case Deny(reason) => decided := Some(i.(state := Rejected, reason := Some(reason)));
        case Approve =>
          posted := CanPostImpression(i);
          decided := if posted && !crash then Some(i.(state := Verified)) else None;
      }
    }
  }

  lemma {:induction false} ReportsVerify(cfg: Config, w: World, k: nat, o: Oracle, crash: bool)
    requires Reports(w)
    ensures Reports(Verify(cfg, w, k, o, crash))
  {
    var w' := Verify(cfg, w, k, o, crash);
    var posted, decided := VerifyCases(cfg, w, k, o, crash);
    forall i | 0 <= i < |w'.impressions| ensures GoodReport(w', w'.impressions[i]) {
      assert GoodReport(w, w.impressions[i]);
    }
  }
}
