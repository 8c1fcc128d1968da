/**
  No total of the server leaves the 64-bit range while deposits, budgets and pledges fit: what is promised
  of an advertiser's money never exceeds what was ever deposited, and no pool spends more than its budgets allowed.
  */
module WorldTotals {
  import opened Common
  import opened Money
  import opened Sums
  import opened Ledger
  import opened LedgerFacts
  import opened LedgerBounds
  import opened Selector
  import opened Serving
  import opened World
  import opened WorldShape
  import opened Commitments
  import opened RangeChecks
  import opened WorldMoney
  import opened WorldAudit
  import opened WorldPools
  import opened WorldReserve
  import opened WorldWitness

  /* ---------- what is promised of an advertiser's money ---------- */

  /** What `spendable` subtracts: live deliveries and everything pending, billed already or not. */
  function Promised(w: World, a: Id): int { LiveSum(w, RateOf(a)) + PendingSum(w, RateOf(a)) }

  lemma {:induction false} PromisedIngest(cfg: Config, w: World, p: Id, ev: Report, crash: IngestCrash, a: Id)
    requires Offers(w) && Reports(w)
    ensures Promised(Ingest(cfg, w, p, ev, crash), a) <= Promised(w, a)
  {
    var w' := Ingest(cfg, w, p, ev, crash);
    var accepted, k := IngestCases(cfg, w, p, ev, crash);
    RatesWeigh(w, a, {});
    hide Ingest, Offers, Reports;
    if accepted {
      AcceptCommits(w, w', k, RateOf(a));
      assert k == DeliveryAt(w.deliveries, ev.nonce) by {
        OneDelivery(w, ev.nonce, k);
      }
      if crash.NoCrash? {
        var i := Build(w.deliveries, w.now, p, ev, Pending, None);
        SumAppend(w.impressions, i, PendingWeight(RateOf(a)));
        assert OfImpression(i) == OfDelivery(w.deliveries[k]);
      }
    } else if w'.impressions != w.impressions {
      var r :| w'.impressions == w.impressions + [Build(w.deliveries, w.now, p, ev, Rejected, Some(r))];
      SumAppend(w.impressions, Build(w.deliveries, w.now, p, ev, Rejected, Some(r)), PendingWeight(RateOf(a)));
    }
  }

  lemma {:induction false} OneDelivery(w: World, nonce: Id, k: int)
    requires Offers(w) && 0 <= k < |w.deliveries| && w.deliveries[k].nonce == nonce
    ensures DeliveryAt(w.deliveries, nonce) == k
  {}

  lemma {:induction false} PromisedVerify(cfg: Config, w: World, k: nat, o: Oracle, crash: bool, a: Id)
    requires Offers(w) && Reports(w)
    ensures Promised(Verify(cfg, w, k, o, crash), a) <= Promised(w, a)
  {
    var posted, decided := VerifyCases(cfg, w, k, o, crash);
    RatesWeigh(w, a, {});
    hide Verify, Judged, Offers, Reports;
    if decided.Some? {
      SumUpdate(w.impressions, k, decided.value, PendingWeight(RateOf(a)));
    }
  }

  lemma {:induction false} PromisedVacuum(w: World, before: int, a: Id)
    ensures Promised(Vacuum(w, before), a) == Promised(w, a)
  {
    VacuumCommits(w, before, RateOf(a));
    VacuumCases(w, before);
    SumKeep(w.impressions, (i: Impression) => i.state == Pending || i.serverTs >= before, PendingWeight(RateOf(a)));
  }

  lemma {:induction false} PromisedDelivery(w: World, w': World, d: Delivery, a: Id)
    requires w'.now == w.now && Live(d, w.now) && w'.impressions == w.impressions
    requires w'.deliveries == Keep(w.deliveries + [d], (x: Delivery) => KeptByGc(x, w.now))
    ensures Promised(w', a) == Promised(w, a) + (if d.advertiser == a then d.rate else 0)
  {
    ServeCommits(w, w', d, RateOf(a));
    hide LiveSum, Keep;
  }

  lemma {:induction false} PromisedSame(w: World, w': World, a: Id)
    requires w'.now == w.now && w'.deliveries == w.deliveries && w'.impressions == w.impressions
    ensures Promised(w', a) == Promised(w, a)
  {}

  /** What a serve step adds, if anything, is within what its payer could spend. */
  lemma {:induction false} ServedWithinSpendable(cfg: Config, w: World, p: Id, n: Id, coin: (Id, Id) -> bool, crash: bool)
    returns (d: Option<Delivery>)
    requires Offers(w) && Reports(w)
    ensures var w' := Serve(cfg, w, p, n, coin, crash);
            && w'.now == w.now && w'.impressions == w.impressions
            && (d.None? ==> w'.deliveries == w.deliveries)
            && (d.Some? ==> Live(d.value, w.now) && d.value.rate <= Max0(Spendable(w, d.value.advertiser))
                            && w'.deliveries == Keep(w.deliveries + [d.value], (x: Delivery) => KeptByGc(x, w.now)))
  {
    hide Serve, PoolAllows, PoolReserve, Committed, Offers, Reports, Spendable, Keep, PoolOf, RateFromCpm;
    var made := ServeAffords(cfg, w, p, n, coin, crash);
    d := if made.None? then None else Some(DeliveryFor(made.value, p, n, w.now));
  }

  /** A served ad is promised out of what `spendable` left, so the balance still covers all promises. */
  lemma {:induction false} PromisedServe(cfg: Config, w: World, p: Id, n: Id, coin: (Id, Id) -> bool, crash: bool, a: Id)
    requires Offers(w) && Reports(w)
    ensures Promised(Serve(cfg, w, p, n, coin, crash), a) <= Max(Promised(w, a), Balance(w.journal, Advertiser(a)))
  {
    var d := ServedWithinSpendable(cfg, w, p, n, coin, crash);
    var w' := Serve(cfg, w, p, n, coin, crash);
    assert Spendable(w, a) == Max0(Balance(w.journal, Advertiser(a)) - Promised(w, a));
    hide Serve, Offers, Reports, Balance, Spendable, Keep, Promised;
    if d.Some? {
      PromisedDelivery(w, w', d.value, a);
    } else {
      PromisedSame(w, w', a);
    }
  }

  lemma {:induction false} PromisedAd(cfg: Config, w: World, e: AdEvent, a: Id)
    requires Offers(w) && Reports(w)
    ensures Promised(AdStep(cfg, w, e), a) <= Max(Promised(w, a), Balance(w.journal, Advertiser(a)))
  {
    hide Serve, Ingest, Verify, Vacuum, Balance;
    match e {
      case DoServe(p, n, coin, crash) => PromisedServe(cfg, w, p, n, coin, crash, a);
      case DoIngest(p, ev, crash) => PromisedIngest(cfg, w, p, ev, crash, a);
      case DoVerify(k, o, crash) => PromisedVerify(cfg, w, k, o, crash, a);
      case DoRestart =>
      case DoVacuum(before) => PromisedVacuum(w, before, a);
    }
  }

  lemma {:induction false} PromisedStep(cfg: Config, w: World, e: Event, a: Id)
    requires Offers(w) && Reports(w)
    ensures Promised(Step(cfg, w, e), a) <= Max(Promised(w, a), Balance(w.journal, Advertiser(a)))
  {
    hide AdStep, PayStep, MarketStep, Balance;
    match e {
      case Ad(d) => PromisedAd(cfg, w, d, a);
      case Tick(ms) =>
        RatesWeigh(w, a, {});
        TickCommits(w, ms, RateOf(a));
      case _ =>
    }
  }

  lemma {:induction false} DepositsGrow(cfg: Config, w: World, e: Event)
    requires Good(w)
    ensures Deposits(w.journal) <= Deposits(Step(cfg, w, e).journal)
  {
    var w' := Step(cfg, w, e);
    var p := StepWrites(cfg, w, e);
    GoodStep(cfg, w, e);
    assert SoundJournal(w'.journal) && PayoutShape(w'.journal);
    hide Step, Good;
    if w'.journal != w.journal {
      assert w'.journal == w.journal + [p.value];
      ExternalBalances(w'.journal);
    }
  }

  lemma {:induction false} HeldWithin(w: World, a: Id)
    requires Good(w)
    ensures 0 <= Balance(w.journal, Advertiser(a)) <= Deposits(w.journal)
  {
    var j := w.journal;
    assert j[..|j|] == j;
    forall b | Internal(b) ensures 0 <= Balance(j, b) {
      assert 0 <= Balance(j[..|j|], b);
    }
    HeldAtMost(j, Advertiser(a));
    ExternalBalances(j);
  }

  /** In every run, no more is promised of an advertiser's money than was ever deposited. */
  lemma {:induction false} PromisesWithinDeposits(cfg: Config, events: seq<Event>, a: Id)
    ensures var w := Run(cfg, Empty(), events); Good(w) && Promised(w, a) <= Deposits(w.journal)
  {
    Reachable(cfg, events);
    if |events| > 0 {
      var front, e := events[..|events| - 1], events[|events| - 1];
      var w := Run(cfg, Empty(), front);
      PromisesWithinDeposits(cfg, front, a);
      assert Offers(w) && Reports(w);
      hide Step, Good, Promised, Balance, Deposits;
      PromisedStep(cfg, w, e, a);
      HeldWithin(w, a);
      DepositsGrow(cfg, w, e);
    } else {
      assert Deposits([]) == 0;
    }
  }

  /* ---------- what pools have spent ---------- */

  ghost predicate SpentUpTo(w: World, limit: int)
  {
    && (forall k {:trigger w.pools[k]} :: 0 <= k < |w.pools| ==> w.pools[k].budget <= limit)
    && (forall id {:trigger PoolSpent(w, id)} :: PoolSpent(w, id) <= limit)
  }

  /** The event gives no pool a budget over the limit. */
  predicate BudgetsUpTo(e: Event, limit: int)
  {
    e.Market? ==> (e.market.DoNewPool? ==> e.market.budget <= limit) && (e.market.DoSetBudget? ==> e.market.budget <= limit)
  }

  lemma {:induction false} SpentByServe(cfg: Config, w: World, p: Id, n: Id, coin: (Id, Id) -> bool, crash: bool, id: Id, limit: int)
    requires Catalogue(w) && Offers(w) && Reports(w) && SpentUpTo(w, limit)
    ensures PoolSpent(Serve(cfg, w, p, n, coin, crash), id) <= limit
  {
    var made := ServeAffords(cfg, w, p, n, coin, crash);
    var w' := Serve(cfg, w, p, n, coin, crash);
    assert PoolSpent(w, id) <= limit;
    hide Serve, ServedToday, Spendable, PoolReserve, Committed, Catalogue, Offers, Reports;
    if made.Some? {
      var d := DeliveryFor(made.value, p, n, w.now);
      ServeSpends(w, w', d, made.value.campaign);
      hide PoolSpent, Keep;
      if made.value.campaign.pool == Some(id) {
        assert w.pools[PoolAt(w, id)].budget <= limit;
      }
    }
  }

  lemma {:induction false} SpentByStep(cfg: Config, w: World, e: Event, id: Id, limit: int)
    requires Catalogue(w) && Offers(w) && Reports(w) && SpentUpTo(w, limit)
    ensures PoolSpent(Step(cfg, w, e), id) <= limit
  {
    assert PoolSpent(w, id) <= limit;
    hide AdStep, PayStep, MarketStep, SpentUpTo;
    match e {
      case Ad(d) =>
        if d.DoServe? {
          SpentByServe(cfg, w, d.publisher, d.nonce, d.coin, d.crash, id, limit);
          assert AdStep(cfg, w, d) == Serve(cfg, w, d.publisher, d.nonce, d.coin, d.crash) by {
            ServesStep(cfg, w, d);
          }
        } else {
          RatesWeigh(w, id, PoolCampaigns(w, id));
          ChargedAd(cfg, w, d, RateIn(PoolCampaigns(w, id)), 0);
        }
      case Market(m) => SpentMarket(w, m, id);
      case Tick(ms) => SpentTick(w, ms, id);
      case Pay(q) =>
    }
  }

  lemma {:induction false} ServesStep(cfg: Config, w: World, e: AdEvent)
    requires e.DoServe?
    ensures AdStep(cfg, w, e) == Serve(cfg, w, e.publisher, e.nonce, e.coin, e.crash)
  {
    hide Serve;
  }

  lemma {:induction false} SpentUpToStep(cfg: Config, w: World, e: Event, limit: int)
    requires Catalogue(w) && Offers(w) && Reports(w) && SpentUpTo(w, limit) && BudgetsUpTo(e, limit)
    ensures SpentUpTo(Step(cfg, w, e), limit)
  {
    var w' := Step(cfg, w, e);
    BudgetsStay(cfg, w, e, limit);
    hide Step, PoolSpent;
    forall id ensures PoolSpent(w', id) <= limit {
      SpentByStep(cfg, w, e, id, limit);
    }
  }

  lemma {:induction false} BudgetsStay(cfg: Config, w: World, e: Event, limit: int)
    requires SpentUpTo(w, limit) && BudgetsUpTo(e, limit)
    ensures var pools := Step(cfg, w, e).pools; forall k {:trigger pools[k]} :: 0 <= k < |pools| ==> pools[k].budget <= limit
  {
    hide AdStep, PayStep, NewCampaign, NewProject, SetStatus, Join, PoolSpent, PoolAt;
  }

  /** In every run whose budgets keep to a limit, so does what is spent on every pool. */
  lemma {:induction false} SpendingWithinBudgets(cfg: Config, events: seq<Event>, limit: int)
    requires 0 <= limit && forall n :: 0 <= n < |events| ==> BudgetsUpTo(events[n], limit)
    ensures SpentUpTo(Run(cfg, Empty(), events), limit)
  {
    if |events| > 0 {
      var front := events[..|events| - 1];
      SpendingWithinBudgets(cfg, front, limit);
      Reachable(cfg, front);
      hide Step, SpentUpTo;
      SpentUpToStep(cfg, Run(cfg, Empty(), front), events[|events| - 1], limit);
    } else {
      NothingSpentYet();
    }
  }

  lemma {:induction false} NothingSpentYet()
    ensures forall id :: PoolSpent(Empty(), id) == 0
  {
    hide PoolCampaigns;
  }

  /* ---------- every total adds up ---------- */

  function PledgeWeight(s: Id): Pool -> int { (p: Pool) => if p.sponsor == s && p.open then Max0(p.budget) else 0 }

  /** What a sponsor's open pools promise together. */
  function Pledged(w: World, s: Id): int { Sum(w.pools, PledgeWeight(s)) }

  lemma {:induction false} SpentIsNotNegative(w: World, ids: set<Id>)
    requires Offers(w) && Reports(w)
    ensures 0 <= LiveSum(w, RateIn(ids)) && 0 <= CountedSum(w, RateIn(ids), 0)
    ensures forall i :: 0 <= i < |w.deliveries| ==> 0 <= LiveWeight(w.now, RateIn(ids))(w.deliveries[i])
    ensures forall i :: 0 <= i < |w.impressions| ==> 0 <= CountedWeight(RateIn(ids), 0)(w.impressions[i])
  {
    RatesWeigh(w, EMPTY, ids);
    SumNonNegative(w.deliveries, LiveWeight(w.now, RateIn(ids)));
    SumNonNegative(w.impressions, CountedWeight(RateIn(ids), 0));
  }

  lemma {:induction false} SpentOnAddsUp(w: World, ids: set<Id>)
    requires Offers(w) && Reports(w) && SpentOn(w, ids) <= MAX_STROOPS
    ensures SpentOnFits(w, ids)
  {
    SpentIsNotNegative(w, ids);
    hide Offers, Reports, AddsUp;
    AddsUpWithin(w.deliveries, LiveWeight(w.now, RateIn(ids)), 0);
    AddsUpWithin(w.impressions, CountedWeight(RateIn(ids), 0), LiveSum(w, RateIn(ids)));
  }

  lemma {:induction false} PromisesAddUp(w: World, a: Id)
    requires Good(w) && Promised(w, a) <= Deposits(w.journal) <= MAX_STROOPS
    ensures SpendableFits(w, a)
  {
    RatesWeigh(w, a, {});
    HeldWithin(w, a);
    hide Good, AddsUp, Balance, Deposits;
    SumNonNegative(w.deliveries, LiveWeight(w.now, RateOf(a)));
    SumNonNegative(w.impressions, PendingWeight(RateOf(a)));
    AddsUpWithin(w.deliveries, LiveWeight(w.now, RateOf(a)), 0);
    AddsUpWithin(w.impressions, PendingWeight(RateOf(a)), LiveSum(w, RateOf(a)));
  }

  lemma {:induction false} ReserveWithinPledges(w: World, s: Id)
    requires Offers(w) && Reports(w)
    ensures 0 <= PoolReserve(w, s) <= Pledged(w, s)
  {
    ReserveIsNotNegative(w, s);
    forall id ensures 0 <= PoolSpent(w, id) {
      SpentIsNotNegative(w, PoolCampaigns(w, id));
    }
    hide PoolSpent, Offers, Reports;
    SumMono(w.pools, ReserveWeight(w, s), PledgeWeight(s));
  }

  /**
    While the deposits, each budget and each sponsor's pledges fit in 64 bits, no run makes `spendable`,
    `spentOn` for a pool or `poolReserve` throw, inside their loops or at their end.
    */
  lemma {:induction false} TotalsAddUp(cfg: Config, events: seq<Event>)
    requires var w := Run(cfg, Empty(), events);
             Deposits(w.journal) <= MAX_STROOPS && forall s :: Pledged(w, s) <= MAX_STROOPS
    requires forall n :: 0 <= n < |events| ==> BudgetsUpTo(events[n], MAX_STROOPS)
    ensures var w := Run(cfg, Empty(), events);
            && (forall a :: SpendableFits(w, a))
            && (forall pool {:trigger PoolCampaigns(w, pool)} :: SpentOnFits(w, PoolCampaigns(w, pool)))
            && (forall s :: ReserveFits(w, s))
  {
    var w := Run(cfg, Empty(), events);
    Reachable(cfg, events);
    SpendingWithinBudgets(cfg, events, MAX_STROOPS);
    forall a ensures SpendableFits(w, a) {
      PromisesWithinDeposits(cfg, events, a);
      PromisesAddUp(w, a);
      hide *;
    }
    assert Offers(w) && Reports(w);
    hide Run, Good, SpendableFits, SpentOnFits, PoolCampaigns, Offers, Reports;
    forall pool ensures SpentOnFits(w, PoolCampaigns(w, pool)) {
      assert PoolSpent(w, pool) <= MAX_STROOPS;
      SpentOnAddsUp(w, PoolCampaigns(w, pool));
    }
    hide PoolSpent, Pledged;
    forall s ensures ReserveFits(w, s) {
      ReserveWithinPledges(w, s);
    }
  }

  /* ---------- pledges that do not fit ---------- */

  function Pledging(id: Id): Event { Market(DoNewPool(id, SPONSOR, MIN_BID_CPM, MAX_STROOPS, 1)) }

  /** Nothing checks pledges against each other: with two pools of the largest budget, `poolReserve` throws. */
  lemma {:induction false} PledgesMayNotAddUp()
    ensures var w := Run(CFG, Empty(), [Pledging(FIRST), Pledging(SECOND)]);
            Pledged(w, SPONSOR) == 2 * MAX_STROOPS && !ReserveFits(w, SPONSOR)
  {
    PledgesMade();
    hide Run;
    TwoPledges(Run(CFG, Empty(), [Pledging(FIRST), Pledging(SECOND)]));
    hide Pledged, PoolReserve, PoolSpent;
  }

  function PledgedAs(id: Id): Pool { Pool(id, SPONSOR, MIN_BID_CPM, MAX_STROOPS, 1, true) }

  lemma {:induction false} OnePledge(w: World, id: Id)
    requires PoolAt(w, id) < 0
    ensures Step(CFG, w, Pledging(id)) == w.(pools := w.pools + [PledgedAs(id)])
  {
    hide PoolAt;
  }

  lemma {:induction false} PledgesMade()
    ensures Run(CFG, Empty(), [Pledging(FIRST), Pledging(SECOND)]) == Empty().(pools := [PledgedAs(FIRST), PledgedAs(SECOND)])
  {
    var first := Empty().(pools := [PledgedAs(FIRST)]);
    OnePledge(Empty(), FIRST);
    OnePledge(first, SECOND);
    assert [] + [PledgedAs(FIRST)] == [PledgedAs(FIRST)];
    assert [PledgedAs(FIRST)] + [PledgedAs(SECOND)] == [PledgedAs(FIRST), PledgedAs(SECOND)];
    assert Run(CFG, Empty(), []) == Empty();
    hide Step, Run, Empty;
    RunExtends([], Pledging(FIRST));
    RunExtends([Pledging(FIRST)], Pledging(SECOND));
    assert [] + [Pledging(FIRST)] == [Pledging(FIRST)];
    assert [Pledging(FIRST)] + [Pledging(SECOND)] == [Pledging(FIRST), Pledging(SECOND)];
  }

  lemma {:induction false} TwoPledges(w: World)
    requires w == Empty().(pools := [PledgedAs(FIRST), PledgedAs(SECOND)])
    ensures Pledged(w, SPONSOR) == 2 * MAX_STROOPS && PoolReserve(w, SPONSOR) == 2 * MAX_STROOPS
  {
    assert forall id :: PoolSpent(w, id) == 0;
    hide PoolSpent;
    SumTwo(w.pools[0], w.pools[1], PledgeWeight(SPONSOR));
    SumTwo(w.pools[0], w.pools[1], ReserveWeight(w, SPONSOR));
    assert w.pools == [w.pools[0], w.pools[1]];
  }
}
