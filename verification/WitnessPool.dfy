/**
  A run in which a crash and a ban take the cover of a sponsor's pool away: the debit stands, and the pool
  gets its rate back.
  */
module WitnessPool {
  import opened Common
  import opened Sums
  import opened Ledger
  import opened Selector
  import opened Serving
  import opened World
  import opened Commitments
  import opened WorldMoney
  import opened WorldAudit
  import opened WorldReserve
  import opened WorldWitness

  const POOL: Id := Id(10)

  /** The sponsor pledges all he has. */
  function Pledged(): Pool { Pool(POOL, SPONSOR, MIN_BID_CPM, FUNDS, 10, true) }

  /** The first publisher's project, paid by the pool and shown to the second. */
  function Project(): Campaign
  {
    Campaign(PRODUCT, SPONSOR, MIN_BID_CPM, DEFAULT_SHARE_BPS, Active, None, None, Some(POOL), Some(FIRST))
  }

  function Founding(): seq<Event>
  {
    [Pay(DoDeposit(SPONSOR, FUNDS, Id(9))), Market(DoNewPool(POOL, SPONSOR, MIN_BID_CPM, FUNDS, 10))]
  }

  function Joining(): seq<Event> { [Market(DoJoin(0, FIRST)), Market(DoJoin(0, SECOND))] }

  function Opened(): seq<Event> { Founding() + Joining() + [Market(DoNewProject(PRODUCT, FIRST))] }
  function ShownOnce(): seq<Event> { Opened() + [Serving1(SECOND, SECOND_NONCE)] }
  function ReportedOnce(): seq<Event> { ShownOnce() + [Reporting(SECOND, SECOND_NONCE)] }
  function BilledOnly(): seq<Event> { ReportedOnce() + [Verifying(0, true)] }
  function Banned(): seq<Event> { BilledOnly() + [Market(DoBan(SECOND))] }

  ghost predicate PoolMarket(w: World)
  {
    && w.now == 0 && w.campaigns == [Project()] && w.pools == [Pledged()] && w.bans == {}
    && w.members == map[FIRST := POOL, SECOND := POOL]
    && w.journal == [Topup(Id(9), SPONSOR, FUNDS)]
  }

  ghost predicate Unused(w: World)
  {
    w.deliveries == [] && w.impressions == [] && w.served == map[] && w.stages == map[]
  }

  lemma {:induction false} PoolFounded()
    ensures var w := Run(CFG, Empty(), Founding());
            w == Empty().(journal := [Topup(Id(9), SPONSOR, FUNDS)], pools := [Pledged()])
  {
    var e := Founding();
    RunExtends([], e[0]);
    RunExtends([e[0]], e[1]);
    assert [] + [e[0]] == [e[0]];
    assert [e[0]] + [e[1]] == e;
  }

  lemma {:induction false} MembersJoin(w: World)
    requires w == Empty().(journal := [Topup(Id(9), SPONSOR, FUNDS)], pools := [Pledged()])
    ensures var w' := NewProject(Join(Join(w, 0, FIRST), 0, SECOND), PRODUCT, FIRST);
            PoolMarket(w') && Unused(w')
  {
    var w' := Join(Join(w, 0, FIRST), 0, SECOND);
    assert w'.members == map[FIRST := POOL, SECOND := POOL];
    assert PoolAt(w', POOL) == 0;
  }

  lemma {:induction false} PoolOpens()
    ensures PoolMarket(Run(CFG, Empty(), Opened())) && Unused(Run(CFG, Empty(), Opened()))
  {
    var e := Joining();
    PoolFounded();
    RunExtends(Founding(), e[0]);
    RunExtends(Founding() + [e[0]], e[1]);
    assert Founding() + [e[0]] + [e[1]] == Founding() + Joining();
    RunExtends(Founding() + Joining(), Market(DoNewProject(PRODUCT, FIRST)));
    MembersJoin(Run(CFG, Empty(), Founding()));
    hide Run, Founding, Join, NewProject, PoolMarket, Unused;
  }

  lemma {:induction false} NothingSpent(w: World)
    requires PoolMarket(w) && Unused(w)
    ensures Spendable(w, SPONSOR) == FUNDS && PoolSpent(w, POOL) == 0 && ServedToday(w, SECOND, PoolCampaigns(w, POOL)) == 0
  {
    SumAppend([], w.journal[0], Effect(Advertiser(SPONSOR)));
    assert w.journal == [] + [w.journal[0]];
  }

  lemma {:induction false} ProjectIsEligible(w: World)
    requires PoolMarket(w) && Unused(w)
    ensures Eligible(DepsFor(CFG, w, SECOND)) == [Project()]
    ensures SpendableFor(DepsFor(CFG, w, SECOND), Project()) >= 1_000
  {
    var d := DepsFor(CFG, w, SECOND);
    NothingSpent(w);
    assert PoolAt(w, POOL) == 0;
    hide Spendable, PoolReserve, PoolSpent, ServedToday, PoolCampaigns;
    assert Passes(d, Project());
    KeepAll(d.campaigns, Passing(d));
  }

  lemma {:induction false} ServesProject(w: World)
    requires PoolMarket(w) && Unused(w)
    ensures var w' := Serve(CFG, w, SECOND, SECOND_NONCE, Coin(), false);
            PoolMarket(w') && w'.impressions == [] && w'.deliveries == [Offered(SECOND, SECOND_NONCE)]
  {
    ProjectIsEligible(w);
    assert DepsFor(CFG, w, SECOND).reserveCpm == MIN_BID_CPM && StageOf(w, SECOND).tour == [];
    hide Select, DepsFor, Serve, Eligible, SpendableFor, StageOf;
    SelectsSole(DepsFor(CFG, w, SECOND), Project(), StageOf(w, SECOND));
    ServeMakes(w, SECOND, SECOND_NONCE, Selection(Project(), 1_000, MIN_BID_CPM));
  }

  /** Billed by the ledger, still pending in the store, and its publisher banned. */
  ghost predicate BilledAndBanned(w: World)
  {
    && w.now == 0 && w.campaigns == [Project()] && w.pools == [Pledged()] && w.bans == {SECOND}
    && w.deliveries == [Offered(SECOND, SECOND_NONCE).(consumed := true)]
    && w.impressions == [Reported(SECOND, SECOND_NONCE, Pending, None)]
    && w.journal == [Topup(Id(9), SPONSOR, FUNDS), ShownOf(Reported(SECOND, SECOND_NONCE, Pending, None))]
  }

  ghost predicate Waiting(w: World)
  {
    && w.now == 0 && w.campaigns == [Project()] && w.pools == [Pledged()] && w.bans == {}
    && w.deliveries == [Offered(SECOND, SECOND_NONCE).(consumed := true)]
    && w.impressions == [Reported(SECOND, SECOND_NONCE, Pending, None)]
    && w.journal == [Topup(Id(9), SPONSOR, FUNDS)]
  }

  lemma {:induction false} ThenWaiting()
    ensures Waiting(Run(CFG, Empty(), ReportedOnce()))
  {
    PoolOpens();
    RunExtends(Opened(), Serving1(SECOND, SECOND_NONCE));
    RunExtends(ShownOnce(), Reporting(SECOND, SECOND_NONCE));
    hide Run, Opened, Serve, Ingest;
    ServesProject(Run(CFG, Empty(), Opened()));
    TakesIn(Run(CFG, Empty(), ShownOnce()), 0, SECOND, SECOND_NONCE);
  }

  lemma {:induction false} BillsOnly(w: World)
    requires Waiting(w)
    ensures var w' := Verify(CFG, w, 0, FAIR, true);
            BilledAndBanned(w'.(bans := w'.bans + {SECOND}))
  {
    Approves(w, 0, SECOND, SECOND_NONCE, true);
    assert Post(w.journal, ShownOf(w.impressions[0])) == w.journal + [ShownOf(w.impressions[0])];
    hide Verify;
  }

  lemma {:induction false} ThenBilledAndBanned()
    ensures BilledAndBanned(Run(CFG, Empty(), Banned()))
  {
    ThenWaiting();
    RunExtends(ReportedOnce(), Verifying(0, true));
    RunExtends(BilledOnly(), Market(DoBan(SECOND)));
    hide Run, ReportedOnce, Verify, Waiting, BilledAndBanned;
    BillsOnly(Run(CFG, Empty(), ReportedOnce()));
  }

  lemma {:induction false} SpentHere(w: World)
    requires BilledAndBanned(w)
    ensures PoolSpent(w, POOL) == 1_000
    ensures RateIn(PoolCampaigns(w, POOL))(OfImpression(w.impressions[0])) == 1_000
  {
    assert Project() in w.campaigns;
    assert PRODUCT in PoolCampaigns(w, POOL);
    var v := RateIn(PoolCampaigns(w, POOL));
    SumAppend([], w.deliveries[0], LiveWeight(w.now, v));
    SumAppend([], w.impressions[0], CountedWeight(v, 0));
    assert w.deliveries == [] + w.deliveries && w.impressions == [] + w.impressions;
  }

  lemma {:induction false} FreeHere(w: World)
    requires BilledAndBanned(w)
    ensures Free(w, SPONSOR) == FUNDS - 1_000
    ensures HasId(w.journal, ShownId(w.impressions[0].id))
  {
    var v := RateOf(SPONSOR);
    SumAppend([], w.journal[0], Effect(Advertiser(SPONSOR)));
    SumAppend([w.journal[0]], w.journal[1], Effect(Advertiser(SPONSOR)));
    assert [] + [w.journal[0]] == [w.journal[0]] && [w.journal[0]] + [w.journal[1]] == w.journal;
    assert IdOf(w.journal[1]) == ShownId(w.impressions[0].id);
    SumAppend([], w.deliveries[0], LiveWeight(w.now, v));
    SumAppend([], w.impressions[0], UnpostedWeight(w.journal, v));
    assert w.deliveries == [] + w.deliveries && w.impressions == [] + w.impressions;
  }

  lemma {:induction false} ReserveHere(w: World)
    requires BilledAndBanned(w)
    ensures PoolReserve(w, SPONSOR) == FUNDS - 1_000
    ensures Raise(w, SPONSOR, OfImpression(w.impressions[0])) == 1_000
  {
    SpentHere(w);
    hide PoolSpent, PoolCampaigns, RateIn;
    SumAppend([], w.pools[0], ReserveWeight(w, SPONSOR));
    SumAppend([], w.pools[0], (p: Pool) => RaiseValue(w, SPONSOR, OfImpression(w.impressions[0]), p));
    assert w.pools == [] + w.pools;
  }

  /**
    The one step that uncovers a pool happens: the sponsor's free money just covers the reserve, the ban
    rejects the impression he was billed for, and the reserve is left short by its rate.
    */
  lemma {:induction false} CrashAndBanUncoversThePool()
    ensures var w, e := Run(CFG, Empty(), Banned()), Verifying(0, false);
            && Slack(w, SPONSOR) == 0 && RejectsBilled(CFG, w, e)
            && Raise(w, SPONSOR, OfImpression(w.impressions[0])) == 1_000
            && Slack(Run(CFG, Empty(), Banned() + [e]), SPONSOR) == -1_000
  {
    var w := Run(CFG, Empty(), Banned());
    ThenBilledAndBanned();
    Reachable(CFG, Banned());
    FreeHere(w);
    ReserveHere(w);
    RunExtends(Banned(), Verifying(0, false));
    hide Run, Banned, Free, PoolReserve, Raise, Good;
    CoverRejects(CFG, w, Verifying(0, false).ad, SPONSOR);
    hide AdStep;
  }
}
