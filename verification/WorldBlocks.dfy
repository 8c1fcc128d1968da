/** A campaign that bought b blocks is never charged, or committed to, more than 1000 b impressions. */
module WorldBlocks {
  import opened Common
  import opened Sums
  import opened Ledger
  import opened Selector
  import opened Serving
  import opened World
  import opened WorldShape
  import opened Commitments
  import opened WorldMoney
  import opened WorldAudit
  import opened WorldBilling

  /** Impressions billed, waiting to be billed, or still on a client's screen; each counted once. */
  function Used(w: World, campaign: Id): int
  {
    Billed(w.journal, campaign) + Exposed(w, OneOf(campaign))
  }

  ghost predicate WithinBlocks(w: World, c: Campaign)
  {
    c.blocks.Some? ==> Used(w, c.id) <= c.blocks.value * IMPRESSIONS_PER_BLOCK
  }

  ghost predicate Blocks(w: World)
  {
    forall i {:trigger w.campaigns[i]} :: 0 <= i < |w.campaigns| ==> WithinBlocks(w, w.campaigns[i])
  }

  /** `committedImpressions` counts everything used, and a pending impression the ledger already billed twice. */
  lemma {:induction false} CommittedCovers(w: World, campaign: Id)
    ensures Used(w, campaign) <= Committed(w, campaign)
  {
    ExposedIsNotNegative(w, OneOf(campaign));
  }

  /** What one event may do to the count of one campaign. */
  ghost predicate UsesNoMore(w: World, w': World, campaign: Id) { Used(w', campaign) <= Used(w, campaign) }

  lemma {:induction false} UsedServe(cfg: Config, w: World, p: Id, n: Id, coin: (Id, Id) -> bool, crash: bool, c: Campaign)
    requires Catalogue(w) && Offers(w) && Reports(w) && c in w.campaigns && WithinBlocks(w, c)
    ensures WithinBlocks(Serve(cfg, w, p, n, coin, crash), c)
  {
    var made := ServeAffords(cfg, w, p, n, coin, crash);
    var w' := Serve(cfg, w, p, n, coin, crash);
    hide Serve, Committed;
    if made.Some? {
      var d := DeliveryFor(made.value, p, n, w.now);
      ServeCommits(w, w', d, OneOf(c.id));
      CommittedCovers(w, c.id);
    }
  }

  lemma {:induction false} UsedVerify(cfg: Config, w: World, k: nat, o: Oracle, crash: bool, campaign: Id)
    requires Reports(w)
    ensures UsesNoMore(w, Verify(cfg, w, k, o, crash), campaign)
  {
    var billed, denied := VerifyCommits(cfg, w, k, o, crash, OneOf(campaign), 0);
    hide Verify;
    if billed {
      SumAppend(w.journal, ShownOf(w.impressions[k]), BilledWeight(campaign));
    }
  }

  lemma {:induction false} UsedIngest(cfg: Config, w: World, p: Id, ev: Report, crash: IngestCrash, campaign: Id)
    requires Offers(w)
    ensures UsesNoMore(w, Ingest(cfg, w, p, ev, crash), campaign)
  {
    IngestCommits(cfg, w, p, ev, crash, OneOf(campaign), 0);
    hide Ingest;
  }

  lemma {:induction false} UsedVacuum(w: World, before: int, campaign: Id)
    ensures UsesNoMore(w, Vacuum(w, before), campaign)
  {
    VacuumCommits(w, before, OneOf(campaign));
    hide Vacuum;
  }

  lemma {:induction false} UsedFrame(w: World, w': World, campaign: Id)
    requires w'.deliveries == w.deliveries && w'.impressions == w.impressions && w'.now == w.now
    requires w'.journal == w.journal || exists p :: w'.journal == Post(w.journal, p) && !p.Shown?
    ensures UsesNoMore(w, w', campaign)
  {
    if w'.journal != w.journal {
      var p :| w'.journal == Post(w.journal, p) && !p.Shown?;
      OtherPostCommits(w.journal, p, w.impressions, OneOf(campaign));
      SumAppend(w.journal, p, BilledWeight(campaign));
    }
  }

  lemma {:induction false} BlocksAd(cfg: Config, w: World, e: AdEvent, c: Campaign)
    requires Catalogue(w) && Offers(w) && Reports(w) && c in w.campaigns && WithinBlocks(w, c)
    ensures WithinBlocks(AdStep(cfg, w, e), c)
  {
    hide Serve, Ingest, Verify, Vacuum, Used;
    match e {
      case DoServe(p, n, coin, crash) => UsedServe(cfg, w, p, n, coin, crash, c);
      case DoIngest(p, ev, crash) => UsedIngest(cfg, w, p, ev, crash, c.id);
      case DoVerify(k, o, crash) => UsedVerify(cfg, w, k, o, crash, c.id);
      case DoRestart => UsedFrame(w, Reboot(w), c.id);
      case DoVacuum(before) => UsedVacuum(w, before, c.id);
    }
  }

  lemma {:induction false} BlocksOther(cfg: Config, w: World, e: Event, campaign: Id)
    requires Good(w) && !e.Ad?
    ensures UsesNoMore(w, Step(cfg, w, e), campaign)
  {
    hide AdStep, PayStep, MarketStep;
    match e {
      case Tick(ms) =>
        TickCommits(w, ms, OneOf(campaign));
      case Pay(q) =>
        var p := PayWrites(cfg, w, q);
        UsedFrame(w, Step(cfg, w, e), campaign);
      case Market(m) => UsedFrame(w, Step(cfg, w, e), campaign);
    }
  }

  /** A campaign nobody has heard of has nothing on its account. */
  lemma {:induction false} UnknownIsUnused(w: World, campaign: Id)
    requires Good(w) && Charges(w) && !KnownCampaign(w, campaign)
    ensures Used(w, campaign) == 0
  {
    forall i | 0 <= i < |w.campaigns| ensures w.campaigns[i].id != campaign {
      assert w.campaigns[i] in w.campaigns;
    }
    forall k | 0 <= k < |w.journal| ensures BilledWeight(campaign)(w.journal[k]) == 0 {
      assert Explained(w, w.journal[k]);
      if n :| ChargeFor(w, w.journal[k], n) {
        assert GoodOffer(w.campaigns, n, w.served[n]);
      }
    }
    SumZero(w.journal, BilledWeight(campaign));
    forall k | 0 <= k < |w.deliveries| ensures w.deliveries[k].campaign != campaign {
      assert Registered(w, w.deliveries[k]) && GoodOffer(w.campaigns, w.deliveries[k].nonce, w.served[w.deliveries[k].nonce]);
    }
    SumZero(w.deliveries, LiveWeight(w.now, OneOf(campaign)));
    forall k | 0 <= k < |w.impressions| ensures w.impressions[k].state == Pending ==> w.impressions[k].campaign != campaign {
      assert GoodReport(w, w.impressions[k]);
      assert w.impressions[k].state == Pending ==> GoodOffer(w.campaigns, w.impressions[k].nonce, w.served[w.impressions[k].nonce]);
    }
    SumZero(w.impressions, UnpostedWeight(w.journal, OneOf(campaign)));
  }

  /** Where the campaigns of the next world come from. */
  lemma {:induction false} CampaignOrigins(w: World, e: MarketEvent, i: nat)
    requires i < |MarketStep(w, e).campaigns|
    ensures var c := MarketStep(w, e).campaigns[i];
            || (i < |w.campaigns| && SameCampaign(w.campaigns[i], c))
            || (i >= |w.campaigns| && !KnownCampaign(w, c.id))
  {}

  lemma {:induction false} BlocksStep(cfg: Config, w: World, e: Event)
    requires Good(w) && Charges(w) && Blocks(w)
    ensures Blocks(Step(cfg, w, e))
  {
    hide AdStep, PayStep, MarketStep, Used;
    var w' := Step(cfg, w, e);
    forall i | 0 <= i < |w'.campaigns| ensures WithinBlocks(w', w'.campaigns[i]) {
      var c := w'.campaigns[i];
      if e.Ad? {
        assert WithinBlocks(w, w.campaigns[i]);
        BlocksAd(cfg, w, e.ad, c);
      } else {
        BlocksOther(cfg, w, e, c.id);
        if e.Market? {
          CampaignOrigins(w, e.market, i);
        }
        if i < |w.campaigns| {
          assert WithinBlocks(w, w.campaigns[i]);
        } else {
          UnknownIsUnused(w, c.id);
        }
      }
    }
  }

  lemma {:induction false} BlocksInRuns(cfg: Config, events: seq<Event>)
    ensures Blocks(Run(cfg, Empty(), events))
  {
    if |events| > 0 {
      var before := events[..|events| - 1];
      BlocksInRuns(cfg, before);
      ChargesInRuns(cfg, before);
      hide Step;
      BlocksStep(cfg, Run(cfg, Empty(), before), events[|events| - 1]);
    }
  }

  /**
    In every run, what a campaign of b blocks was billed for, plus what is pending and unbilled, plus
    what is out on clients' screens, is at most 1000 b.
    */
  lemma {:induction false} NoBlockIsOversold(cfg: Config, events: seq<Event>, c: Campaign)
    requires c in Run(cfg, Empty(), events).campaigns && c.blocks.Some?
    ensures var w := Run(cfg, Empty(), events);
            && 0 <= LiveSum(w, OneOf(c.id)) && 0 <= UnpostedSum(w, OneOf(c.id))
            && Billed(w.journal, c.id) + UnpostedSum(w, OneOf(c.id)) + LiveSum(w, OneOf(c.id))
                 <= c.blocks.value * IMPRESSIONS_PER_BLOCK
  {
    BlocksInRuns(cfg, events);
    var w := Run(cfg, Empty(), events);
    hide Run;
    ExposedIsNotNegative(w, OneOf(c.id));
    var i :| 0 <= i < |w.campaigns| && w.campaigns[i] == c;
    assert WithinBlocks(w, w.campaigns[i]);
  }
}
