/** Every reachable world keeps all invariants; its ledger passes the audit and never overflows. */
module WorldAudit {
  import opened Common
  import opened Money
  import opened Sums
  import opened Ledger
  import opened LedgerFacts
  import opened LedgerBounds
  import opened LedgerBook
  import opened LedgerAudit
  import opened Serving
  import opened World
  import opened WorldShape
  import opened PayoutLinks
  import opened WorldPayouts
  import opened Commitments
  import opened WorldMoney

  ghost predicate Good(w: World)
  {
    Catalogue(w) && Offers(w) && Reports(w) && Payouts(w) && Reserved(w) && AlwaysSolvent(w.journal)
  }

  lemma {:induction false} SolventGrows(j: seq<Posting>, p: Posting)
    requires AlwaysSolvent(j) && forall a :: Internal(a) ==> 0 <= Balance(j + [p], a)
    ensures AlwaysSolvent(j + [p])
  {
    var grown := j + [p];
    forall n, a {:trigger Balance(grown[..n], a)} | 0 <= n <= |grown| && Internal(a) ensures 0 <= Balance(grown[..n], a) {
      if n <= |j| {
        assert grown[..n] == j[..n];
      } else {
        assert grown[..n] == grown;
      }
    }
  }

  /** Money an account holds after one more posting, given what the surrounding world guarantees. */
  lemma {:induction false} AccountsHold(w: World, w': World, p: Posting, a: Account)
    requires Offers(w') && Reports(w') && Payouts(w') && Reserved(w')
    requires w'.journal == w.journal + [p] && AlwaysSolvent(w.journal) && Internal(a)
    requires a.Publisher? || a.PlatformRevenue? ==>
               0 <= EffectOf(p, a) || -EffectOf(p, a) <= Balance(w.journal, a)
    ensures 0 <= Balance(w'.journal, a)
  {
    if a.Advertiser? {
      assert 0 <= Free(w', a.owner);
      RatesWeigh(w', a.owner, {});
      ExposedIsNotNegative(w', RateOf(a.owner));
    } else if a.PayoutsInFlight? {
      BoxBalance(w'.journal);
    } else {
      assert w.journal[..|w.journal|] == w.journal;
      assert 0 <= Balance(w.journal, a);
      SumAppend(w.journal, p, Effect(a));
    }
  }

  lemma {:induction false} SolventStep(cfg: Config, w: World, e: Event)
    requires Good(w)
    requires var w' := Step(cfg, w, e); Offers(w') && Reports(w') && Payouts(w') && Reserved(w')
    ensures AlwaysSolvent(Step(cfg, w, e).journal)
  {
    var w' := Step(cfg, w, e);
    var p := StepWrites(cfg, w, e);
    hide Step;
    if p.Some? && w'.journal != w.journal {
      forall a | Internal(a) ensures 0 <= Balance(w'.journal, a) {
        PublishersAfford(w, w', p.value, a);
        AccountsHold(w, w', p.value, a);
      }
      SolventGrows(w.journal, p.value);
    }
  }

  /** The posting a step writes: a payment, or an impression that was pending. */
  ghost predicate Entered(w: World, w': World, p: Posting)
  {
    || Written(w, w', p)
    || (w'.journal == Post(w.journal, p)
        && exists k :: 0 <= k < |w.impressions| && p == ShownOf(w.impressions[k]) && CanPostImpression(w.impressions[k])
                       && w.impressions[k].state == Pending)
  }

  lemma {:induction false} StepWrites(cfg: Config, w: World, e: Event) returns (p: Option<Posting>)
    requires Payouts(w)
    ensures p.None? ==> Step(cfg, w, e).journal == w.journal
    ensures p.Some? ==> Entered(w, Step(cfg, w, e), p.value)
  {
    hide AdStep, PayStep, MarketStep;
    match e {
      case Ad(a) => p := AdWrites(cfg, w, a);
      case Pay(q) => p := PayWrites(cfg, w, q);
      case _ => p := None;
    }
  }

  lemma {:induction false} AdWrites(cfg: Config, w: World, e: AdEvent) returns (p: Option<Posting>)
    ensures p.None? ==> AdStep(cfg, w, e).journal == w.journal
    ensures p.Some? ==> p.value.Shown? && Entered(w, AdStep(cfg, w, e), p.value)
  {
    hide Serve, Ingest, Verify, Vacuum;
    p := None;
    if e.DoVerify? {
      var posted, decided := VerifyCases(cfg, w, e.k, e.oracle, e.crash);
      if posted {
        p := Some(ShownOf(w.impressions[e.k]));
      }
    }
  }

  lemma {:induction false} PublishersAfford(w: World, w': World, p: Posting, a: Account)
    requires Offers(w) && Reports(w) && Payouts(w) && Entered(w, w', p) && Internal(a)
    ensures a.Publisher? || a.PlatformRevenue? ==> 0 <= EffectOf(p, a) || -EffectOf(p, a) <= Balance(w.journal, a)
  {
    if Written(w, w', p) {
      WrittenAffords(w, w', p, a);
    } else {
      var k :| 0 <= k < |w.impressions| && p == ShownOf(w.impressions[k]) && CanPostImpression(w.impressions[k]);
      ShareBounds(p.rate, p.bps);
    }
  }

  lemma {:induction false} GoodStep(cfg: Config, w: World, e: Event)
    requires Good(w)
    ensures Good(Step(cfg, w, e))
  {
    hide Step;
    CatalogueStep(cfg, w, e);
    OffersStep(cfg, w, e);
    ReportsStep(cfg, w, e);
    PayoutsStep(cfg, w, e);
    ReservedStep(cfg, w, e);
    SolventStep(cfg, w, e);
  }

  lemma {:induction false} Reachable(cfg: Config, events: seq<Event>)
    ensures Good(Run(cfg, Empty(), events))
  {
    if |events| > 0 {
      Reachable(cfg, events[..|events| - 1]);
      hide Step;
      GoodStep(cfg, Run(cfg, Empty(), events[..|events| - 1]), events[|events| - 1]);
    }
  }

  /* ---------- main results about money ---------- */

  /**
    Solvency: in every run, whatever is served, reported, verified, deposited, expired, withdrawn,
    crashed or restarted in between, an advertiser's balance covers its live unreported deliveries
    and its pending impressions not billed yet.
    */
  lemma {:induction false} AdvertisersStaySolvent(cfg: Config, events: seq<Event>, a: Id)
    ensures var w := Run(cfg, Empty(), events);
            && 0 <= LiveSum(w, RateOf(a)) && 0 <= UnpostedSum(w, RateOf(a))
            && LiveSum(w, RateOf(a)) + UnpostedSum(w, RateOf(a)) <= EntryBalance(Expand(w.journal), Advertiser(a))
  {
    Reachable(cfg, events);
    var w := Run(cfg, Empty(), events);
    hide Run;
    assert 0 <= Free(w, a);
    RatesWeigh(w, a, {});
    ExposedIsNotNegative(w, RateOf(a));
    BalanceOfEntries(w.journal, Advertiser(a));
  }

  /** `audit` finds nothing in any run. */
  lemma {:induction false} AuditAlwaysClean(cfg: Config, events: seq<Event>)
    ensures AuditClean(Expand(Run(cfg, Empty(), events).journal))
  {
    Reachable(cfg, events);
    AuditIsClean(Run(cfg, Empty(), events).journal);
  }

  /**
    While the deposits fit in 64 bits, no running total of any run leaves that range: not inside
    `balance`, not inside `audit`, not inside `inFlightFrom`, and not inside a group being posted.
    */
  lemma {:induction false} NoMoneyError(cfg: Config, events: seq<Event>)
    requires Deposits(Run(cfg, Empty(), events).journal) <= MAX_STROOPS
    ensures var j := Run(cfg, Empty(), events).journal;
            && (forall a {:trigger AmountIn(a)} :: NoOverflow(Expand(j), AmountIn(a)))
            && AllInRange(Expand(j), RefOf()) && AllInRange(Expand(j), AccountOf())
            && (forall a {:trigger RefsFrom(Expand(j), a)} :: NoOverflow(Expand(j), InBoxUnder(AmongRefs(RefsFrom(Expand(j), a)))))
            && (forall k :: 0 <= k < |j| ==> NoOverflow(EntriesOf(j[k]), Amounts()))
  {
    Reachable(cfg, events);
    var j := Run(cfg, Empty(), events).journal;
    assert SoundJournal(j) && PayoutShape(j) && AlwaysSolvent(j);
    hide Run, Good, Catalogue, Offers, Reports, Payouts, Reserved, AlwaysSolvent, SoundJournal, PayoutShape;
    NoOverflowInJournal(j);
  }

  /** `inFlightFrom` is exact for each source, and the sources together are the whole box, in every run. */
  lemma {:induction false} InFlightAlwaysPartitioned(cfg: Config, events: seq<Event>, accounts: seq<Account>)
    requires ListsSources(accounts, Run(cfg, Empty(), events).journal)
    ensures var j := Run(cfg, Empty(), events).journal;
            && Sum(accounts, InFlightFromIn(Expand(j))) == EntryBalance(Expand(j), PayoutsInFlight)
            && forall a :: a in accounts ==> InFlightFrom(Expand(j), a) == OpenFrom(j, a)
  {
    Reachable(cfg, events);
    var j := Run(cfg, Empty(), events).journal;
    hide Run;
    InFlightPartition(j, accounts);
    forall a | a in accounts ensures InFlightFrom(Expand(j), a) == OpenFrom(j, a) {
      InFlightFromIsOpen(j, a);
    }
  }

  /** Which slots a publisher has left is no part of the invariant. */
  lemma {:induction false} GoodForgetsSlots(w: World, w': World)
    requires Good(w) && w' == w.(returned := w'.returned, stages := w'.stages)
    ensures Good(w')
  {
    forall i | 0 <= i < |w'.campaigns| ensures Sponsored(w', w'.campaigns[i]) {
      assert Sponsored(w, w.campaigns[i]);
    }
    forall i | 0 <= i < |w'.deliveries| ensures Registered(w', w'.deliveries[i]) {
      assert Registered(w, w.deliveries[i]);
    }
    forall k | 0 <= k < |w'.impressions| ensures GoodReport(w', w'.impressions[k]) {
      assert GoodReport(w, w.impressions[k]);
    }
    forall i | 0 <= i < |w'.items| ensures ItemLinked(w', w'.items[i]) {
      assert ItemLinked(w, w.items[i]);
    }
    forall q | q in w'.procs ensures ProcLinked(w', w'.procs[q]) {
      assert ProcLinked(w, w.procs[q]);
    }
    forall a ensures 0 <= Free(w', a) {
      assert Free(w', a) == Free(w, a);
    }
    hide Sponsored, Registered, GoodReport, ItemLinked, ProcLinked, Free, GoodOffer, Linked, AlwaysSolvent;
  }
}
