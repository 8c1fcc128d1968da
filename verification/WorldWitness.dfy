/**
  Two runs that show what billing does not promise: one impression id used by two publishers pays only
  the first, and a crash between the ledger and the record lets a ban reject what was already billed.
  */
module WorldWitness {
  import opened Common
  import opened Sums
  import opened Ledger
  import opened Selector
  import opened Serving
  import opened World

  const CFG: Config := Config(0, [], 0, 10, MIN_BID_CPM, 40_000)
  const SPONSOR: Id := Id(1)
  const PRODUCT: Id := Id(2)
  const FIRST: Id := Id(3)
  const SECOND: Id := Id(4)
  const REPORT: Id := Id(5)
  const FIRST_NONCE: Id := Id(6)
  const SECOND_NONCE: Id := Id(7)
  const FUNDS: int := 10_000_000
  const FAIR: Oracle := Oracle(false, false)

  function Coin(): (Id, Id) -> bool { (a: Id, b: Id) => true }

  function Seen1(nonce: Id): Report { Report(REPORT, PRODUCT, nonce, Statusline, 0, 0, []) }

  function Sole(): Campaign
  {
    Campaign(PRODUCT, SPONSOR, MIN_BID_CPM, DEFAULT_SHARE_BPS, Active, None, None, None, None)
  }

  function Offered(publisher: Id, nonce: Id): Delivery
  {
    Delivery(nonce, publisher, PRODUCT, SPONSOR, 1_000, DEFAULT_SHARE_BPS, NONCE_TTL_MS, false)
  }

  function Reported(publisher: Id, nonce: Id, state: State, reason: Option<Reason>): Impression
  {
    Impression(REPORT, publisher, PRODUCT, SPONSOR, nonce, 0, 1_000, DEFAULT_SHARE_BPS, 0, state, reason)
  }

  lemma {:induction false} RunExtends(events: seq<Event>, e: Event)
    ensures Run(CFG, Empty(), events + [e]) == Step(CFG, Run(CFG, Empty(), events), e)
  {
    RunNext(CFG, Empty(), events, e);
    hide Run, Step;
  }

  /** A market with one funded, running campaign. */
  ghost predicate Market1(w: World)
  {
    && w.now == 0 && w.campaigns == [Sole()] && w.pools == [] && w.members == map[] && w.bans == {}
    && w.journal == [Topup(Id(9), SPONSOR, FUNDS)] && w.impressions == []
  }

  function Opening(): seq<Event>
  {
    [Pay(DoDeposit(SPONSOR, FUNDS, Id(9))), Market(DoNewCampaign(PRODUCT, SPONSOR, MIN_BID_CPM, None, None)),
     Market(DoSetStatus(0, Active))]
  }

  lemma {:induction false} MarketOpens()
    ensures var w := Run(CFG, Empty(), Opening());
            Market1(w) && w.deliveries == [] && w.served == map[] && w.stages == map[]
  {
    var e := Opening();
    RunExtends([], e[0]);
    RunExtends([e[0]], e[1]);
    RunExtends([e[0], e[1]], e[2]);
    assert [e[0]] + [e[1]] == [e[0], e[1]];
    assert [e[0], e[1]] + [e[2]] == e;
  }

  lemma {:induction false} ReservedOf(w: World)
    requires Market1(w) && |w.deliveries| <= 1
    requires |w.deliveries| == 1 ==> w.deliveries[0].rate == 1_000
    ensures Spendable(w, SPONSOR) >= 1_000
    ensures PoolReserve(w, SPONSOR) == 0
  {
    SumAppend([], w.journal[0], Effect(Advertiser(SPONSOR)));
    assert w.journal == [] + [w.journal[0]];
    if |w.deliveries| == 1 {
      assert w.deliveries == [] + [w.deliveries[0]];
      SumAppend([], w.deliveries[0], LiveWeight(w.now, RateOf(SPONSOR)));
    }
  }

  lemma {:induction false} SoleIsEligible(w: World, publisher: Id)
    requires Market1(w) && |w.deliveries| <= 1
    requires |w.deliveries| == 1 ==> w.deliveries[0].rate == 1_000
    ensures Eligible(DepsFor(CFG, w, publisher)) == [Sole()]
    ensures SpendableFor(DepsFor(CFG, w, publisher), Sole()) >= 1_000
  {
    var d := DepsFor(CFG, w, publisher);
    ReservedOf(w);
    hide Spendable, PoolReserve;
    assert Passes(d, Sole());
    KeepAll(d.campaigns, Passing(d));
  }

  lemma {:induction false} SoleTour(c: Campaign, stage: Stage)
    requires stage.tour == [] && c.bid == MIN_BID_CPM
    ensures CurrentTour(stage, [c], Coin())[0] == c.id
    ensures Find([c], c.id) == c
    ensures ClearingCpm([c], c, CFG.reserveCpm) == MIN_BID_CPM
  {
    assert c in [c];
    var tour := CurrentTour(stage, [c], Coin());
    assert Named([c]) == {c.id};
  }

  lemma {:induction false} SelectsSole(d: Deps, c: Campaign, stage: Stage)
    requires Eligible(d) == [c] && SpendableFor(d, c) >= 1_000 && d.reserveCpm == MIN_BID_CPM
    requires stage.tour == [] && c.bid == MIN_BID_CPM
    ensures Select(d, stage, Coin()).0 == Some(Selection(c, 1_000, MIN_BID_CPM))
  {
    SoleTour(c, stage);
    hide Eligible, CurrentTour, Find, ClearingCpm, SpendableFor;
  }

  lemma {:induction false} NothingReturned(w: World, publisher: Id)
    requires forall k :: 0 <= k < |w.deliveries| ==> w.deliveries[k].expiresAt >= w.now
    ensures ReturnSlots(w, publisher) == w
  {
    KeepNone(w.deliveries, (d: Delivery) =>
      d.publisher == publisher && !d.consumed && d.expiresAt < w.now && d.nonce !in w.returned);
    assert w.returned + {} == w.returned;
  }

  lemma {:induction false} NothingDropped(w: World, d: Delivery)
    requires forall k :: 0 <= k < |w.deliveries| ==> w.deliveries[k].expiresAt >= w.now
    requires d.expiresAt >= w.now
    ensures AddDelivery(w, d).deliveries == w.deliveries + [d]
  {
    KeepAll(w.deliveries + [d], (x: Delivery) => KeptByGc(x, w.now));
  }

  lemma {:induction false} ServeMakes(w: World, publisher: Id, nonce: Id, s: Selection)
    requires Select(DepsFor(CFG, w, publisher), StageOf(w, publisher), Coin()).0 == Some(s)
    requires publisher !in w.bans && nonce !in w.served
    requires forall k :: 0 <= k < |w.deliveries| ==> w.deliveries[k].expiresAt >= w.now
    ensures var w' := Serve(CFG, w, publisher, nonce, Coin(), false);
            var d := DeliveryFor(s, publisher, nonce, w.now);
            && w' == w.(deliveries := w.deliveries + [d], served := w.served[nonce := d],
                        returned := w'.returned, stages := w'.stages)
            && (forall p :: p in w'.stages ==> p in w.stages || p == publisher)
  {
    NothingReturned(w, publisher);
    ServesChosen(w, publisher, nonce, s);
    var stage := Select(DepsFor(CFG, w, publisher), StageOf(w, publisher), Coin()).1;
    var w2 := w.(stages := w.stages[publisher := stage]);
    NothingDropped(w2, DeliveryFor(s, publisher, nonce, w.now));
    hide Serve, Select, ReturnSlots, DepsFor, KeptByGc, DroppedByGc, Keep;
  }

  lemma {:induction false} ServesChosen(w: World, publisher: Id, nonce: Id, s: Selection)
    requires Select(DepsFor(CFG, w, publisher), StageOf(w, publisher), Coin()).0 == Some(s)
    requires publisher !in w.bans && nonce !in w.served && ReturnSlots(w, publisher) == w
    ensures var stage := Select(DepsFor(CFG, w, publisher), StageOf(w, publisher), Coin()).1;
            Serve(CFG, w, publisher, nonce, Coin(), false) ==
            AddDelivery(w.(stages := w.stages[publisher := stage]), DeliveryFor(s, publisher, nonce, w.now))
  {
    hide Select, ReturnSlots, DepsFor, AddDelivery;
  }

  /** With one campaign and no expired delivery, a serve step hands out that campaign's ad. */
  lemma {:induction false} ServesSole(w: World, publisher: Id, nonce: Id)
    requires Market1(w) && |w.deliveries| <= 1 && nonce !in w.served && publisher !in w.stages
    requires |w.deliveries| == 1 ==> w.deliveries[0].rate == 1_000 && w.deliveries[0].expiresAt == NONCE_TTL_MS
    ensures var w' := Serve(CFG, w, publisher, nonce, Coin(), false);
            && Market1(w') && w'.deliveries == w.deliveries + [Offered(publisher, nonce)]
            && w'.served == w.served[nonce := Offered(publisher, nonce)]
            && (forall p :: p in w'.stages ==> p in w.stages || p == publisher)
  {
    SoleIsEligible(w, publisher);
    SelectsSole(DepsFor(CFG, w, publisher), Sole(), StageOf(w, publisher));
    hide Select, DepsFor, Serve;
    ServeMakes(w, publisher, nonce, Selection(Sole(), 1_000, MIN_BID_CPM));
  }

  /** A report on a live ad, with an id its publisher has not used, is accepted. */
  lemma {:induction false} TakesIn(w: World, k: nat, publisher: Id, nonce: Id)
    requires w.now == 0 && k < |w.deliveries| && w.deliveries[k] == Offered(publisher, nonce)
    requires forall i :: 0 <= i < |w.deliveries| && i != k ==> w.deliveries[i].nonce != nonce
    requires !Seen(w.impressions, publisher, REPORT)
    ensures var w' := Ingest(CFG, w, publisher, Seen1(nonce), NoCrash);
            && w' == w.(deliveries := w'.deliveries, backs := w'.backs,
                        impressions := w.impressions + [Reported(publisher, nonce, Pending, None)])
            && w'.deliveries == w.deliveries[k := w.deliveries[k].(consumed := true)]
  {
    assert DeliveryAt(w.deliveries, nonce) == k;
  }

  lemma {:induction false} NobodyVerified(imps: seq<Impression>, publisher: Id)
    ensures Sum(imps, VerifiedThatDayWeight(publisher, 0)) <= |imps|
    decreases |imps|
  {
    if |imps| > 0 {
      NobodyVerified(imps[..|imps| - 1], publisher);
    }
  }

  lemma {:induction false} Approves(w: World, k: nat, publisher: Id, nonce: Id, crash: bool)
    requires w.now == 0 && w.bans == {} && k < |w.impressions| < 10
    requires w.impressions[k] == Reported(publisher, nonce, Pending, None)
    ensures var w' := Verify(CFG, w, k, FAIR, crash);
            && w'.journal == Post(w.journal, ShownOf(w.impressions[k]))
            && w'.impressions == (if crash then w.impressions
                                  else w.impressions[k := Reported(publisher, nonce, Verified, None)])
            && w'.deliveries == w.deliveries && w'.now == w.now && w'.bans == w.bans
  {
    NobodyVerified(w.impressions, publisher);
  }

  function Serving1(publisher: Id, nonce: Id): Event { Ad(DoServe(publisher, nonce, Coin(), false)) }
  function Reporting(publisher: Id, nonce: Id): Event { Ad(DoIngest(publisher, Seen1(nonce), NoCrash)) }
  function Verifying(k: nat, crash: bool): Event { Ad(DoVerify(k, FAIR, crash)) }

  function OneServed(): seq<Event> { Opening() + [Serving1(FIRST, FIRST_NONCE)] }
  function BothServed(): seq<Event> { OneServed() + [Serving1(SECOND, SECOND_NONCE)] }
  function OneReported(): seq<Event> { BothServed() + [Reporting(FIRST, FIRST_NONCE)] }
  function BothReported(): seq<Event> { OneReported() + [Reporting(SECOND, SECOND_NONCE)] }
  function OneVerified(crash: bool): seq<Event> { BothReported() + [Verifying(0, crash)] }

  lemma {:induction false} ServesBoth()
    ensures var w := Run(CFG, Empty(), BothServed());
            Market1(w) && w.deliveries == [Offered(FIRST, FIRST_NONCE), Offered(SECOND, SECOND_NONCE)]
  {
    MarketOpens();
    RunExtends(Opening(), Serving1(FIRST, FIRST_NONCE));
    RunExtends(OneServed(), Serving1(SECOND, SECOND_NONCE));
    hide Run, Serve, Opening;
    ServesSole(Run(CFG, Empty(), Opening()), FIRST, FIRST_NONCE);
    ServesSole(Run(CFG, Empty(), OneServed()), SECOND, SECOND_NONCE);
  }

  /** Both publishers report with the same id; both reports wait for verification. */
  ghost predicate BothWaiting(w: World)
  {
    && w.now == 0 && w.bans == {} && w.journal == [Topup(Id(9), SPONSOR, FUNDS)]
    && w.impressions == [Reported(FIRST, FIRST_NONCE, Pending, None), Reported(SECOND, SECOND_NONCE, Pending, None)]
  }

  lemma {:induction false} ReportsBoth()
    ensures BothWaiting(Run(CFG, Empty(), BothReported()))
  {
    ServesBoth();
    RunExtends(BothServed(), Reporting(FIRST, FIRST_NONCE));
    RunExtends(OneReported(), Reporting(SECOND, SECOND_NONCE));
    hide Run, Ingest, BothServed;
    TakesIn(Run(CFG, Empty(), BothServed()), 0, FIRST, FIRST_NONCE);
    TakesIn(Run(CFG, Empty(), OneReported()), 1, SECOND, SECOND_NONCE);
  }

  /**
    One id, two publishers: both impressions end up verified, and only the first publisher is paid.
    So "each verified impression pays its own publisher" needs ids that are unique across publishers.
    */
  lemma {:induction false} SharedIdPaysOnlyTheFirst()
    ensures var w := Run(CFG, Empty(), OneVerified(false) + [Verifying(1, false)]);
            && |w.impressions| == 2
            && w.impressions[0].state == Verified && ShownOf(w.impressions[0]) in w.journal
            && w.impressions[1].state == Verified && ShownOf(w.impressions[1]) !in w.journal
  {
    ReportsBoth();
    ThenBothVerified();
    SecondUnpaid(Run(CFG, Empty(), BothReported()));
    hide Run, Verify, BothReported, BothWaiting, OneVerified;
  }

  lemma {:induction false} ThenBothVerified()
    ensures Run(CFG, Empty(), OneVerified(false) + [Verifying(1, false)]) ==
            Verify(CFG, Verify(CFG, Run(CFG, Empty(), BothReported()), 0, FAIR, false), 1, FAIR, false)
  {
    hide Run, Verify, BothReported;
    RunExtends(BothReported(), Verifying(0, false));
    RunExtends(OneVerified(false), Verifying(1, false));
  }

  lemma {:induction false} ThenCrashAndBan()
    ensures var w1 := Verify(CFG, Run(CFG, Empty(), BothReported()), 0, FAIR, true);
            Run(CFG, Empty(), OneVerified(true) + [Market(DoBan(FIRST))] + [Verifying(0, false)]) ==
            Verify(CFG, w1.(bans := w1.bans + {FIRST}), 0, FAIR, false)
  {
    hide Run, Verify, BothReported;
    RunExtends(BothReported(), Verifying(0, true));
    RunExtends(OneVerified(true), Market(DoBan(FIRST)));
    RunExtends(OneVerified(true) + [Market(DoBan(FIRST))], Verifying(0, false));
  }

  lemma {:induction false} FirstBilled(w: World, crash: bool)
    requires BothWaiting(w)
    ensures var w' := Verify(CFG, w, 0, FAIR, crash);
            && w'.journal == [Topup(Id(9), SPONSOR, FUNDS), ShownOf(w.impressions[0])]
            && w'.impressions == [if crash then w.impressions[0] else Reported(FIRST, FIRST_NONCE, Verified, None), w.impressions[1]]
            && w'.now == 0 && w'.bans == {}
  {
    Approves(w, 0, FIRST, FIRST_NONCE, crash);
    hide Verify;
  }

  lemma {:induction false} SecondUnpaid(w: World)
    requires BothWaiting(w)
    ensures var w2 := Verify(CFG, Verify(CFG, w, 0, FAIR, false), 1, FAIR, false);
            && w2.journal == [Topup(Id(9), SPONSOR, FUNDS), ShownOf(w.impressions[0])]
            && w2.impressions == [Reported(FIRST, FIRST_NONCE, Verified, None), Reported(SECOND, SECOND_NONCE, Verified, None)]
  {
    FirstBilled(w, false);
    var w1 := Verify(CFG, w, 0, FAIR, false);
    Approves(w1, 1, SECOND, SECOND_NONCE, false);
    assert IdOf(w1.journal[1]) == ShownId(REPORT);
    hide Verify;
  }

  /** What a ban decides. */
  lemma {:induction false} Denies(w: World, k: nat, publisher: Id, nonce: Id)
    requires publisher in w.bans && k < |w.impressions| && w.impressions[k] == Reported(publisher, nonce, Pending, None)
    ensures Verify(CFG, w, k, FAIR, false) ==
            w.(impressions := w.impressions[k := Reported(publisher, nonce, Rejected, Some(BannedPublisher))])
  {}

  /**
    A crash after the ledger was written and before the record was, then a ban: the impression is
    rejected although the advertiser has paid for it.
    */
  lemma {:induction false} CrashAndBanRejectsWhatWasBilled()
    ensures var w := Run(CFG, Empty(), OneVerified(true) + [Market(DoBan(FIRST))] + [Verifying(0, false)]);
            && |w.impressions| == 2
            && w.impressions[0].state == Rejected && ShownOf(w.impressions[0]) in w.journal
  {
    ReportsBoth();
    ThenCrashAndBan();
    RejectedAfterwards(Run(CFG, Empty(), BothReported()));
    hide Run, Verify, BothReported, BothWaiting, OneVerified;
  }

  lemma {:induction false} RejectedAfterwards(w: World)
    requires BothWaiting(w)
    ensures var w1 := Verify(CFG, w, 0, FAIR, true);
            var w2 := Verify(CFG, w1.(bans := w1.bans + {FIRST}), 0, FAIR, false);
            && w2.journal == [Topup(Id(9), SPONSOR, FUNDS), ShownOf(w.impressions[0])]
            && w2.impressions == [Reported(FIRST, FIRST_NONCE, Rejected, Some(BannedPublisher)), w.impressions[1]]
  {
    FirstBilled(w, true);
    var w1 := Verify(CFG, w, 0, FAIR, true);
    Denies(w1.(bans := w1.bans + {FIRST}), 0, FIRST, FIRST_NONCE);
    hide Verify;
  }
}
