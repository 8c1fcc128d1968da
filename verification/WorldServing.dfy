/** What a publisher is served, at what price, and when nothing: said of the state the request finds. */
module WorldServing {
  import opened Common
  import opened Money
  import opened Selector
  import opened Serving
  import opened World
  import opened WorldShape
  import opened WorldMoney

  /** Members of an open pool see its projects while cap and budget allow; everybody else sees the general network. */
  ghost predicate RightNetwork(w: World, publisher: Id, c: Campaign)
  {
    match c.pool
    case None => forall k :: 0 <= k < |w.pools| && w.pools[k].open ==> publisher !in w.members || w.members[publisher] != w.pools[k].id
    case Some(pool) =>
      && publisher in w.members && w.members[publisher] == pool
      && exists k :: 0 <= k < |w.pools| && w.pools[k].id == pool && w.pools[k].open
                     && ServedToday(w, publisher, PoolCampaigns(w, pool)) < w.pools[k].cap
                     && SpentOn(w, PoolCampaigns(w, pool)) + c.bid / 1000 <= w.pools[k].budget
  }

  /** Everything that must hold for a campaign to be shown to a publisher now. */
  ghost predicate MayShow(w: World, publisher: Id, c: Campaign)
  {
    && c in w.campaigns && c.status == Active && c.submittedBy != Some(publisher) && 0 < c.bid / 1000
    && RightNetwork(w, publisher, c)
    && c.bid / 1000 <= (if c.pool.Some? then Spendable(w, c.advertiser) else Spendable(w, c.advertiser) - PoolReserve(w, c.advertiser))
    && (c.dailyBudget.Some? ==> SpentToday(w, c.id) + c.bid / 1000 <= c.dailyBudget.value)
    && (c.blocks.Some? ==> Committed(w, c.id) < c.blocks.value * 1_000)
  }

  lemma {:induction false} OnePool(w: World, id: Id, k: nat)
    requires UniquePools(w.pools) && k < |w.pools| && w.pools[k].id == id
    ensures PoolAt(w, id) == k
  {}

  lemma {:induction false} PassesExactlyWhen(cfg: Config, w: World, publisher: Id, c: Campaign)
    requires UniquePools(w.pools) && c in w.campaigns
    ensures Passes(DepsFor(cfg, w, publisher), c) <==> MayShow(w, publisher, c)
  {
    NetworkExactly(w, publisher, c);
    hide RightNetwork, Spendable, PoolReserve, Committed, PoolOf, PoolAllows, SpentToday;
  }

  lemma {:induction false} NetworkExactly(w: World, publisher: Id, c: Campaign)
    requires UniquePools(w.pools)
    ensures RightNetwork(w, publisher, c) <==>
            c.pool == PoolOf(w, publisher) && (c.pool.Some? ==> PoolAllows(w, publisher, c.pool.value, RateFromCpm(c.bid)))
  {
    if publisher in w.members {
      var k := PoolAt(w, w.members[publisher]);
      if k >= 0 {
        OnePool(w, w.members[publisher], k);
      }
      hide ServedToday, SpentOn, PoolCampaigns;
    }
  }

  /** Giving slots back first changes nothing about what may be shown. */
  lemma {:induction false} SlotsFirst(w: World, publisher: Id, c: Campaign)
    ensures MayShow(ReturnSlots(w, publisher), publisher, c) <==> MayShow(w, publisher, c)
  {
    var w1 := ReturnSlots(w, publisher);
    ReturnSlotsKeeps(w, publisher);
    SlotsDoNotMatter(w, w1, publisher, Selection(c, 0, 0));
    assert forall pool :: PoolCampaigns(w1, pool) == PoolCampaigns(w, pool);
    assert SpentToday(w1, c.id) == SpentToday(w, c.id);
    forall cs ensures ServedToday(w1, publisher, cs) == ServedToday(w, publisher, cs) && SpentOn(w1, cs) == SpentOn(w, cs) {}
    hide ReturnSlots, Spendable, PoolReserve, Committed, SpentToday, ServedToday, SpentOn, PoolCampaigns, PoolOf, PoolAllows;
  }

  lemma {:induction false} EligibleAre(cfg: Config, w: World, publisher: Id)
    requires UniquePools(w.pools)
    ensures forall c :: c in Eligible(DepsFor(cfg, ReturnSlots(w, publisher), publisher)) <==> MayShow(w, publisher, c)
  {
    var w1 := ReturnSlots(w, publisher);
    ReturnSlotsKeeps(w, publisher);
    hide ReturnSlots, Passes, MayShow;
    forall c ensures c in Eligible(DepsFor(cfg, w1, publisher)) <==> MayShow(w, publisher, c) {
      SlotsFirst(w, publisher, c);
      if c in w.campaigns {
        PassesExactlyWhen(cfg, w1, publisher, c);
      } else {
        assert !MayShow(w, publisher, c) by { NotListed(w, publisher, c); }
      }
    }
  }

  lemma {:induction false} NotListed(w: World, publisher: Id, c: Campaign)
    requires c !in w.campaigns
    ensures !MayShow(w, publisher, c)
  {}

  /** A request performs one selection on the slots as they stand once expired ones are given back. */
  lemma {:induction false} ServeSelects(cfg: Config, w: World, publisher: Id, nonce: Id, coin: (Id, Id) -> bool, crash: bool)
    requires nonce !in w.served
    ensures var w' := Serve(cfg, w, publisher, nonce, coin, crash);
            var w1 := ReturnSlots(w, publisher);
            var (s, stage) := Select(DepsFor(cfg, w1, publisher), StageOf(w1, publisher), coin);
            if publisher in w.bans || s.None? then w'.served == w.served && w'.deliveries == w.deliveries
            else if crash then w'.served == w.served && w'.deliveries == w.deliveries && StageOf(w', publisher).tour == stage.tour
            else
              var d := DeliveryFor(s.value, publisher, nonce, w.now);
              && w'.served == w.served[nonce := d] && StageOf(w', publisher) == stage
              && forall x :: x in w'.deliveries <==> (x in w.deliveries || x == d) && w.now - 3_600_000 <= x.expiresAt
  {
    ReturnSlotsKeeps(w, publisher);
    hide ReturnSlots, DepsFor, Select, Keep;
  }

  /** Something is served exactly when the publisher is not banned and some campaign may be shown. */
  lemma {:induction false} ServedExactlyWhen(cfg: Config, w: World, publisher: Id, nonce: Id, coin: (Id, Id) -> bool)
    requires UniquePools(w.pools) && nonce !in w.served
    ensures nonce in Serve(cfg, w, publisher, nonce, coin, false).served <==>
            publisher !in w.bans && exists c :: MayShow(w, publisher, c)
    ensures nonce !in Serve(cfg, w, publisher, nonce, coin, true).served
  {
    var w1 := ReturnSlots(w, publisher);
    var d := DepsFor(cfg, w1, publisher);
    EligibleAre(cfg, w, publisher);
    SelectionIsAffordable(d, StageOf(w1, publisher), coin);
    ServeSelects(cfg, w, publisher, nonce, coin, false);
    ServeSelects(cfg, w, publisher, nonce, coin, true);
    hide Serve, ReturnSlots, MayShow, Eligible, DepsFor, Select;
    if Eligible(d) != [] {
      assert MayShow(w, publisher, Eligible(d)[0]);
    }
  }

  /**
    What is served: an ad of a campaign that may be shown, at the terms of that campaign, for five minutes. A pool
    pays its price. On the general network the winner pays at most his bid, otherwise the reserve or one step over
    the best bid of a rival that does not exceed his own.
    */
  lemma {:induction false} ServedTerms(cfg: Config, w: World, publisher: Id, nonce: Id, coin: (Id, Id) -> bool)
    returns (c: Campaign, price: nat)
    requires UniquePools(w.pools) && nonce !in w.served
    requires nonce in Serve(cfg, w, publisher, nonce, coin, false).served
    ensures MayShow(w, publisher, c)
    ensures var w' := Serve(cfg, w, publisher, nonce, coin, false);
            var d := Delivery(nonce, publisher, c.id, c.advertiser, price / 1000, c.bps, w.now + 300_000, false);
            w'.served == w.served[nonce := d] && forall x :: x in w'.deliveries <==> (x in w.deliveries || x == d) && w.now - 3_600_000 <= x.expiresAt
    ensures c.pool.Some? ==> price == c.bid
    ensures c.pool.None? ==>
              && Min(cfg.reserveCpm, c.bid) <= price <= c.bid
              && (forall r :: MayShow(w, publisher, r) && r.advertiser != c.advertiser && r.bid <= c.bid ==>
                    price == c.bid || r.bid + 100_000 <= price)
              && (price < c.bid ==>
                    || price == cfg.reserveCpm
                    || exists r :: MayShow(w, publisher, r) && r.advertiser != c.advertiser && r.bid <= c.bid && price == r.bid + 100_000)
  {
    var w1 := ReturnSlots(w, publisher);
    var d := DepsFor(cfg, w1, publisher);
    var stage := StageOf(w1, publisher);
    EligibleAre(cfg, w, publisher);
    SelectionIsAffordable(d, stage, coin);
    ServeSelects(cfg, w, publisher, nonce, coin, false);
    if Eligible(d) != [] {
      c, price := Chosen(d, stage, coin);
    }
    assert d.reserveCpm == cfg.reserveCpm;
    hide Serve, ReturnSlots, MayShow, Eligible, DepsFor, Select;
  }

  lemma {:induction false} Chosen(d: Deps, stage: Stage, coin: (Id, Id) -> bool) returns (c: Campaign, price: nat)
    requires Eligible(d) != []
    ensures var (s, after) := Select(d, stage, coin);
            && s == Some(Selection(c, price / 1000, price)) && c in Eligible(d)
            && CurrentTour(stage, Eligible(d), coin) == [c.id] + after.tour && after.recent == Remember(stage.recent, c.id)
    ensures c.pool.Some? ==> price == c.bid
    ensures c.pool.None? ==>
              && Min(d.reserveCpm, c.bid) <= price <= c.bid
              && (forall r :: r in Eligible(d) && r.advertiser != c.advertiser && r.bid <= c.bid ==>
                    price == c.bid || r.bid + 100_000 <= price)
              && (price < c.bid ==>
                    || price == d.reserveCpm
                    || exists r :: r in Eligible(d) && r.advertiser != c.advertiser && r.bid <= c.bid && price == r.bid + 100_000)
  {
    SelectionIsAffordable(d, stage, coin);
    var s := Select(d, stage, coin).0.value;
    c, price := s.campaign, s.clearingCpm;
    if c.pool.None? {
      SecondPrice(Eligible(d), c, d.reserveCpm);
    }
    hide CurrentTour, Eligible, Remember, ByBid;
  }
}
