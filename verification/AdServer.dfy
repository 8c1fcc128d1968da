/**
  The selector and the pipeline as the program keeps them: objects whose maps are updated in place
  and whose totals are loops. Each operation is tied to the step of the money machine it performs.
  */
module AdServer {
  import opened Common
  import opened Money
  import opened Sums
  import opened Ledger
  import opened LedgerFacts
  import opened LedgerBook
  import opened Selector
  import opened Serving
  import opened World
  import Machine = World
  import opened WorldShape
  import opened PayoutLinks
  import opened RangeChecks
  import opened WorldMoney
  import opened WorldAudit

  /* ---------- packages/server/src/ads/selector.ts ---------- */

  class AdSelector {
    var stages: map<Id, Stage>

    constructor ()
      ensures stages == map[]
    {
      stages := map[];
    }

    function StageFor(publisher: Id): Stage
      reads this
    {
      if publisher in stages then stages[publisher] else Stage([], [])
    }

    /** `#nextInTour`: skips campaigns no longer eligible, builds a new tour only when none is left. */
    method NextInTour(publisher: Id, eligible: seq<Campaign>, coin: (Id, Id) -> bool) returns (chosen: Campaign)
      requires |eligible| > 0 && Positive(eligible)
      modifies this
      ensures var tour := CurrentTour(old(StageFor(publisher)), eligible, coin);
              && chosen == Find(eligible, tour[0])
              && stages == old(stages)[publisher := Stage(tour[1..], old(StageFor(publisher)).recent)]
    {
      var stage := StageFor(publisher);
      var tour := StillOn(stage.tour, eligible);
      if |tour| == 0 {
        BuiltFromEligible(eligible, stage.recent, coin);
        tour := BuildTour(eligible, stage.recent, coin);
      } else {
        assert tour[0] in tour;
      }
      stages := stages[publisher := Stage(tour[1..], stage.recent)];
      chosen := Find(eligible, tour[0]);
    }

    /** `#remember` */
    method RememberPick(publisher: Id, campaign: Id)
      modifies this
      ensures stages == old(stages)[publisher := Stage(old(StageFor(publisher)).tour, Remember(old(StageFor(publisher)).recent, campaign))]
    {
      var stage := StageFor(publisher);
      var recent := stage.recent + [campaign];
      if |recent| > RECENT_KEPT {
        recent := recent[1..];
      }
      stages := stages[publisher := Stage(stage.tour, recent)];
    }

    /** `returnSlots` */
    method PutBack(publisher: Id, campaigns: seq<Id>)
      modifies this
      ensures stages == if campaigns == [] then old(stages)
                        else old(stages)[publisher := Stage(campaigns + old(StageFor(publisher)).tour, old(StageFor(publisher)).recent)]
    {
      if |campaigns| == 0 {
        return;
      }
      var stage := StageFor(publisher);
      stages := stages[publisher := Stage(campaigns + stage.tour, stage.recent)];
    }
  }

  /* ---------- packages/server/src/pipeline.ts ---------- */

  class Pipeline {
    const cfg: Config
    const book: Book
    const selector: AdSelector
    var now: nat
    var deliveries: seq<Delivery>
    var returned: set<Id>
    var impressions: seq<Impression>
    var bans: set<Id>
    var campaigns: seq<Campaign>
    var pools: seq<Pool>
    var members: map<Id, Id>
    /** Payout records and history, which no method here reads. */
    ghost var rest: World

    constructor (cfg: Config)
      ensures Valid() && State() == Empty() && this.cfg == cfg && fresh(book) && fresh(book.store) && fresh(selector)
    {
      this.cfg := cfg;
      book := new Book();
      selector := new AdSelector();
      now, deliveries, returned, impressions, bans := 0, [], {}, [], {};
      campaigns, pools, members, rest := [], [], map[], Empty();
    }

    ghost predicate Valid()
      reads this, book, book.store
    {
      book.Valid() && PayoutShape(book.journal)
    }

    /** The state of the money machine this object is in. */
    ghost function State(): World
      reads this, book, selector
    {
      rest.(now := now, journal := book.journal, deliveries := deliveries, impressions := impressions,
            returned := returned, bans := bans, stages := selector.stages,
            campaigns := campaigns, pools := pools, members := members)
    }

    /** Every balance and every other total can be added up within 64 bits; `NoMoneyError` and `TotalsAddUp` say when. */
    ghost predicate Fits()
      reads this, book, book.store, selector
    {
      (forall a {:trigger AmountIn(a)} :: NoOverflow(book.store.entries, AmountIn(a))) && AllFit(State())
    }

    /** What is read of one campaign's money can be added up. */
    ghost predicate FitsFor(c: Campaign)
      reads this, book, book.store, selector
    {
      CampaignFits(book.store.entries, State(), c)
    }

    /** `spendable` */
    method Spendable(advertiser: Id) returns (r: Checked<int>)
      requires Valid()
      ensures r.Fine? <==> NoOverflow(book.store.entries, AmountIn(Advertiser(advertiser))) && SpendableFits(State(), advertiser)
      ensures r.Fine? ==> r.value == Machine.Spendable(State(), advertiser)
    {
      var balance := book.Balance(Advertiser(advertiser));
      if balance.MoneyError? {
        return MoneyError;
      }
      var reserved := AddReserved(advertiser);
      if reserved.MoneyError? {
        return MoneyError;
      }
      hide AddsUp;
      var left := balance.value - reserved.value;
      if !InRange(left) {
        return MoneyError;
      }
      r := Fine(if left > 0 then left else 0);
    }

    /** Its two loops. */
    method AddReserved(advertiser: Id) returns (r: Checked<int>)
      ensures r.Fine? <==> && AddsUp(deliveries, LiveWeight(now, RateOf(advertiser)), 0)
                           && AddsUp(impressions, PendingWeight(RateOf(advertiser)), LiveSum(State(), RateOf(advertiser)))
      ensures r.Fine? ==> r.value == LiveSum(State(), RateOf(advertiser)) + PendingSum(State(), RateOf(advertiser))
    {
      var reserved := 0;
      for i := 0 to |deliveries|
        invariant reserved == Sum(deliveries[..i], LiveWeight(now, RateOf(advertiser))) && InRange(reserved) && AddsUp(deliveries[..i], LiveWeight(now, RateOf(advertiser)), 0)
      {
        AddsUpNext(deliveries, i, LiveWeight(now, RateOf(advertiser)), 0);
        SumPrefix(deliveries, i, LiveWeight(now, RateOf(advertiser)));
        var d := deliveries[i];
        if d.advertiser == advertiser && !d.consumed && d.expiresAt >= now {
          if !InRange(d.rate) || !InRange(reserved + d.rate) {
            AddsUpLater(deliveries, i + 1, LiveWeight(now, RateOf(advertiser)), 0);
            return MoneyError;
          }
          reserved := reserved + d.rate;
        }
      }
      assert deliveries[..|deliveries|] == deliveries;
      ghost var live := reserved;
      for i := 0 to |impressions|
        invariant reserved == live + Sum(impressions[..i], PendingWeight(RateOf(advertiser))) && InRange(reserved) && AddsUp(impressions[..i], PendingWeight(RateOf(advertiser)), live)
      {
        AddsUpNext(impressions, i, PendingWeight(RateOf(advertiser)), live);
        SumPrefix(impressions, i, PendingWeight(RateOf(advertiser)));
        var m := impressions[i];
        if m.advertiser == advertiser && m.state == Pending {
          if !InRange(m.rate) || !InRange(reserved + m.rate) {
            AddsUpLater(impressions, i + 1, PendingWeight(RateOf(advertiser)), live);
            return MoneyError;
          }
          reserved := reserved + m.rate;
        }
      }
      assert impressions[..|impressions|] == impressions;
      r := Fine(reserved);
    }

    /** `spentToday` */
    method SpentToday(campaign: Id) returns (r: Checked<int>)
      ensures r.Fine? <==> SpentTodayFits(State(), campaign)
      ensures r.Fine? ==> r.value == Machine.SpentToday(State(), campaign)
    {
      var dayStart := now - now % DAY_MS;
      var spent := 0;
      for i := 0 to |impressions|
        invariant spent == Sum(impressions[..i], SpentTodayWeight(campaign, dayStart)) && InRange(spent) && AddsUp(impressions[..i], SpentTodayWeight(campaign, dayStart), 0)
      {
        AddsUpNext(impressions, i, SpentTodayWeight(campaign, dayStart), 0);
        SumPrefix(impressions, i, SpentTodayWeight(campaign, dayStart));
        var m := impressions[i];
        if m.campaign == campaign && (m.state == Pending || m.state == Verified)
           && m.serverTs >= dayStart && m.serverTs < dayStart + DAY_MS {
          if !InRange(m.rate) || !InRange(spent + m.rate) {
            AddsUpLater(impressions, i + 1, SpentTodayWeight(campaign, dayStart), 0);
            return MoneyError;
          }
          spent := spent + m.rate;
        }
      }
      assert impressions[..|impressions|] == impressions;
      r := Fine(spent);
    }

    /** `spentOn` */
    method SpentOn(ids: set<Id>) returns (r: Checked<int>)
      ensures r.Fine? <==> SpentOnFits(State(), ids)
      ensures r.Fine? ==> r.value == Machine.SpentOn(State(), ids)
    {
      var spent := 0;
      for i := 0 to |deliveries|
        invariant spent == Sum(deliveries[..i], LiveWeight(now, RateIn(ids))) && InRange(spent) && AddsUp(deliveries[..i], LiveWeight(now, RateIn(ids)), 0)
      {
        AddsUpNext(deliveries, i, LiveWeight(now, RateIn(ids)), 0);
        SumPrefix(deliveries, i, LiveWeight(now, RateIn(ids)));
        var d := deliveries[i];
        if d.campaign in ids && !d.consumed && d.expiresAt >= now {
          if !InRange(d.rate) || !InRange(spent + d.rate) {
            AddsUpLater(deliveries, i + 1, LiveWeight(now, RateIn(ids)), 0);
            return MoneyError;
          }
          spent := spent + d.rate;
        }
      }
      assert deliveries[..|deliveries|] == deliveries;
      ghost var live := spent;
      for i := 0 to |impressions|
        invariant spent == live + Sum(impressions[..i], CountedWeight(RateIn(ids), 0)) && InRange(spent) && AddsUp(impressions[..i], CountedWeight(RateIn(ids), 0), live)
      {
        AddsUpNext(impressions, i, CountedWeight(RateIn(ids), 0), live);
        SumPrefix(impressions, i, CountedWeight(RateIn(ids), 0));
        var m := impressions[i];
        if m.campaign in ids && (m.state == Pending || m.state == Verified) {
          if !InRange(m.rate) || !InRange(spent + m.rate) {
            AddsUpLater(impressions, i + 1, CountedWeight(RateIn(ids), 0), live);
            return MoneyError;
          }
          spent := spent + m.rate;
        }
      }
      assert impressions[..|impressions|] == impressions;
      r := Fine(spent);
    }

    /** `committedImpressions` */
    method CommittedImpressions(campaign: Id) returns (n: int)
      requires Valid()
      modifies book`billed
      ensures Valid() && State() == old(State())
      ensures n == Committed(State(), campaign)
    {
      var billed := book.BilledImpressions(campaign);
      n := billed;
      for i := 0 to |deliveries|
        modifies {}
        invariant n == billed + Sum(deliveries[..i], LiveWeight(now, OneOf(campaign)))
      {
        SumPrefix(deliveries, i, LiveWeight(now, OneOf(campaign)));
        var d := deliveries[i];
        if d.campaign == campaign && !d.consumed && d.expiresAt >= now {
          n := n + 1;
        }
      }
      assert deliveries[..|deliveries|] == deliveries;
      ghost var live := n;
      for i := 0 to |impressions|
        modifies {}
        invariant n == live + Sum(impressions[..i], PendingWeight(OneOf(campaign)))
      {
        SumPrefix(impressions, i, PendingWeight(OneOf(campaign)));
        if impressions[i].campaign == campaign && impressions[i].state == Pending {
          n := n + 1;
        }
      }
      assert impressions[..|impressions|] == impressions;
    }

    /** `servedToday` */
    method ServedToday(publisher: Id, ids: set<Id>) returns (n: int)
      ensures n == Machine.ServedToday(State(), publisher, ids)
    {
      var dayStart := now - now % DAY_MS;
      n := 0;
      for i := 0 to |deliveries|
        invariant n == Sum(deliveries[..i], LiveWeight(now, OneFor(publisher, ids)))
      {
        SumPrefix(deliveries, i, LiveWeight(now, OneFor(publisher, ids)));
        var d := deliveries[i];
        if d.publisher == publisher && d.campaign in ids && !d.consumed && d.expiresAt >= now {
          n := n + 1;
        }
      }
      assert deliveries[..|deliveries|] == deliveries;
      ghost var live := n;
      for i := 0 to |impressions|
        invariant n == live + Sum(impressions[..i], CountedWeight(OneFor(publisher, ids), dayStart))
      {
        SumPrefix(impressions, i, CountedWeight(OneFor(publisher, ids), dayStart));
        var m := impressions[i];
        if m.publisher == publisher && m.campaign in ids && (m.state == Pending || m.state == Verified)
           && m.serverTs >= dayStart {
          n := n + 1;
        }
      }
      assert impressions[..|impressions|] == impressions;
    }

    /* ---------- packages/server/src/pools/reserve.ts, main.ts:167-173 ---------- */

    /** `poolReserve` */
    method PoolReserve(sponsor: Id) returns (r: Checked<int>)
      ensures r.Fine? <==> ReserveFits(State(), sponsor)
      ensures r.Fine? ==> r.value == Machine.PoolReserve(State(), sponsor)
    {
      var reserved := 0;
      for i := 0 to |pools|
        invariant reserved == Sum(pools[..i], ReserveWeight(State(), sponsor))
        invariant forall k {:trigger pools[k]} :: 0 <= k < i && pools[k].sponsor == sponsor && pools[k].open ==>
                    SpentOnFits(State(), PoolCampaigns(State(), pools[k].id))
      {
        SumPrefix(pools, i, ReserveWeight(State(), sponsor));
        var p := pools[i];
        if p.sponsor == sponsor && p.open {
          var spent := SpentOn(CampaignsOf(campaigns, p.id));
          if spent.MoneyError? {
            return MoneyError;
          }
          var left := p.budget - spent.value;
          if left > 0 {
            reserved := reserved + left;
          }
        }
      }
      assert pools[..|pools|] == pools;
      r := if InRange(reserved) then Fine(reserved) else MoneyError;
    }

    /** `poolAllows` */
    method PoolAllows(publisher: Id, pool: Id, rate: int) returns (r: Checked<bool>)
      ensures r.Fine? ==> r.value == Machine.PoolAllows(State(), publisher, pool, rate)
      ensures SpentOnFits(State(), PoolCampaigns(State(), pool)) ==> r.Fine?
    {
      var k := FindPool(pools, pool);
      if k < 0 {
        return Fine(false);
      }
      var ids := CampaignsOf(campaigns, pool);
      var served := ServedToday(publisher, ids);
      if served >= pools[k].cap {
        return Fine(false);
      }
      var spent := SpentOn(ids);
      if spent.MoneyError? {
        return MoneyError;
      }
      r := Fine(spent.value + rate <= pools[k].budget);
    }

    /* ---------- choosing and handing out ---------- */

    /** `#spendableFor` */
    method SpendableForCampaign(publisher: Id, c: Campaign) returns (r: Checked<int>)
      requires Valid()
      ensures r.Fine? <==> FitsFor(c)
      ensures r.Fine? ==> r.value == SpendableFor(DepsFor(cfg, State(), publisher), c)
    {
      r := Spendable(c.advertiser);
      if r.Fine? && c.pool.None? {
        var reserved := PoolReserve(c.advertiser);
        if reserved.MoneyError? {
          return MoneyError;
        }
        var left := r.value - reserved.value;
        r := Fine(if left > 0 then left else 0);
      }
    }

    /** The filters of `select`, for one campaign. */
    method PassesFilters(publisher: Id, pool: Option<Id>, c: Campaign) returns (r: Checked<bool>)
      requires Valid() && pool == OpenPool(pools, members, publisher)
      modifies book`billed
      ensures Valid() && State() == old(State())
      ensures Fits() ==> r.Fine?
      ensures r.Fine? ==> r.value == Passes(DepsFor(cfg, State(), publisher), c)
      ensures r == Fine(true) ==> FitsFor(c)
    {
      if Fits() {
        FitsForAny(book.store.entries, State(), c, pool);
      }
      hide AllFit, CampaignFits, SpentTodayFits, SpentOnFits, NoOverflow, PayoutShape, SoundJournal, Expand, EntryBilled;
      var rate := RateFromCpm(c.bid);
      if c.status != Active || c.pool != pool || c.submittedBy == Some(publisher) || rate <= 0 {
        return Fine(false);
      }
      if pool.Some? {
        var allows := PoolAllows(publisher, pool.value, rate);
        if allows != Fine(true) {
          return allows;
        }
      }
      r := MoneyAllows(publisher, c, rate);
    }

    /** The last three of them: the balance, the day, the blocks. */
    method MoneyAllows(publisher: Id, c: Campaign, rate: int) returns (r: Checked<bool>)
      requires Valid()
      modifies book`billed
      ensures Valid() && State() == old(State())
      ensures FitsFor(c) && SpentTodayFits(State(), c.id) ==> r.Fine?
      ensures r.Fine? ==> r.value == (&& SpendableFor(DepsFor(cfg, State(), publisher), c) >= rate
                                      && (c.dailyBudget.Some? ==> Machine.SpentToday(State(), c.id) + rate <= c.dailyBudget.value)
                                      && (c.blocks.Some? ==> Committed(State(), c.id) < c.blocks.value * IMPRESSIONS_PER_BLOCK))
      ensures r == Fine(true) ==> FitsFor(c)
    {
      hide CampaignFits, SpentTodayFits, PayoutShape, SoundJournal, Expand, EntryBilled, SpendableFor, DepsFor;
      var spendable := SpendableForCampaign(publisher, c);
      if spendable.MoneyError? {
        return MoneyError;
      }
      if spendable.value < rate {
        return Fine(false);
      }
      if c.dailyBudget.Some? {
        var spent := SpentToday(c.id);
        if spent.MoneyError? {
          return MoneyError;
        }
        if spent.value + rate > c.dailyBudget.value {
          return Fine(false);
        }
      }
      if c.blocks.Some? {
        var committed := CommittedImpressions(c.id);
        if committed >= c.blocks.value * IMPRESSIONS_PER_BLOCK {
          return Fine(false);
        }
      }
      r := Fine(true);
    }

    /** The campaigns that pass every filter, in catalogue order. */
    method EligibleCampaigns(publisher: Id) returns (r: Checked<seq<Campaign>>)
      requires Valid()
      modifies book`billed
      ensures Valid() && State() == old(State())
      ensures Fits() ==> r.Fine?
      ensures r.Fine? ==> r.value == Eligible(DepsFor(cfg, State(), publisher))
      ensures r.Fine? ==> forall c :: c in r.value ==> FitsFor(c)
    {
      var pool := OpenPool(pools, members, publisher);
      ghost var d := DepsFor(cfg, State(), publisher);
      ghost var p := Passing(d);
      ghost var w, entries := State(), book.store.entries;
      hide AllFit, CampaignFits, NoOverflow, Passes, DepsFor, PayoutShape, SoundJournal, Expand, EntryBilled;
      var eligible: seq<Campaign> := [];
      for i := 0 to |campaigns|
        invariant Valid() && State() == w && book.store.entries == entries
        invariant eligible == Keep(campaigns[..i], p)
        invariant forall c :: c in eligible ==> CampaignFits(entries, w, c)
      {
        var passes := PassesFilters(publisher, pool, campaigns[i]);
        if passes.MoneyError? {
          return MoneyError;
        }
        KeepNext(campaigns, i, p);
        if passes.value {
          eligible := eligible + [campaigns[i]];
        }
      }
      assert campaigns[..|campaigns|] == campaigns;
      r := Fine(eligible);
    }

    /** `select` */
    method SelectAd(publisher: Id, coin: (Id, Id) -> bool) returns (r: Checked<Option<Selection>>)
      requires Valid()
      modifies selector, book`billed
      ensures Valid()
      ensures Fits() ==> r.Fine?
      ensures r.MoneyError? ==> State() == old(State())
      ensures r.Fine? ==>
                var chosen := Select(DepsFor(cfg, old(State()), publisher), StageOf(old(State()), publisher), coin);
                && r.value == chosen.0
                && State() == old(State()).(stages := if Eligible(DepsFor(cfg, old(State()), publisher)) == [] then old(State()).stages
                                                      else old(State()).stages[publisher := chosen.1])
    {
      var list := EligibleCampaigns(publisher);
      if list.MoneyError? {
        return MoneyError;
      }
      var eligible := list.value;
      if |eligible| == 0 {
        return Fine(None);
      }
      PassingIsPositive(DepsFor(cfg, State(), publisher));
      var chosen := TakeSlot(publisher, eligible, coin);
      r := Fine(chosen);
    }

    /** The rest of `select`, once something is eligible. */
    method TakeSlot(publisher: Id, eligible: seq<Campaign>, coin: (Id, Id) -> bool) returns (r: Option<Selection>)
      requires Valid() && |eligible| > 0 && Positive(eligible)
      requires forall c :: c in eligible ==> FitsFor(c)
      modifies selector
      ensures Valid()
      ensures var chosen := Choose(DepsFor(cfg, old(State()), publisher), eligible, StageOf(old(State()), publisher), coin);
              && r == chosen.0
              && State() == old(State()).(stages := old(State()).stages[publisher := chosen.1])
    {
      ghost var w := State();
      ChoiceIs(cfg, w, publisher, eligible, StageOf(w, publisher), coin);
      hide Choose, DepsFor, SpendableFor, CurrentTour, Find, ClearingCpm, RateFromCpm, Remember, Valid, FitsFor, State, StageOf;
      var chosen := Advance(publisher, eligible, coin);
      ghost var w1 := State();
      TourDoesNotMatter(cfg, w, w1, publisher, chosen);
      r := Price(publisher, eligible, chosen);
      if r.Some? {
        Remembered(publisher, chosen.id);
        StageTwice(w, w1, publisher, w1.stages[publisher], Stage(w1.stages[publisher].tour, Remember(w1.stages[publisher].recent, chosen.id)));
      }
    }

    /** The next slot leaves the tour. */
    method Advance(publisher: Id, eligible: seq<Campaign>, coin: (Id, Id) -> bool) returns (chosen: Campaign)
      requires Valid() && |eligible| > 0 && Positive(eligible)
      requires forall c :: c in eligible ==> FitsFor(c)
      modifies selector
      ensures Valid() && FitsFor(chosen)
      ensures var stage := StageOf(old(State()), publisher);
              var tour := CurrentTour(stage, eligible, coin);
              && chosen == Find(eligible, tour[0])
              && State() == old(State()).(stages := old(State()).stages[publisher := Stage(tour[1..], stage.recent)])
    {
      ghost var w := State();
      chosen := selector.NextInTour(publisher, eligible, coin);
      hide Find, CurrentTour, MoneyFits, NoOverflow;
      MoneyStays(w, State(), chosen);
    }

    /** The pick is noted. */
    method Remembered(publisher: Id, id: Id)
      requires Valid()
      modifies selector
      ensures Valid()
      ensures var stage := StageOf(old(State()), publisher);
              State() == old(State()).(stages := old(State()).stages[publisher := Stage(stage.tour, Remember(stage.recent, id))])
    {
      selector.RememberPick(publisher, id);
    }

    /** The price of a chosen campaign, unless it cannot pay it. */
    method Price(publisher: Id, eligible: seq<Campaign>, chosen: Campaign) returns (r: Option<Selection>)
      requires Valid() && FitsFor(chosen)
      ensures var clearing := ClearingCpm(eligible, chosen, cfg.reserveCpm);
              r == if SpendableFor(DepsFor(cfg, State(), publisher), chosen) < RateFromCpm(clearing) then None
                   else Some(Selection(chosen, RateFromCpm(clearing), clearing))
    {
      var clearing := ClearingCpm(eligible, chosen, cfg.reserveCpm);
      var rate := RateFromCpm(clearing);
      var spendable := SpendableForCampaign(publisher, chosen);
      assert spendable.Fine?;
      if spendable.value < rate {
        return None;
      }
      r := Some(Selection(chosen, rate, clearing));
    }

    /** `#returnExpiredSlots`: ads that expired unseen, each given back at most once while it is remembered. */
    method ReturnExpiredSlots(publisher: Id)
      requires Valid() && UniqueNonces(deliveries)
      modifies this`returned, selector
      ensures Valid() && State() == ReturnSlots(old(State()), publisher)
    {
      var ids: seq<Id>;
      ghost var w := State();
      ids, returned := MarkExpired(deliveries, publisher, now, returned);
      KeepSame(deliveries, ExpiredUnseen(publisher, now, w.returned), (d: Delivery) =>
        d.publisher == publisher && !d.consumed && d.expiresAt < w.now && d.nonce !in w.returned);
      assert Returnable(w, publisher) == Keep(deliveries, ExpiredUnseen(publisher, now, w.returned));
      hide Returnable;
      selector.PutBack(publisher, ids);
    }

    /** `#gcDeliveries` */
    method GcDeliveries()
      requires Valid()
      modifies this`deliveries, this`returned
      ensures Valid()
      ensures State() == old(State()).(
                deliveries := Keep(old(deliveries), Kept(now)),
                returned := (set n | n in old(returned) && !DroppedByGc(old(deliveries), n, now)))
    {
      deliveries, returned := DropOld(deliveries, now, returned);
    }

    /** `serveAd` */
    method ServeAd(publisher: Id, nonce: Id, coin: (Id, Id) -> bool) returns (r: Checked<Option<Selection>>)
      requires Valid() && UniqueNonces(deliveries) && nonce !in rest.served
      modifies this, selector, book`billed
      ensures Valid()
      ensures old(Fits()) ==> r.Fine?
      ensures r.Fine? ==> State() == Serve(cfg, old(State()), publisher, nonce, coin, false)
      ensures r.MoneyError? ==> State() == ReturnSlots(old(State()), publisher)
      ensures r.Fine? ==> (r.value.Some? <==> nonce in State().served)
      ensures r.Fine? && r.value.Some? ==> State().served[nonce] == DeliveryFor(r.value.value, publisher, nonce, now)
      ensures Good(old(State())) ==> Good(State())
    {
      if publisher in bans {
        return Fine(None);
      }
      ServeUnfolds(cfg, State(), publisher, nonce, coin);
      SlotsFit(State(), publisher);
      hide Serve, ReturnSlots, Offered, Good, AllFit, NoOverflow;
      if Good(State()) {
        ServingKeepsGood(cfg, State(), publisher, nonce, coin);
      }
      ReturnExpiredSlots(publisher);
      r := Offer(publisher, nonce, coin);
    }

    /** The rest of `serveAd`: what `select` chose becomes a delivery. */
    method Offer(publisher: Id, nonce: Id, coin: (Id, Id) -> bool) returns (r: Checked<Option<Selection>>)
      requires Valid()
      modifies this`deliveries, this`returned, this`rest, selector, book`billed
      ensures Valid()
      ensures old(Fits()) ==> r.Fine?
      ensures State() == if r.Fine? then Offered(cfg, old(State()), publisher, nonce, coin) else old(State())
      ensures r.Fine? && r.value.None? ==> State().served == old(State()).served
      ensures r.Fine? && r.value.Some? ==> State().served == old(State()).served[nonce := DeliveryFor(r.value.value, publisher, nonce, now)]
    {
      SelectionIsAffordable(DepsFor(cfg, State(), publisher), StageOf(State(), publisher), coin);
      hide Select, Eligible, DepsFor, AddDelivery, StageOf;
      r := SelectAd(publisher, coin);
      if r.Fine? && r.value.Some? {
        var s := r.value.value;
        AddAndCollect(Delivery(nonce, publisher, s.campaign.id, s.campaign.advertiser, s.rate, s.campaign.bps, now + NONCE_TTL_MS, false));
      }
    }

    /** Stores a delivery and drops the old ones. */
    method AddAndCollect(d: Delivery)
      requires Valid()
      modifies this`deliveries, this`returned, this`rest
      ensures Valid() && State() == AddDelivery(old(State()), d)
      ensures State().served == old(State()).served[d.nonce := d]
    {
      deliveries := deliveries + [d];
      rest := rest.(served := rest.served[d.nonce := d]);
      KeepSame(deliveries, Kept(now), (x: Delivery) => KeptByGc(x, old(State()).now));
      GcDeliveries();
    }

    /* ---------- packages/server/src/impressions/ingest.ts ---------- */

    /** `ingest`: events in order; a later one sees what the earlier ones changed. */
    method IngestBatch(publisher: Id, events: seq<Report>)
      returns (accepted: seq<Id>, rejected: seq<(Id, Reason)>, duplicates: seq<Id>)
      requires Valid()
      modifies this
      ensures Valid() && State() == IngestMany(cfg, old(State()), publisher, events)
      ensures accepted == AcceptedIn(cfg, old(State()), publisher, events)
      ensures rejected == RejectedIn(cfg, old(State()), publisher, events)
      ensures duplicates == DuplicatesIn(cfg, old(State()), publisher, events)
      ensures Good(old(State())) ==> Good(State())
    {
      hide Good;
      accepted, rejected, duplicates := [], [], [];
      ghost var w := State();
      if Good(w) {
        ReportingKeepsGood(cfg, w, publisher, events);
      }
      for i := 0 to |events|
        invariant Valid() && State() == IngestMany(cfg, w, publisher, events[..i])
        invariant accepted == AcceptedIn(cfg, w, publisher, events[..i])
        invariant rejected == RejectedIn(cfg, w, publisher, events[..i])
        invariant duplicates == DuplicatesIn(cfg, w, publisher, events[..i])
      {
        assert events[..i + 1][..i] == events[..i];
        hide IngestMany, Ingest, VerdictOn;
        var verdict := TakeIn(publisher, events[i]);
        IngestNext(cfg, w, publisher, events, i);
        match verdict {
          case Accepted => accepted := accepted + [events[i].id];
          case Refused(reason) => rejected := rejected + [(events[i].id, reason)];
          case Duplicate => duplicates := duplicates + [events[i].id];
        }
      }
      assert events[..|events|] == events;
    }

    /** One round of that loop. */
    method TakeIn(publisher: Id, ev: Report) returns (verdict: Verdict)
      requires Valid()
      modifies this`deliveries, this`impressions, this`rest
      ensures Valid() && State() == Ingest(cfg, old(State()), publisher, ev, NoCrash)
      ensures verdict == VerdictOn(cfg, old(State()), publisher, ev)
    {
      if Seen(impressions, publisher, ev.id) {
        return Duplicate;
      }
      var reason := Validate(cfg, deliveries, now, publisher, ev);
      if reason.Some? {
        impressions := impressions + [Build(deliveries, now, publisher, ev, Rejected, reason)];
        return Refused(reason.value);
      }
      var saved := Build(deliveries, now, publisher, ev, Pending, None);
      var k := DeliveryAt(deliveries, ev.nonce);
      deliveries := deliveries[k := deliveries[k].(consumed := true)];
      impressions := impressions + [saved];
      rest := rest.(backs := rest.backs[ev.nonce := (publisher, ev.id)]);
      verdict := Accepted;
    }

    /* ---------- verifying ---------- */

    /** `#countToday` */
    method CountToday(publisher: Id, at: nat) returns (n: int)
      ensures n == Sum(impressions, VerifiedThatDayWeight(publisher, DayStart(at)))
    {
      var dayStart := at - at % DAY_MS;
      n := 0;
      for i := 0 to |impressions|
        invariant n == Sum(impressions[..i], VerifiedThatDayWeight(publisher, dayStart))
      {
        SumPrefix(impressions, i, VerifiedThatDayWeight(publisher, dayStart));
        var m := impressions[i];
        if m.publisher == publisher && m.state == Verified && m.serverTs >= dayStart && m.serverTs < dayStart + DAY_MS {
          n := n + 1;
        }
      }
      assert impressions[..|impressions|] == impressions;
    }

    /** The whole of `runVerification`: a snapshot is walked, each pending impression decided in turn. An exception stops it. */
    method RunVerification(oracles: nat -> Oracle) returns (done: bool)
      requires Valid()
      modifies this`impressions, book, book.store
      ensures Valid()
      ensures done ==> State() == VerifyUpTo(cfg, old(State()), |old(impressions)|, oracles)
      ensures !done ==> exists n :: 0 <= n < |old(impressions)| && !Postable(old(impressions)[n])
                                    && State() == VerifyUpTo(cfg, old(State()), n, oracles)
      ensures (forall i :: 0 <= i < |old(impressions)| ==> Postable(old(impressions)[i])) ==> done
      ensures Good(old(State())) ==> Good(State())
    {
      hide Verify, PayoutShape, SoundJournal, Expand, EntryBilled, VerifyUpTo, Good;
      var all := impressions;
      ghost var w := State();
      VerifyNone(cfg, w, oracles);
      for k := 0 to |all|
        invariant Valid() && State() == VerifyUpTo(cfg, w, k, oracles) && (Good(w) ==> Good(State()))
        invariant |impressions| == |all| && forall m :: k <= m < |all| ==> impressions[m] == all[m]
      {
        VerifyNext(cfg, w, k, oracles);
        if Good(State()) {
          GoodVerify(cfg, State(), k, oracles(k));
        }
        if all[k].state == Pending {
          var ok := Decide(k, oracles(k));
          if !ok {
            return false;
          }
        } else {
          SkipsDecided(cfg, State(), k, oracles(k));
        }
      }
      done := true;
    }

    /** One round of that loop: ledger first, then the state. */
    method Decide(k: nat, o: Oracle) returns (ok: bool)
      requires Valid() && k < |impressions| && impressions[k].state == Pending
      modifies this`impressions, book, book.store
      ensures Valid()
      ensures Postable(old(impressions)[k]) ==> ok
      ensures State() == if ok then Verify(cfg, old(State()), k, o, false) else old(State())
      ensures |impressions| == |old(impressions)| && forall m :: 0 <= m < |impressions| && m != k ==> impressions[m] == old(impressions)[m]
    {
      var i := impressions[k];
      var today := CountToday(i.publisher, i.serverTs);
      var outcome := Evaluate(cfg, i.publisher in bans, now, today, i, o);
      match outcome {
        case Wait => ok := true;
        case Deny(reason) =>
          impressions := impressions[k := i.(state := Rejected, reason := Some(reason))];
          ok := true;
        case Approve => ok := PostVerified(k);
      }
    }

    /** An approved impression is billed, then marked. */
    method PostVerified(k: nat) returns (ok: bool)
      requires Valid() && k < |impressions|
      modifies this`impressions, book, book.store
      ensures Valid()
      ensures ok <==> Postable(old(impressions)[k])
      ensures var w, i := old(State()), old(impressions)[k];
              State() == if ok then w.(journal := Ledger.Post(w.journal, ShownOf(i)), impressions := w.impressions[k := i.(state := Verified)])
                         else w
    {
      var i := impressions[k];
      if !InRange(i.rate) {
        return false;
      }
      ghost var j := book.journal;
      var posted := book.PostImpression(i.id, i.advertiser, i.publisher, i.campaign, i.rate, i.bps);
      if posted.Err? {
        return false;
      }
      ImpressionKeepsShape(j, ShownOf(i));
      impressions := impressions[k := i.(state := Verified)];
      ok := true;
    }

    /** `ban` */
    method Ban(publisher: Id)
      requires Valid()
      modifies this`bans
      ensures Valid() && State() == old(State()).(bans := old(bans) + {publisher})
    {
      bans := bans + {publisher};
    }
  }

  function VerdictOn(cfg: Config, w: World, publisher: Id, ev: Report): Verdict
  {
    IngestOne(cfg, w.deliveries, w.impressions, w.now, publisher, ev).verdict
  }

  /** A batch is its events one after the other. */
  function IngestMany(cfg: Config, w: World, publisher: Id, events: seq<Report>): World
  {
    if |events| == 0 then w
    else Ingest(cfg, IngestMany(cfg, w, publisher, events[..|events| - 1]), publisher, events[|events| - 1], NoCrash)
  }

  function AcceptedIn(cfg: Config, w: World, publisher: Id, events: seq<Report>): seq<Id>
  {
    if |events| == 0 then []
    else
      var front, last := events[..|events| - 1], events[|events| - 1];
      AcceptedIn(cfg, w, publisher, front)
      + if VerdictOn(cfg, IngestMany(cfg, w, publisher, front), publisher, last).Accepted? then [last.id] else []
  }

  function RejectedIn(cfg: Config, w: World, publisher: Id, events: seq<Report>): seq<(Id, Reason)>
  {
    if |events| == 0 then []
    else
      var front, last := events[..|events| - 1], events[|events| - 1];
      var v := VerdictOn(cfg, IngestMany(cfg, w, publisher, front), publisher, last);
      RejectedIn(cfg, w, publisher, front) + if v.Refused? then [(last.id, v.reason)] else []
  }

  function DuplicatesIn(cfg: Config, w: World, publisher: Id, events: seq<Report>): seq<Id>
  {
    if |events| == 0 then []
    else
      var front, last := events[..|events| - 1], events[|events| - 1];
      DuplicatesIn(cfg, w, publisher, front)
      + if VerdictOn(cfg, IngestMany(cfg, w, publisher, front), publisher, last).Duplicate? then [last.id] else []
  }

  lemma {:induction false} EventsAreCounted(cfg: Config, w: World, publisher: Id, events: seq<Report>)
    ensures |AcceptedIn(cfg, w, publisher, events)| + |RejectedIn(cfg, w, publisher, events)| + |DuplicatesIn(cfg, w, publisher, events)|
            == |events|
  {
    hide IngestMany, IngestOne;
    if |events| > 0 {
      EventsAreCounted(cfg, w, publisher, events[..|events| - 1]);
    }
  }

  lemma {:induction false} ListsGrow(cfg: Config, w: World, publisher: Id, events: seq<Report>)
    requires |events| > 0
    ensures var front := events[..|events| - 1];
            && AcceptedIn(cfg, w, publisher, front) <= AcceptedIn(cfg, w, publisher, events)
            && RejectedIn(cfg, w, publisher, front) <= RejectedIn(cfg, w, publisher, events)
            && DuplicatesIn(cfg, w, publisher, front) <= DuplicatesIn(cfg, w, publisher, events)
  {
    hide IngestMany, VerdictOn;
  }

  /** The last event is listed under its verdict. */
  lemma {:induction false} LastIsListed(cfg: Config, w: World, publisher: Id, events: seq<Report>)
    requires |events| > 0
    ensures var before, last := IngestMany(cfg, w, publisher, events[..|events| - 1]), events[|events| - 1];
            var v := IngestOne(cfg, before.deliveries, before.impressions, before.now, publisher, last).verdict;
            && (v.Accepted? ==> last.id in AcceptedIn(cfg, w, publisher, events))
            && (v.Refused? ==> (last.id, v.reason) in RejectedIn(cfg, w, publisher, events))
            && (v.Duplicate? ==> last.id in DuplicatesIn(cfg, w, publisher, events))
  {
    hide IngestMany, IngestOne;
  }

  /** Every event of a batch is listed once, under the verdict it gets after those before it. */
  lemma {:induction false} EventsAreSorted(cfg: Config, w: World, publisher: Id, events: seq<Report>, i: nat)
    requires i < |events|
    ensures var before := IngestMany(cfg, w, publisher, events[..i]);
            var v := IngestOne(cfg, before.deliveries, before.impressions, before.now, publisher, events[i]).verdict;
            && (v.Accepted? ==> events[i].id in AcceptedIn(cfg, w, publisher, events))
            && (v.Refused? ==> (events[i].id, v.reason) in RejectedIn(cfg, w, publisher, events))
            && (v.Duplicate? ==> events[i].id in DuplicatesIn(cfg, w, publisher, events))
    ensures |AcceptedIn(cfg, w, publisher, events)| + |RejectedIn(cfg, w, publisher, events)| + |DuplicatesIn(cfg, w, publisher, events)|
            == |events|
  {
    hide IngestMany, IngestOne, AcceptedIn, RejectedIn, DuplicatesIn;
    var front := events[..|events| - 1];
    EventsAreCounted(cfg, w, publisher, events);
    if i < |front| {
      assert front[..i] == events[..i];
      EventsAreSorted(cfg, w, publisher, front, i);
      ListsGrow(cfg, w, publisher, events);
    } else {
      LastIsListed(cfg, w, publisher, events);
    }
  }

  lemma {:induction false} IngestNext(cfg: Config, w: World, publisher: Id, events: seq<Report>, i: nat)
    requires i < |events|
    ensures IngestMany(cfg, w, publisher, events[..i + 1]) ==
            Ingest(cfg, IngestMany(cfg, w, publisher, events[..i]), publisher, events[i], NoCrash)
  {
    assert events[..i + 1][..i] == events[..i];
  }

  function VerifyUpTo(cfg: Config, w: World, n: nat, oracles: nat -> Oracle): World
  {
    if n == 0 then w else Verify(cfg, VerifyUpTo(cfg, w, n - 1, oracles), n - 1, oracles(n - 1), false)
  }

  lemma {:induction false} TouchesOne(cfg: Config, w: World, k: nat, o: Oracle)
    requires k < |w.impressions|
    ensures var w' := Verify(cfg, w, k, o, false);
            |w'.impressions| == |w.impressions| && w'.impressions == w.impressions[k := w'.impressions[k]]
  {
    var posted, decided := VerifyCases(cfg, w, k, o, false);
    hide Verify;
  }

  /** Rounds before its turn, and rounds after it, leave an impression alone. */
  lemma {:induction false} OtherRounds(cfg: Config, w: World, from: nat, n: nat, oracles: nat -> Oracle, k: nat)
    requires from <= n <= |w.impressions| == |VerifyUpTo(cfg, w, from, oracles).impressions|
    requires k < |w.impressions| && (n <= k || k < from)
    ensures var was, w' := VerifyUpTo(cfg, w, from, oracles), VerifyUpTo(cfg, w, n, oracles);
            |w'.impressions| == |w.impressions| && w'.impressions[k] == was.impressions[k]
  {
    if n > from {
      OtherRounds(cfg, w, from, n - 1, oracles, k);
      TouchesOne(cfg, VerifyUpTo(cfg, w, n - 1, oracles), n - 1, oracles(n - 1));
      hide Verify;
    }
  }

  /** Every impression gets one verdict, its own, from the state its turn finds. */
  lemma {:induction false} JudgedInTurn(cfg: Config, w: World, n: nat, oracles: nat -> Oracle, k: nat)
    requires k < n <= |w.impressions|
    ensures var before, w' := VerifyUpTo(cfg, w, k, oracles), VerifyUpTo(cfg, w, n, oracles);
            && |before.impressions| == |w'.impressions| == |w.impressions|
            && before.impressions[k] == w.impressions[k]
            && Verify(cfg, before, k, oracles(k), false).impressions == before.impressions[k := w'.impressions[k]]
  {
    OtherRounds(cfg, w, 0, k, oracles, k);
    TouchesOne(cfg, VerifyUpTo(cfg, w, k, oracles), k, oracles(k));
    OtherRounds(cfg, w, k + 1, n, oracles, k);
    hide Verify;
  }

  lemma {:induction false} VerifyNone(cfg: Config, w: World, oracles: nat -> Oracle)
    ensures VerifyUpTo(cfg, w, 0, oracles) == w
  {}

  lemma {:induction false} VerifyNext(cfg: Config, w: World, k: nat, oracles: nat -> Oracle)
    ensures VerifyUpTo(cfg, w, k + 1, oracles) == Verify(cfg, VerifyUpTo(cfg, w, k, oracles), k, oracles(k), false)
  {}

  /** `postImpression` takes it. */
  predicate Postable(i: Impression) { InRange(i.rate) && CanPostImpression(i) }

  lemma {:induction false} SkipsDecided(cfg: Config, w: World, k: nat, o: Oracle)
    requires k < |w.impressions| && w.impressions[k].state != Pending
    ensures Verify(cfg, w, k, o, false) == w
  {}

  lemma {:induction false} ImpressionKeepsShape(j: seq<Posting>, p: Posting)
    requires SoundJournal(j) && PayoutShape(j) && p.Shown?
    ensures PayoutShape(Ledger.Post(j, p))
  {
    if !HasId(j, IdOf(p)) {
      ShapeGrows(j, p);
    }
  }

  function NoncesOf(ds: seq<Delivery>): set<Id> { set d | d in ds :: d.nonce }

  lemma {:induction false} OneMore(back: seq<Delivery>, d: Delivery)
    ensures NoncesOf(back + [d]) == NoncesOf(back) + {d.nonce}
    ensures CampaignIds(back + [d]) == CampaignIds(back) + [d.campaign]
  {}

  lemma {:induction false} NotYetMet(deliveries: seq<Delivery>, i: nat, p: Delivery -> bool)
    requires UniqueNonces(deliveries) && i < |deliveries|
    ensures deliveries[i].nonce !in NoncesOf(Keep(deliveries[..i], p))
  {
    forall x | x in Keep(deliveries[..i], p) ensures x.nonce != deliveries[i].nonce {
      assert x in deliveries[..i];
      var k :| 0 <= k < i && deliveries[k] == x;
    }
  }

  /** One pass over the deliveries, marking as it goes. */
  method MarkExpired(deliveries: seq<Delivery>, publisher: Id, now: int, returned: set<Id>) returns (ids: seq<Id>, marked: set<Id>)
    requires UniqueNonces(deliveries)
    ensures var back := Keep(deliveries, ExpiredUnseen(publisher, now, returned));
            ids == CampaignIds(back) && marked == returned + NoncesOf(back)
  {
    ghost var p := ExpiredUnseen(publisher, now, returned);
    ids, marked := [], returned;
    for i := 0 to |deliveries|
      invariant ids == CampaignIds(Keep(deliveries[..i], p))
      invariant marked == returned + NoncesOf(Keep(deliveries[..i], p))
    {
      var d := deliveries[i];
      KeepNext(deliveries, i, p);
      NotYetMet(deliveries, i, p);
      OneMore(Keep(deliveries[..i], p), d);
      hide Keep, NoncesOf, CampaignIds, UniqueNonces;
      if d.publisher == publisher && !d.consumed && d.expiresAt < now && d.nonce !in marked {
        marked := marked + {d.nonce};
        ids := ids + [d.campaign];
      }
    }
    assert deliveries[..|deliveries|] == deliveries;
  }

  method DropOld(all: seq<Delivery>, now: int, returned: set<Id>) returns (kept: seq<Delivery>, left: set<Id>)
    ensures kept == Keep(all, Kept(now))
    ensures left == set n | n in returned && !DroppedByGc(all, n, now)
  {
    kept, left := [], returned;
    for i := 0 to |all|
      invariant kept == Keep(all[..i], Kept(now))
      invariant left == set n | n in returned && !DroppedByGc(all[..i], n, now)
    {
      KeepNext(all, i, Kept(now));
      DroppedNext(all, i, now);
      var d := all[i];
      if d.expiresAt < now - GC_AFTER_MS {
        left := left - {d.nonce};
      } else {
        kept := kept + [d];
      }
    }
    assert all[..|all|] == all;
  }

  function Kept(now: int): Delivery -> bool { (d: Delivery) => KeptByGc(d, now) }

  /** What `serveAd` leaves behind, once expired slots are back. */
  ghost function Offered(cfg: Config, w: World, publisher: Id, nonce: Id, coin: (Id, Id) -> bool): World
  {
    var c := Select(DepsFor(cfg, w, publisher), StageOf(w, publisher), coin);
    if c.0.None? then w
    else AddDelivery(w.(stages := w.stages[publisher := c.1]), DeliveryFor(c.0.value, publisher, nonce, w.now))
  }

  lemma {:induction false} ServeUnfolds(cfg: Config, w: World, publisher: Id, nonce: Id, coin: (Id, Id) -> bool)
    requires publisher !in w.bans && nonce !in w.served
    ensures Serve(cfg, w, publisher, nonce, coin, false) == Offered(cfg, ReturnSlots(w, publisher), publisher, nonce, coin)
  {
    hide Select, DepsFor, AddDelivery;
  }

  function ExpiredUnseen(publisher: Id, now: int, returned: set<Id>): Delivery -> bool
  {
    (d: Delivery) => d.publisher == publisher && !d.consumed && d.expiresAt < now && d.nonce !in returned
  }

  lemma {:induction false} DroppedNext(ds: seq<Delivery>, i: nat, now: int)
    requires i < |ds|
    ensures forall n :: DroppedByGc(ds[..i + 1], n, now) <==>
                        DroppedByGc(ds[..i], n, now) || (ds[i].nonce == n && !KeptByGc(ds[i], now))
  {
    var a, b := ds[..i], ds[..i + 1];
    assert b == a + [ds[i]];
    forall n ensures DroppedByGc(b, n, now) <==> DroppedByGc(a, n, now) || (ds[i].nonce == n && !KeptByGc(ds[i], now)) {
      assert forall d :: d in b <==> d in a || d == ds[i];
      if DroppedByGc(a, n, now) {
        var d :| d in a && d.nonce == n && !KeptByGc(d, now);
        assert d in b;
      }
    }
  }

  /** What `select` does with the next slot, given what the server reads. */
  lemma {:induction false} ChoiceIs(cfg: Config, w: World, publisher: Id, eligible: seq<Campaign>, stage: Stage, coin: (Id, Id) -> bool)
    requires |eligible| > 0 && Positive(eligible)
    ensures var tour := CurrentTour(stage, eligible, coin);
            var chosen := Find(eligible, tour[0]);
            var clearing := ClearingCpm(eligible, chosen, cfg.reserveCpm);
            Choose(DepsFor(cfg, w, publisher), eligible, stage, coin) ==
            if SpendableFor(DepsFor(cfg, w, publisher), chosen) < RateFromCpm(clearing) then (None, Stage(tour[1..], stage.recent))
            else (Some(Selection(chosen, RateFromCpm(clearing), clearing)), Stage(tour[1..], Remember(stage.recent, chosen.id)))
  {}

  /** What the server reads of a campaign's money can be added up. */
  ghost predicate CampaignFits(entries: seq<Entry>, w: World, c: Campaign)
  {
    NoOverflow(entries, AmountIn(Advertiser(c.advertiser))) && MoneyFits(w, c)
  }

  lemma {:induction false} FitsForAny(entries: seq<Entry>, w: World, c: Campaign, pool: Option<Id>)
    requires AllFit(w) && NoOverflow(entries, AmountIn(Advertiser(c.advertiser)))
    ensures CampaignFits(entries, w, c) && SpentTodayFits(w, c.id) && (pool.Some? ==> SpentOnFits(w, PoolCampaigns(w, pool.value)))
  {
    hide SpendableFits, ReserveFits, SpentTodayFits, SpentOnFits, NoOverflow;
  }

  lemma {:induction false} StageTwice(w: World, w1: World, publisher: Id, first: Stage, second: Stage)
    requires w1 == w.(stages := w.stages[publisher := first])
    ensures StageOf(w1, publisher) == first
    ensures w1.(stages := w1.stages[publisher := second]) == w.(stages := w.stages[publisher := second])
  {}

  lemma {:induction false} SlotsFit(w: World, publisher: Id)
    ensures AllFit(ReturnSlots(w, publisher)) == AllFit(w)
  {
    TotalsStay(w, ReturnSlots(w, publisher));
  }

  /** What a campaign may spend does not depend on whose turn it is. */
  lemma {:induction false} TourDoesNotMatter(cfg: Config, w: World, w1: World, publisher: Id, c: Campaign)
    requires w1 == w.(stages := w1.stages)
    ensures SpendableFor(DepsFor(cfg, w1, publisher), c) == SpendableFor(DepsFor(cfg, w, publisher), c)
  {
    SlotsAndReserve(w, w1, c.advertiser);
  }

  lemma {:induction false} PassingIsPositive(d: Deps)
    ensures Positive(Eligible(d))
  {}

  /* ---------- what the objects inherit from the machine ---------- */

  /** Every operation above is a step, or a run of steps, of the money machine, so it keeps all its invariants. */
  lemma {:induction false} ServingKeepsGood(cfg: Config, w: World, publisher: Id, nonce: Id, coin: (Id, Id) -> bool)
    requires Good(w)
    ensures Good(Serve(cfg, w, publisher, nonce, coin, false)) && Good(ReturnSlots(w, publisher))
  {
    ReturningKeepsGood(w, publisher);
    hide Serve, Good;
    GoodStep(cfg, w, Ad(DoServe(publisher, nonce, coin, false)));
  }

  /** Slots are no part of the invariant. */
  lemma {:induction false} ReturningKeepsGood(w: World, publisher: Id)
    requires Good(w)
    ensures Good(ReturnSlots(w, publisher))
  {
    GoodForgetsSlots(w, ReturnSlots(w, publisher));
  }

  lemma {:induction false} ReportingKeepsGood(cfg: Config, w: World, publisher: Id, events: seq<Report>)
    requires Good(w)
    ensures Good(IngestMany(cfg, w, publisher, events))
  {
    if |events| > 0 {
      var front, last := events[..|events| - 1], events[|events| - 1];
      ReportingKeepsGood(cfg, w, publisher, front);
      hide Ingest, Good;
      GoodStep(cfg, IngestMany(cfg, w, publisher, front), Ad(DoIngest(publisher, last, NoCrash)));
    }
  }

  lemma {:induction false} GoodVerify(cfg: Config, w: World, k: nat, o: Oracle)
    requires Good(w)
    ensures Good(Verify(cfg, w, k, o, false))
  {
    hide Verify, Good;
    GoodStep(cfg, w, Ad(DoVerify(k, o, false)));
  }
}
