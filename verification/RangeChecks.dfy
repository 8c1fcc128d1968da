/**
  The totals the server adds up while it serves: every addition checks the 64-bit range
  (packages/protocol/src/money.ts `add`, `stroops`), so a total is defined only where no check fires.
  */
module RangeChecks {
  import opened Common
  import opened Money
  import opened Sums
  import opened Ledger
  import opened Selector
  import opened Serving
  import opened World

  /** An accumulating loop over s that starts from a total: every amount and every running total is in range. */
  ghost predicate AddsUp<T>(s: seq<T>, w: T -> int, start: int)
  {
    |s| == 0 || (AddsUp(s[..|s| - 1], w, start) && InRange(w(s[|s| - 1])) && InRange(start + Sum(s, w)))
  }

  lemma {:induction false} AddsUpNext<T>(s: seq<T>, i: nat, w: T -> int, start: int)
    requires i < |s|
    ensures AddsUp(s[..i + 1], w, start) <==> AddsUp(s[..i], w, start) && InRange(w(s[i])) && InRange(start + Sum(s[..i], w) + w(s[i]))
  {
    SumPrefix(s, i, w);
    assert s[..i + 1][..i] == s[..i];
  }

  lemma {:induction false} AddsUpSoFar<T>(s: seq<T>, i: nat, w: T -> int, start: int)
    requires i <= |s| && AddsUp(s, w, start)
    ensures AddsUp(s[..i], w, start)
  {
    if i == |s| {
      assert s[..i] == s;
    } else {
      AddsUpSoFar(s[..|s| - 1], i, w, start);
      assert s[..|s| - 1][..i] == s[..i];
    }
  }

  /** Where a running total leaves the range, the whole loop does. */
  lemma {:induction false} AddsUpLater<T>(s: seq<T>, i: nat, w: T -> int, start: int)
    requires i <= |s| && !AddsUp(s[..i], w, start)
    ensures !AddsUp(s, w, start)
  {
    if AddsUp(s, w, start) {
      AddsUpSoFar(s, i, w, start);
    }
  }

  /** Amounts that are not negative add up as long as their sum is in range. */
  lemma {:induction false} AddsUpWithin<T>(s: seq<T>, w: T -> int, start: int)
    requires 0 <= start && start + Sum(s, w) <= MAX_STROOPS
    requires forall i :: 0 <= i < |s| ==> 0 <= w(s[i])
    ensures AddsUp(s, w, start)
  {
    if |s| > 0 {
      SumNonNegative(s[..|s| - 1], w);
      AddsUpWithin(s[..|s| - 1], w, start);
    }
  }

  /** `spendable` adds up what is live and what is pending. */
  ghost predicate SpendableFits(w: World, advertiser: Id)
  {
    && AddsUp(w.deliveries, LiveWeight(w.now, RateOf(advertiser)), 0)
    && AddsUp(w.impressions, PendingWeight(RateOf(advertiser)), LiveSum(w, RateOf(advertiser)))
    && InRange(Balance(w.journal, Advertiser(advertiser)) - (LiveSum(w, RateOf(advertiser)) + PendingSum(w, RateOf(advertiser))))
  }

  ghost predicate SpentTodayFits(w: World, campaign: Id)
  {
    AddsUp(w.impressions, SpentTodayWeight(campaign, DayStart(w.now)), 0)
  }

  ghost predicate SpentOnFits(w: World, campaigns: set<Id>)
  {
    && AddsUp(w.deliveries, LiveWeight(w.now, RateIn(campaigns)), 0)
    && AddsUp(w.impressions, CountedWeight(RateIn(campaigns), 0), LiveSum(w, RateIn(campaigns)))
  }

  /** `poolReserve` reads what was spent on each open pool; its own sum is checked once, at the end. */
  ghost predicate ReserveFits(w: World, sponsor: Id)
  {
    && (forall k {:trigger w.pools[k]} :: 0 <= k < |w.pools| && w.pools[k].sponsor == sponsor && w.pools[k].open ==>
          SpentOnFits(w, PoolCampaigns(w, w.pools[k].id)))
    && InRange(PoolReserve(w, sponsor))
  }

  /** What the selector reads of a campaign's money. */
  ghost predicate MoneyFits(w: World, c: Campaign)
  {
    SpendableFits(w, c.advertiser) && (c.pool.None? ==> ReserveFits(w, c.advertiser))
  }

  /** Every total of the server's can be added up. */
  ghost predicate AllFit(w: World)
  {
    && (forall a {:trigger SpendableFits(w, a)} :: SpendableFits(w, a))
    && (forall s {:trigger ReserveFits(w, s)} :: ReserveFits(w, s))
    && (forall c {:trigger SpentTodayFits(w, c)} :: SpentTodayFits(w, c))
    && (forall pool {:trigger PoolCampaigns(w, pool)} :: SpentOnFits(w, PoolCampaigns(w, pool)))
  }

  /** Slots, records and running withdrawals are no part of any total. */
  lemma {:induction false} TotalsStay(w: World, w': World)
    requires w' == w.(returned := w'.returned, stages := w'.stages, items := w'.items, procs := w'.procs)
    ensures forall a :: SpendableFits(w', a) == SpendableFits(w, a)
    ensures forall s :: ReserveFits(w', s) == ReserveFits(w, s)
    ensures AllFit(w') == AllFit(w)
  {
    forall a ensures SpendableFits(w', a) == SpendableFits(w, a) {}
    forall s ensures ReserveFits(w', s) == ReserveFits(w, s) {
      ReserveStays(w, w', s);
    }
    forall c ensures SpentTodayFits(w', c) == SpentTodayFits(w, c) {}
    forall pool ensures PoolCampaigns(w', pool) == PoolCampaigns(w, pool) {}
    forall ids ensures SpentOnFits(w', ids) == SpentOnFits(w, ids) {}
    hide SpendableFits, ReserveFits, SpentTodayFits, SpentOnFits, PoolCampaigns;
  }

  lemma {:induction false} MoneyStays(w: World, w': World, c: Campaign)
    requires w' == w.(returned := w'.returned, stages := w'.stages)
    ensures MoneyFits(w', c) == MoneyFits(w, c)
  {
    ReserveStays(w, w', c.advertiser);
    hide ReserveFits;
    assert SpendableFits(w', c.advertiser) == SpendableFits(w, c.advertiser);
  }

  lemma {:induction false} ReserveStays(w: World, w': World, s: Id)
    requires w' == w.(returned := w'.returned, stages := w'.stages, items := w'.items, procs := w'.procs)
    ensures ReserveFits(w', s) == ReserveFits(w, s)
  {
    forall id ensures PoolSpent(w', id) == PoolSpent(w, id) && SpentOnFits(w', PoolCampaigns(w', id)) == SpentOnFits(w, PoolCampaigns(w, id)) {
      assert PoolCampaigns(w', id) == PoolCampaigns(w, id);
    }
    hide PoolSpent, SpentOnFits, PoolCampaigns;
    SumSame(w.pools, ReserveWeight(w', s), ReserveWeight(w, s));
  }
}
