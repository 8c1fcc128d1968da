/**
  Choosing the next ad for a publisher (packages/server/src/ads/selector.ts): the eligibility
  filters, the stage tour, and the second price.
  */
module Selector {
  import opened Common
  import opened Money

  const IMPRESSIONS_PER_BLOCK: int := 1_000
  const MIN_BID_CPM: int := 1_000_000
  const BID_INCREMENT_CPM: int := 100_000
  const MAX_STAGE_SLOTS: int := 4
  const RECENT_KEPT: int := 32

  datatype Status = Active | Paused | Suspended | Exhausted

  datatype Campaign = Campaign(
    id: Id,
    advertiser: Id,
    bid: nat,
    bps: int,
    status: Status,
    dailyBudget: Option<int>,
    blocks: Option<nat>,
    pool: Option<Id>,
    submittedBy: Option<Id>)

  /** What the selector asks its surroundings about, for one publisher at one moment. */
  datatype Deps = Deps(
    publisher: Id,
    campaigns: seq<Campaign>,
    pool: Option<Id>,
    poolAllows: (Id, int) -> bool,
    spendable: Id -> int,
    reservedForPools: Id -> int,
    spentToday: Id -> int,
    committed: Id -> int,
    reserveCpm: nat)

  datatype Selection = Selection(campaign: Campaign, rate: int, clearingCpm: nat)

  /** A publisher's tour (slots left, next first) and the campaigns it was given lately. */
  datatype Stage = Stage(tour: seq<Id>, recent: seq<Id>)

  /* ---------- eligibility ---------- */

  function SpendableFor(d: Deps, c: Campaign): int
  {
    if c.pool.Some? then d.spendable(c.advertiser)
    else Max0(d.spendable(c.advertiser) - d.reservedForPools(c.advertiser))
  }

  predicate Passes(d: Deps, c: Campaign)
  {
    var rate := RateFromCpm(c.bid);
    && c.status == Active
    && c.pool == d.pool
    && c.submittedBy != Some(d.publisher)
    && (d.pool.Some? ==> d.poolAllows(d.pool.value, rate))
    && rate > 0
    && SpendableFor(d, c) >= rate
    && (c.dailyBudget.Some? ==> d.spentToday(c.id) + rate <= c.dailyBudget.value)
    && (c.blocks.Some? ==> d.committed(c.id) < c.blocks.value * IMPRESSIONS_PER_BLOCK)
  }

  function Passing(d: Deps): Campaign -> bool { (c: Campaign) => Passes(d, c) }

  function Eligible(d: Deps): seq<Campaign> { Keep(d.campaigns, Passing(d)) }

  /* ---------- ordering ---------- */

  function LastPick(recent: seq<Id>, id: Id): int { LastIndex(recent, (x: Id) => x == id) }

  /** Higher bids first; among equals the one shown longest ago; then a coin toss. */
  predicate Before(a: Campaign, b: Campaign, recent: seq<Id>, coin: (Id, Id) -> bool)
  {
    a.bid > b.bid
    || (a.bid == b.bid
        && (LastPick(recent, a.id) < LastPick(recent, b.id)
            || (LastPick(recent, a.id) == LastPick(recent, b.id) && coin(a.id, b.id))))
  }

  function Insert(x: Campaign, s: seq<Campaign>, recent: seq<Id>, coin: (Id, Id) -> bool): seq<Campaign>
  {
    if |s| == 0 || !Before(s[0], x, recent, coin) then [x] + s
    else [s[0]] + Insert(x, s[1..], recent, coin)
  }

  function Ordered(s: seq<Campaign>, recent: seq<Id>, coin: (Id, Id) -> bool): seq<Campaign>
  {
    if |s| == 0 then [] else Insert(s[0], Ordered(s[1..], recent, coin), recent, coin)
  }

  ghost predicate BidDescending(s: seq<Campaign>)
  {
    forall i, k :: 0 <= i < k < |s| ==> s[i].bid >= s[k].bid
  }

  lemma {:induction false} InsertKeepsOrder(x: Campaign, s: seq<Campaign>, recent: seq<Id>, coin: (Id, Id) -> bool)
    requires BidDescending(s)
    ensures BidDescending(Insert(x, s, recent, coin))
  {
    var r := Insert(x, s, recent, coin);
    if |s| > 0 && Before(s[0], x, recent, coin) {
      var rest := Insert(x, s[1..], recent, coin);
      InsertKeepsOrder(x, s[1..], recent, coin);
      InsertAddsOne(x, s[1..], recent, coin);
      assert r == [s[0]] + rest;
      forall i | 0 <= i < |rest| ensures s[0].bid >= rest[i].bid {
        assert rest[i] in rest;
      }
    }
  }

  lemma {:induction false} InsertAddsOne(x: Campaign, s: seq<Campaign>, recent: seq<Id>, coin: (Id, Id) -> bool)
    ensures multiset(Insert(x, s, recent, coin)) == multiset(s) + multiset{x}
    ensures forall c :: c in Insert(x, s, recent, coin) <==> c == x || c in s
  {
    if |s| > 0 {
      assert s == [s[0]] + s[1..];
      if Before(s[0], x, recent, coin) {
        InsertAddsOne(x, s[1..], recent, coin);
      }
    }
  }

  /** Among equal bids, whoever was shown at some point was preceded by those last shown before that, or never. */
  ghost predicate LongestUnseenFirst(s: seq<Campaign>, recent: seq<Id>)
  {
    forall i, k, p :: 0 <= i < k < |s| && s[i].bid == s[k].bid && 0 <= p < |recent| && recent[p] == s[i].id ==>
      exists q :: p <= q < |recent| && recent[q] == s[k].id
  }

  ghost predicate PicksAscend(s: seq<Campaign>, recent: seq<Id>)
  {
    forall i, k :: 0 <= i < k < |s| && s[i].bid == s[k].bid ==> LastPick(recent, s[i].id) <= LastPick(recent, s[k].id)
  }

  lemma {:induction false} InsertKeepsPicks(x: Campaign, s: seq<Campaign>, recent: seq<Id>, coin: (Id, Id) -> bool)
    requires BidDescending(s) && PicksAscend(s, recent)
    ensures PicksAscend(Insert(x, s, recent, coin), recent)
  {
    hide LastPick;
    var r := Insert(x, s, recent, coin);
    if |s| > 0 && Before(s[0], x, recent, coin) {
      var rest := Insert(x, s[1..], recent, coin);
      InsertKeepsPicks(x, s[1..], recent, coin);
      InsertAddsOne(x, s[1..], recent, coin);
      forall i | 0 <= i < |rest| && rest[i].bid == s[0].bid ensures LastPick(recent, s[0].id) <= LastPick(recent, rest[i].id) {
        assert rest[i] in rest;
      }
    }
  }

  /** Of equal bids, the one that was shown longest ago, or never, goes first. */
  lemma {:induction false} TiesGoToTheLongestUnseen(s: seq<Campaign>, recent: seq<Id>, coin: (Id, Id) -> bool)
    ensures PicksAscend(Ordered(s, recent, coin), recent) && LongestUnseenFirst(Ordered(s, recent, coin), recent)
  {
    if |s| > 0 {
      TiesGoToTheLongestUnseen(s[1..], recent, coin);
      OrderedIsSorted(s[1..], recent, coin);
      InsertKeepsPicks(s[0], Ordered(s[1..], recent, coin), recent, coin);
    }
    var r := Ordered(s, recent, coin);
    forall i, k, p | 0 <= i < k < |r| && r[i].bid == r[k].bid && 0 <= p < |recent| && recent[p] == r[i].id
      ensures exists q :: p <= q < |recent| && recent[q] == r[k].id {
      assert p <= LastPick(recent, r[i].id) <= LastPick(recent, r[k].id);
    }
  }

  /** The order is a permutation of the eligible campaigns, highest bid first. */
  lemma {:induction false} OrderedIsSorted(s: seq<Campaign>, recent: seq<Id>, coin: (Id, Id) -> bool)
    ensures BidDescending(Ordered(s, recent, coin))
    ensures multiset(Ordered(s, recent, coin)) == multiset(s)
    ensures |Ordered(s, recent, coin)| == |s|
  {
    if |s| > 0 {
      assert s == [s[0]] + s[1..];
      OrderedIsSorted(s[1..], recent, coin);
      InsertKeepsOrder(s[0], Ordered(s[1..], recent, coin), recent, coin);
      InsertAddsOne(s[0], Ordered(s[1..], recent, coin), recent, coin);
    }
    assert |multiset(Ordered(s, recent, coin))| == |multiset(s)|;
  }

  /* ---------- the stage tour ---------- */

  /** Slots by the ratio to the lowest bid, rounded half up and clamped to 1..MAX_STAGE_SLOTS. */
  function StageSlots(bid: nat, lowest: nat): (n: nat)
    requires lowest > 0
    ensures 1 <= n <= MAX_STAGE_SLOTS
  {
    Min(MAX_STAGE_SLOTS, Max(1, (bid * 2 + lowest) / (lowest * 2)))
  }

  /** Within the clamp, the number of slots is the ratio of the bids rounded to the nearest whole number, halves up. */
  lemma {:induction false} StageSlotsRound(bid: nat, lowest: nat)
    requires lowest > 0
    ensures var n := StageSlots(bid, lowest);
            && 1 <= n <= 4
            && (n > 1 ==> (2 * n - 1) * lowest <= 2 * bid)
            && (n < 4 ==> 2 * bid < (2 * n + 1) * lowest)
  {
    var q := (bid * 2 + lowest) / (lowest * 2);
    Rounded(bid, lowest, q);
    if q <= 0 {
      assert StageSlots(bid, lowest) == 1;
    }
  }

  lemma {:induction false} Rounded(bid: nat, lowest: nat, q: int)
    requires lowest > 0 && q == (bid * 2 + lowest) / (lowest * 2)
    ensures (2 * q - 1) * lowest <= 2 * bid < (2 * q + 1) * lowest
  {
    var d := lowest * 2;
    assert q * d <= bid * 2 + lowest < q * d + d;
    assert q * d == 2 * q * lowest;
  }

  function Repeat(id: Id, n: nat): seq<Id> { seq(n, i => id) }

  function Slots(ordered: seq<Campaign>, lowest: nat): seq<Id>
    requires lowest > 0
  {
    if |ordered| == 0 then []
    else Repeat(ordered[0].id, StageSlots(ordered[0].bid, lowest)) + Slots(ordered[1..], lowest)
  }

  ghost predicate Positive(s: seq<Campaign>) { forall c :: c in s ==> c.bid > 0 }

  function BuildTour(eligible: seq<Campaign>, recent: seq<Id>, coin: (Id, Id) -> bool): seq<Id>
    requires |eligible| > 0 && Positive(eligible)
  {
    OrderedIsSorted(eligible, recent, coin);
    var ordered := Ordered(eligible, recent, coin);
    assert ordered[|ordered| - 1] in multiset(ordered);
    Slots(ordered, ordered[|ordered| - 1].bid)
  }

  function Named(eligible: seq<Campaign>): set<Id> { set c | c in eligible :: c.id }

  function StillOn(tour: seq<Id>, eligible: seq<Campaign>): seq<Id>
  {
    Keep(tour, (id: Id) => id in Named(eligible))
  }

  /** The tour the next slot is taken from: what is left of the old one, or a new one when that is empty. */
  function CurrentTour(stage: Stage, eligible: seq<Campaign>, coin: (Id, Id) -> bool): (tour: seq<Id>)
    requires |eligible| > 0 && Positive(eligible)
    ensures |tour| > 0 && tour[0] in Named(eligible)
  {
    var left := StillOn(stage.tour, eligible);
    if |left| > 0 then
      assert left[0] in left;
      left
    else
      BuiltFromEligible(eligible, stage.recent, coin);
      BuildTour(eligible, stage.recent, coin)
  }

  lemma {:induction false} SlotsOf(ordered: seq<Campaign>, lowest: nat)
    requires lowest > 0
    ensures |ordered| <= |Slots(ordered, lowest)| <= MAX_STAGE_SLOTS * |ordered|
    ensures forall id :: id in Slots(ordered, lowest) <==> id in Named(ordered)
  {
    if |ordered| > 0 {
      SlotsOf(ordered[1..], lowest);
      assert ordered == [ordered[0]] + ordered[1..];
      var n := StageSlots(ordered[0].bid, lowest);
      assert Repeat(ordered[0].id, n)[0] == ordered[0].id;
      assert Named(ordered) == {ordered[0].id} + Named(ordered[1..]);
    }
  }

  lemma {:induction false} BuiltFromEligible(eligible: seq<Campaign>, recent: seq<Id>, coin: (Id, Id) -> bool)
    requires |eligible| > 0 && Positive(eligible)
    ensures 0 < |BuildTour(eligible, recent, coin)| <= MAX_STAGE_SLOTS * |eligible|
    ensures forall id :: id in BuildTour(eligible, recent, coin) <==> id in Named(eligible)
  {
    var ordered := Ordered(eligible, recent, coin);
    OrderedIsSorted(eligible, recent, coin);
    assert ordered[|ordered| - 1] in multiset(ordered);
    SlotsOf(ordered, ordered[|ordered| - 1].bid);
    assert forall c :: c in ordered <==> c in multiset(ordered);
    assert forall c :: c in eligible <==> c in multiset(eligible);
  }

  function Find(eligible: seq<Campaign>, id: Id): (c: Campaign)
    requires id in Named(eligible)
    ensures c in eligible && c.id == id
  {
    var i := LastIndex(eligible, (c: Campaign) => c.id == id);
    assert exists c :: c in eligible && c.id == id;
    eligible[i]
  }

  /* ---------- the price ---------- */

  /** The first bidder in the order that belongs to somebody else and does not outbid the winner. */
  function RivalBid(ordered: seq<Campaign>, chosen: Campaign): Option<nat>
  {
    if |ordered| == 0 then None
    else if ordered[0].advertiser != chosen.advertiser && ordered[0].bid <= chosen.bid then Some(ordered[0].bid)
    else RivalBid(ordered[1..], chosen)
  }

  function ByBid(s: seq<Campaign>): seq<Campaign> { Ordered(s, [], (a: Id, b: Id) => true) }

  function ClearingCpm(eligible: seq<Campaign>, chosen: Campaign, reserve: nat): nat
  {
    if chosen.pool.Some? then chosen.bid
    else
      var second := match RivalBid(ByBid(eligible), chosen)
                    case Some(bid) => bid + BID_INCREMENT_CPM
                    case None => reserve;
      Min(Max(second, reserve), chosen.bid)
  }

  function Remember(recent: seq<Id>, id: Id): seq<Id>
  {
    var grown := recent + [id];
    if |grown| > RECENT_KEPT then grown[1..] else grown
  }

  /** The latest picks are remembered, the newest last, at most thirty-two of them. */
  lemma {:induction false} RemembersTheLatest(recent: seq<Id>, id: Id)
    requires |recent| <= 32
    ensures var r := Remember(recent, id);
            && |r| == (if |recent| < 32 then |recent| + 1 else 32)
            && r[|r| - 1] == id
            && forall i :: 0 <= i < |r| - 1 ==> r[i] == recent[|recent| - (|r| - 1) + i]
  {}

  /** The next slot of the tour, at its price; the last check repeats the filter on what is really charged. */
  function Choose(d: Deps, eligible: seq<Campaign>, stage: Stage, coin: (Id, Id) -> bool): (r: (Option<Selection>, Stage))
    requires |eligible| > 0 && Positive(eligible)
  {
    var tour := CurrentTour(stage, eligible, coin);
    var chosen := Find(eligible, tour[0]);
    var clearing := ClearingCpm(eligible, chosen, d.reserveCpm);
    var rate := RateFromCpm(clearing);
    if SpendableFor(d, chosen) < rate then (None, Stage(tour[1..], stage.recent))
    else (Some(Selection(chosen, rate, clearing)), Stage(tour[1..], Remember(stage.recent, chosen.id)))
  }

  /** `select`: nothing when no campaign passes every filter. */
  function Select(d: Deps, stage: Stage, coin: (Id, Id) -> bool): (r: (Option<Selection>, Stage))
  {
    var eligible := Eligible(d);
    if |eligible| == 0 then (None, stage) else Choose(d, eligible, stage, coin)
  }

  /* ---------- what a selection promises ---------- */

  /** The last check of `select` never fires: nothing is offered only when nothing is eligible. */
  lemma {:induction false} SelectionIsAffordable(d: Deps, stage: Stage, coin: (Id, Id) -> bool)
    ensures Select(d, stage, coin).0.None? <==> Eligible(d) == []
    ensures var s := Select(d, stage, coin).0;
            s.Some? ==>
              && s.value.campaign in Eligible(d) && s.value.campaign in d.campaigns && Passes(d, s.value.campaign)
              && 0 <= s.value.rate <= RateFromCpm(s.value.campaign.bid) <= SpendableFor(d, s.value.campaign)
              && (s.value.campaign.pool.Some? ==> s.value.rate == RateFromCpm(s.value.campaign.bid))
  {
    var eligible := Eligible(d);
    if |eligible| > 0 {
      var chosen := Find(eligible, CurrentTour(stage, eligible, coin)[0]);
    }
  }

  lemma {:induction false} RivalIsHighest(ordered: seq<Campaign>, chosen: Campaign)
    requires BidDescending(ordered)
    ensures RivalBid(ordered, chosen).None? ==>
            forall c :: c in ordered ==> c.advertiser == chosen.advertiser || c.bid > chosen.bid
    ensures RivalBid(ordered, chosen).Some? ==>
            && RivalBid(ordered, chosen).value <= chosen.bid
            && (exists c :: c in ordered && c.advertiser != chosen.advertiser && c.bid == RivalBid(ordered, chosen).value)
            && (forall c :: c in ordered && c.advertiser != chosen.advertiser && c.bid <= chosen.bid ==>
                  c.bid <= RivalBid(ordered, chosen).value)
  {
    if |ordered| > 0 {
      assert ordered == [ordered[0]] + ordered[1..];
      if ordered[0].advertiser != chosen.advertiser && ordered[0].bid <= chosen.bid {
        assert ordered[0] in ordered;
      } else {
        RivalIsHighest(ordered[1..], chosen);
      }
    }
  }

  /**
    The second price: never above the winner's bid; below it, the winner pays the reserve or one step
    over the best bid of another advertiser that does not exceed his own.
    */
  lemma {:induction false} SecondPrice(eligible: seq<Campaign>, chosen: Campaign, reserve: nat)
    requires chosen.pool.None?
    ensures var price := ClearingCpm(eligible, chosen, reserve);
            && price <= chosen.bid
            && Min(reserve, chosen.bid) <= price
            && (forall c :: c in eligible && c.advertiser != chosen.advertiser && c.bid <= chosen.bid ==>
                  price == chosen.bid || c.bid + BID_INCREMENT_CPM <= price)
            && (price < chosen.bid ==>
                  price == reserve
                  || exists c :: c in eligible && c.advertiser != chosen.advertiser && c.bid <= chosen.bid
                                 && price == c.bid + BID_INCREMENT_CPM)
  {
    var ordered := ByBid(eligible);
    OrderedIsSorted(eligible, [], (a: Id, b: Id) => true);
    assert forall c :: c in ordered <==> c in multiset(ordered);
    assert forall c :: c in eligible <==> c in multiset(eligible);
    RivalIsHighest(ordered, chosen);
  }
}
