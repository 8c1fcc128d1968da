/** Fairness of the stage tour over sequences of selections for one publisher. */
module SelectorTour {
  import opened Common
  import opened Selector

  /** One successful selection: who was eligible then, and how ties would have been broken. */
  datatype Round = Round(eligible: seq<Campaign>, coin: (Id, Id) -> bool)

  ghost predicate Playable(rounds: seq<Round>)
  {
    forall i :: 0 <= i < |rounds| ==> |rounds[i].eligible| > 0 && Positive(rounds[i].eligible)
  }

  function Rebuilds(stage: Stage, r: Round): bool { |StillOn(stage.tour, r.eligible)| == 0 }

  function Chosen(stage: Stage, r: Round): Id
    requires |r.eligible| > 0 && Positive(r.eligible)
  {
    CurrentTour(stage, r.eligible, r.coin)[0]
  }

  function After(stage: Stage, r: Round): Stage
    requires |r.eligible| > 0 && Positive(r.eligible)
  {
    Stage(CurrentTour(stage, r.eligible, r.coin)[1..], Remember(stage.recent, Chosen(stage, r)))
  }

  /** After and Chosen are what `select` does whenever something is eligible. */
  lemma {:induction false} RoundIsSelect(d: Deps, stage: Stage, coin: (Id, Id) -> bool)
    requires |Eligible(d)| > 0
    ensures var r := Round(Eligible(d), coin);
            && Positive(r.eligible)
            && Select(d, stage, coin).1 == After(stage, r)
            && Select(d, stage, coin).0.Some?
            && Select(d, stage, coin).0.value.campaign.id == Chosen(stage, r)
  {
    SelectionIsAffordable(d, stage, coin);
  }

  function Picks(stage: Stage, rounds: seq<Round>): (picks: seq<Id>)
    requires Playable(rounds)
    ensures |picks| == |rounds|
    decreases |rounds|
  {
    if |rounds| == 0 then [] else [Chosen(stage, rounds[0])] + Picks(After(stage, rounds[0]), rounds[1..])
  }

  /* ---------- one tour under fixed eligibility ---------- */

  ghost predicate Fixed(rounds: seq<Round>, eligible: seq<Campaign>)
  {
    forall i :: 0 <= i < |rounds| ==> rounds[i].eligible == eligible
  }

  lemma {:induction false} TourIsServedInOrder(stage: Stage, rounds: seq<Round>, eligible: seq<Campaign>)
    requires |eligible| > 0 && Positive(eligible) && Fixed(rounds, eligible)
    requires |rounds| == |stage.tour| && forall id :: id in stage.tour ==> id in Named(eligible)
    ensures Picks(stage, rounds) == stage.tour
    decreases |rounds|
  {
    if |rounds| > 0 {
      StillOnKeeps(stage.tour, eligible);
      var next := After(stage, rounds[0]);
      assert CurrentTour(stage, eligible, rounds[0].coin) == stage.tour;
      TourIsServedInOrder(next, rounds[1..], eligible);
      assert stage.tour == [stage.tour[0]] + next.tour;
    }
  }

  lemma {:induction false} StillOnKeeps(tour: seq<Id>, eligible: seq<Campaign>)
    requires forall id :: id in tour ==> id in Named(eligible)
    ensures StillOn(tour, eligible) == tour
  {
    if |tour| > 0 {
      StillOnKeeps(tour[..|tour| - 1], eligible);
    }
  }

  function LowestBid(s: seq<Campaign>): (low: nat)
    requires |s| > 0
    ensures forall c :: c in s ==> low <= c.bid
    ensures exists c :: c in s && c.bid == low
  {
    if |s| == 1 then
      assert s[0] in s;
      s[0].bid
    else
      var rest := LowestBid(s[1..]);
      assert s == [s[0]] + s[1..] && s[0] in s;
      if s[0].bid < rest then s[0].bid else rest
  }

  function Occurrences(tour: seq<Id>, id: Id): nat { multiset(tour)[id] }

  ghost predicate UniqueCampaigns(s: seq<Campaign>) { forall i, k :: 0 <= i < k < |s| ==> s[i].id != s[k].id }

  lemma {:induction false} RepeatCounts(id: Id, n: nat, x: Id)
    ensures Occurrences(Repeat(id, n), x) == if x == id then n else 0
  {
    if n > 0 {
      assert Repeat(id, n) == Repeat(id, n - 1) + [id];
      RepeatCounts(id, n - 1, x);
    }
  }

  lemma {:induction false} SlotsCount(ordered: seq<Campaign>, lowest: nat, c: Campaign)
    requires lowest > 0 && UniqueCampaigns(ordered) && c in ordered
    ensures Occurrences(Slots(ordered, lowest), c.id) == StageSlots(c.bid, lowest)
  {
    var head := Repeat(ordered[0].id, StageSlots(ordered[0].bid, lowest));
    var rest := Slots(ordered[1..], lowest);
    RepeatCounts(ordered[0].id, |head|, c.id);
    SlotsOf(ordered[1..], lowest);
    if ordered[0] == c {
      assert c.id !in Named(ordered[1..]);
      assert c.id !in rest;
      assert Occurrences(rest, c.id) == 0;
    } else {
      var k :| 0 <= k < |ordered| && ordered[k] == c;
      assert ordered[1..][k - 1] == c;
      SlotsCount(ordered[1..], lowest, c);
    }
  }

  /** Position by position, whose slot it is; the positions follow the order of the campaigns. */
  lemma {:induction false} SlotOwner(ordered: seq<Campaign>, lowest: nat, p: nat) returns (owner: nat)
    requires lowest > 0 && p < |Slots(ordered, lowest)|
    ensures owner < |ordered| && Slots(ordered, lowest)[p] == ordered[owner].id
    ensures forall q :: p <= q < |Slots(ordered, lowest)| ==>
              exists k :: owner <= k < |ordered| && Slots(ordered, lowest)[q] == ordered[k].id
  {
    var n := StageSlots(ordered[0].bid, lowest);
    var rest := Slots(ordered[1..], lowest);
    SlotsOf(ordered[1..], lowest);
    if p < n {
      owner := 0;
      forall q | p <= q < |Slots(ordered, lowest)|
        ensures exists k :: 0 <= k < |ordered| && Slots(ordered, lowest)[q] == ordered[k].id {
        if q < n {
          assert Slots(ordered, lowest)[q] == ordered[0].id;
        } else {
          assert rest[q - n] in Named(ordered[1..]);
          var c :| c in ordered[1..] && c.id == rest[q - n];
          var k :| 0 <= k < |ordered[1..]| && ordered[1..][k] == c;
          assert ordered[k + 1] == c;
        }
      }
    } else {
      var o := SlotOwner(ordered[1..], lowest, p - n);
      owner := o + 1;
      forall q | p <= q < |Slots(ordered, lowest)|
        ensures exists k :: owner <= k < |ordered| && Slots(ordered, lowest)[q] == ordered[k].id {
        var k :| o <= k < |ordered[1..]| && rest[q - n] == ordered[1..][k].id;
        assert ordered[k + 1].id == Slots(ordered, lowest)[q];
      }
    }
  }

  ghost predicate SameMembers(a: seq<Campaign>, b: seq<Campaign>) { multiset(a) == multiset(b) }

  lemma {:induction false} UniqueTransfers(a: seq<Campaign>, b: seq<Campaign>)
    requires SameMembers(a, b) && UniqueCampaigns(a)
    ensures UniqueCampaigns(b)
  {
    forall i, k | 0 <= i < k < |b| ensures b[i].id != b[k].id {
      assert b[i] in multiset(b) && b[k] in multiset(b);
      assert b[i] in multiset(a) && b[k] in multiset(a);
      if b[i] == b[k] {
        assert b == b[..i] + [b[i]] + b[i + 1..k] + [b[k]] + b[k + 1..];
        assert multiset(b)[b[i]] >= 2;
        CountAtMostOne(a, b[i]);
      }
    }
  }

  lemma {:induction false} CountAtMostOne(s: seq<Campaign>, c: Campaign)
    requires UniqueCampaigns(s)
    ensures multiset(s)[c] <= 1
  {
    if |s| > 0 {
      var front := s[..|s| - 1];
      assert s == front + [s[|s| - 1]];
      CountAtMostOne(front, c);
      if s[|s| - 1] == c {
        assert c !in front;
        assert multiset(front)[c] == 0;
      }
    }
  }

  /** Every campaign has its slots in the tour. */
  ghost predicate GivesSlots(tour: seq<Id>, eligible: seq<Campaign>)
    requires |eligible| > 0 && Positive(eligible)
  {
    forall c :: c in eligible ==> Occurrences(tour, c.id) == StageSlots(c.bid, LowestBid(eligible))
  }

  /** No lower bid comes before a higher one. */
  ghost predicate Descends(tour: seq<Id>, eligible: seq<Campaign>)
  {
    forall p, q, a, b :: 0 <= p < q < |tour| && a in eligible && b in eligible ==>
      (a.id == tour[p] && b.id == tour[q] ==> a.bid >= b.bid)
  }

  /** A campaign's slots follow each other, also among equal bids. */
  ghost predicate InBlocks(tour: seq<Id>)
  {
    forall p, q, r :: 0 <= p < q < r < |tour| && tour[p] == tour[r] ==> tour[q] == tour[p]
  }

  lemma {:induction false} SlotsInBlocks(ordered: seq<Campaign>, lowest: nat)
    requires lowest > 0 && UniqueCampaigns(ordered)
    ensures InBlocks(Slots(ordered, lowest))
  {
    if |ordered| > 0 {
      var n := StageSlots(ordered[0].bid, lowest);
      var rest := Slots(ordered[1..], lowest);
      var tour := Slots(ordered, lowest);
      SlotsInBlocks(ordered[1..], lowest);
      SlotsOf(ordered[1..], lowest);
      assert tour == Repeat(ordered[0].id, n) + rest;
      forall i | 0 <= i < |rest| ensures rest[i] != ordered[0].id {
        assert rest[i] in rest;
        assert forall k :: 0 <= k < |ordered[1..]| ==> ordered[1..][k] == ordered[k + 1];
      }
      forall p, q, r | 0 <= p < q < r < |tour| && tour[p] == tour[r] ensures tour[q] == tour[p] {
        assert p >= n ==> rest[p - n] == tour[p] && rest[q - n] == tour[q] && rest[r - n] == tour[r];
        assert p < n ==> tour[p] == ordered[0].id;
        assert r >= n ==> tour[r] == rest[r - n];
      }
    }
  }

  lemma {:induction false} BuiltGivesSlots(eligible: seq<Campaign>, recent: seq<Id>, coin: (Id, Id) -> bool)
    requires |eligible| > 0 && Positive(eligible) && UniqueCampaigns(eligible)
    ensures GivesSlots(BuildTour(eligible, recent, coin), eligible)
  {
    var tour := BuildTour(eligible, recent, coin);
    hide BuildTour, LowestBid, UniqueCampaigns, Occurrences;
    forall c | c in eligible ensures Occurrences(tour, c.id) == StageSlots(c.bid, LowestBid(eligible)) {
      TourCounts(eligible, recent, coin, c);
    }
  }

  lemma {:induction false} BuiltDescends(eligible: seq<Campaign>, recent: seq<Id>, coin: (Id, Id) -> bool)
    requires |eligible| > 0 && Positive(eligible) && UniqueCampaigns(eligible)
    ensures Descends(BuildTour(eligible, recent, coin), eligible)
  {
    var tour := BuildTour(eligible, recent, coin);
    hide BuildTour, UniqueCampaigns, Positive;
    forall p, q, a, b | 0 <= p < q < |tour| && a in eligible && b in eligible && a.id == tour[p] && b.id == tour[q]
      ensures a.bid >= b.bid {
      TourDescends(eligible, recent, coin, p, q, a, b);
    }
  }

  /** What a newly built tour looks like. */
  lemma {:induction false} BuiltTour(eligible: seq<Campaign>, recent: seq<Id>, coin: (Id, Id) -> bool)
    requires |eligible| > 0 && Positive(eligible) && UniqueCampaigns(eligible)
    ensures var tour := BuildTour(eligible, recent, coin);
            GivesSlots(tour, eligible) && Descends(tour, eligible) && InBlocks(tour)
  {
    BuiltGivesSlots(eligible, recent, coin);
    BuiltDescends(eligible, recent, coin);
    BuildTourIs(eligible, recent, coin);
    hide BuildTour, Ordered, LowestBid, UniqueCampaigns, GivesSlots, Descends, InBlocks;
    SlotsInBlocks(Ordered(eligible, recent, coin), LowestBid(eligible));
  }

  /**
    With unchanged eligibility a fresh tour serves exactly its slots: every campaign its 1 to 4 turns, one
    after the other, and never a lower bid before a higher one.
    */
  lemma {:induction false} OneTour(stage: Stage, rounds: seq<Round>, eligible: seq<Campaign>)
    requires |eligible| > 0 && Positive(eligible) && UniqueCampaigns(eligible)
    requires Fixed(rounds, eligible) && |rounds| > 0 && Rebuilds(stage, rounds[0])
    requires |rounds| == |BuildTour(eligible, stage.recent, rounds[0].coin)|
    ensures var picks := Picks(stage, rounds);
            GivesSlots(picks, eligible) && Descends(picks, eligible) && InBlocks(picks)
  {
    FreshTourIsServed(stage, rounds, eligible);
    BuiltTour(eligible, stage.recent, rounds[0].coin);
    hide *;
  }

  lemma {:induction false} FreshTourIsServed(stage: Stage, rounds: seq<Round>, eligible: seq<Campaign>)
    requires |eligible| > 0 && Positive(eligible)
    requires Fixed(rounds, eligible) && |rounds| > 0 && Rebuilds(stage, rounds[0])
    requires |rounds| == |BuildTour(eligible, stage.recent, rounds[0].coin)|
    ensures Picks(stage, rounds) == BuildTour(eligible, stage.recent, rounds[0].coin)
  {
    var tour := BuildTour(eligible, stage.recent, rounds[0].coin);
    BuiltFromEligible(eligible, stage.recent, rounds[0].coin);
    assert CurrentTour(stage, eligible, rounds[0].coin) == tour;
    TourIsServedInOrder(After(stage, rounds[0]), rounds[1..], eligible);
    assert tour == [tour[0]] + tour[1..];
  }

  /** The order a tour is built from has the same campaigns, and ends with the lowest bid. */
  lemma {:induction false} OrderFacts(eligible: seq<Campaign>, recent: seq<Id>, coin: (Id, Id) -> bool)
    requires |eligible| > 0
    ensures var ordered := Ordered(eligible, recent, coin);
            && |ordered| == |eligible| && BidDescending(ordered)
            && (UniqueCampaigns(eligible) ==> UniqueCampaigns(ordered))
            && (forall c :: c in eligible <==> c in ordered)
            && ordered[|ordered| - 1].bid == LowestBid(eligible)
  {
    var ordered := Ordered(eligible, recent, coin);
    OrderedIsSorted(eligible, recent, coin);
    assert SameMembers(eligible, ordered);
    hide Ordered, SameMembers, UniqueCampaigns, BidDescending, LowestBid;
    if UniqueCampaigns(eligible) {
      UniqueTransfers(eligible, ordered);
    }
    MembersTransfer(eligible, ordered);
  }

  lemma {:induction false} MembersTransfer(a: seq<Campaign>, b: seq<Campaign>)
    requires SameMembers(a, b)
    ensures forall c :: c in a <==> c in b
  {
    forall c ensures c in a <==> c in b {
      assert c in a <==> c in multiset(a);
      assert c in b <==> c in multiset(b);
    }
  }

  lemma {:induction false} BuildTourIs(eligible: seq<Campaign>, recent: seq<Id>, coin: (Id, Id) -> bool)
    requires |eligible| > 0 && Positive(eligible) && UniqueCampaigns(eligible)
    ensures var ordered := Ordered(eligible, recent, coin);
            && BuildTour(eligible, recent, coin) == Slots(ordered, LowestBid(eligible)) && LowestBid(eligible) > 0
            && BidDescending(ordered) && UniqueCampaigns(ordered) && forall c :: c in eligible <==> c in ordered
  {
    hide Ordered, LowestBid, Slots, UniqueCampaigns, BidDescending;
    OrderFacts(eligible, recent, coin);
    var low :| low in eligible && low.bid == LowestBid(eligible);
  }

  lemma {:induction false} TourCounts(eligible: seq<Campaign>, recent: seq<Id>, coin: (Id, Id) -> bool, c: Campaign)
    requires |eligible| > 0 && Positive(eligible) && UniqueCampaigns(eligible) && c in eligible
    ensures Occurrences(BuildTour(eligible, recent, coin), c.id) == StageSlots(c.bid, LowestBid(eligible))
  {
    BuildTourIs(eligible, recent, coin);
    hide Ordered, BuildTour, Slots, LowestBid, BidDescending;
    SlotsCount(Ordered(eligible, recent, coin), LowestBid(eligible), c);
  }

  lemma {:induction false} TourDescends(eligible: seq<Campaign>, recent: seq<Id>, coin: (Id, Id) -> bool,
                                        p: nat, q: nat, a: Campaign, b: Campaign)
    requires |eligible| > 0 && Positive(eligible) && UniqueCampaigns(eligible) && a in eligible && b in eligible
    requires p < q < |BuildTour(eligible, recent, coin)|
    requires a.id == BuildTour(eligible, recent, coin)[p] && b.id == BuildTour(eligible, recent, coin)[q]
    ensures a.bid >= b.bid
  {
    var ordered := Ordered(eligible, recent, coin);
    BuildTourIs(eligible, recent, coin);
    hide Ordered, BuildTour, LowestBid, Slots, UniqueCampaigns, BidDescending;
    SlotsDescend(ordered, LowestBid(eligible), p, q, a, b);
  }

  lemma {:induction false} SlotsDescend(ordered: seq<Campaign>, lowest: nat, p: nat, q: nat, a: Campaign, b: Campaign)
    requires lowest > 0 && BidDescending(ordered) && UniqueCampaigns(ordered) && a in ordered && b in ordered
    requires p < q < |Slots(ordered, lowest)| && a.id == Slots(ordered, lowest)[p] && b.id == Slots(ordered, lowest)[q]
    ensures a.bid >= b.bid
  {
    var owner := SlotOwner(ordered, lowest, p);
    hide Slots;
    var k :| owner <= k < |ordered| && Slots(ordered, lowest)[q] == ordered[k].id;
  }

  /* ---------- no campaign waits for ever ---------- */

  ghost predicate AlwaysEligible(rounds: seq<Round>, id: Id)
  {
    forall i :: 0 <= i < |rounds| ==> id in Named(rounds[i].eligible)
  }

  lemma {:induction false} WaitsItsTurn(stage: Stage, rounds: seq<Round>, id: Id)
    requires Playable(rounds) && AlwaysEligible(rounds, id) && id in stage.tour
    requires id !in Picks(stage, rounds)
    ensures |rounds| < |stage.tour|
    decreases |rounds|
  {
    if |rounds| > 0 {
      var left := StillOn(stage.tour, rounds[0].eligible);
      assert id in left;
      assert CurrentTour(stage, rounds[0].eligible, rounds[0].coin) == left;
      assert left == [left[0]] + left[1..];
      WaitsItsTurn(After(stage, rounds[0]), rounds[1..], id);
    }
  }

  /** The first selection that had to build a new tour. */
  function FirstRebuild(stage: Stage, rounds: seq<Round>): (r: nat)
    requires Playable(rounds)
    ensures r <= |rounds|
    decreases |rounds|
  {
    if |rounds| == 0 || Rebuilds(stage, rounds[0]) then 0
    else 1 + FirstRebuild(After(stage, rounds[0]), rounds[1..])
  }

  /**
    A campaign that stays eligible while others come and go is chosen within the slots left in the
    tour plus four times the number eligible when the tour is rebuilt.
    */
  lemma {:induction false} NoStarvation(stage: Stage, rounds: seq<Round>, id: Id)
    requires Playable(rounds) && AlwaysEligible(rounds, id)
    requires id !in Picks(stage, rounds)
    ensures FirstRebuild(stage, rounds) <= |stage.tour|
    ensures FirstRebuild(stage, rounds) == |rounds|
            || |rounds| < FirstRebuild(stage, rounds)
                          + MAX_STAGE_SLOTS * |rounds[FirstRebuild(stage, rounds)].eligible|
    decreases |rounds|
  {
    if |rounds| > 0 {
      var first := rounds[0];
      if Rebuilds(stage, first) {
        BuiltFromEligible(first.eligible, stage.recent, first.coin);
        var tour := CurrentTour(stage, first.eligible, first.coin);
        assert tour == [tour[0]] + tour[1..];
        WaitsItsTurn(After(stage, first), rounds[1..], id);
      } else {
        NoStarvation(After(stage, first), rounds[1..], id);
      }
    }
  }
}
