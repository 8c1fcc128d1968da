/** What counts as spent and as served today, said of what happened rather than of how it is added up. */
module WorldToday {
  import opened Common
  import opened Sums
  import opened Serving
  import opened World
  import opened WorldShape

  predicate Today(t: nat, now: nat) { t / 86_400_000 == now / 86_400_000 }

  lemma {:induction false} TodaysWeight(w: World, c: Id, i: Impression)
    ensures SpentTodayWeight(c, DayStart(w.now))(i) ==
            if i.campaign == c && i.state != Rejected && Today(i.serverTs, w.now) then i.rate else 0
  {
    DayOf(i.serverTs, w.now);
    hide DayStart;
  }

  /** A day begins with nothing spent. */
  lemma {:induction false} NothingSpentYet(w: World, c: Id)
    requires forall i :: i in w.impressions && i.campaign == c && i.state != Rejected ==> !Today(i.serverTs, w.now)
    ensures SpentToday(w, c) == 0
  {
    forall k | 0 <= k < |w.impressions| ensures SpentTodayWeight(c, DayStart(w.now))(w.impressions[k]) == 0 {
      TodaysWeight(w, c, w.impressions[k]);
      assert w.impressions[k] in w.impressions;
    }
    hide SpentTodayWeight, DayStart;
    SumZero(w.impressions, SpentTodayWeight(c, DayStart(w.now)));
  }

  /** An accepted report adds the price of its ad to its own campaign; no other report counts. */
  lemma {:induction false} ReportSpends(cfg: Config, w: World, publisher: Id, ev: Report, c: Id)
    requires Offers(w)
    ensures var w' := Ingest(cfg, w, publisher, ev, NoCrash);
            var accepted := IngestOne(cfg, w.deliveries, w.impressions, w.now, publisher, ev).verdict.Accepted?;
            && (!accepted || ev.campaign != c ==> SpentToday(w', c) == SpentToday(w, c))
            && (accepted ==> forall d :: d in w.deliveries && d.nonce == ev.nonce && d.campaign == c ==>
                  SpentToday(w', c) == SpentToday(w, c) + d.rate)
  {
    var accepted, k := IngestCases(cfg, w, publisher, ev, NoCrash);
    WrittenForAReport(cfg, w.deliveries, w.impressions, w.now, publisher, ev);
    var w' := Ingest(cfg, w, publisher, ev, NoCrash);
    hide Ingest, IngestOne, DayStart, SpentTodayWeight, Offers;
    if w'.impressions != w.impressions {
      var made := w'.impressions[|w.impressions|];
      assert w'.impressions == w.impressions + [made];
      SumAppend(w.impressions, made, SpentTodayWeight(c, DayStart(w.now)));
      TodaysWeight(w, c, made);
    }
  }

  /** A rejection takes today's price back; being verified changes nothing. */
  lemma {:induction false} VerdictRefunds(cfg: Config, w: World, k: nat, o: Oracle, c: Id)
    requires k < |w.impressions| && w.impressions[k].state == Pending
    ensures var i := w.impressions[k];
            var w' := Verify(cfg, w, k, o, false);
            |w'.impressions| == |w.impressions| && SpentToday(w', c) ==
            SpentToday(w, c) - (if w'.impressions[k].state == Rejected && i.campaign == c && Today(i.serverTs, w.now) then i.rate else 0)
  {
    var w' := Verify(cfg, w, k, o, false);
    var posted, decided := VerifyCases(cfg, w, k, o, false);
    hide Verify, DayStart, SpentTodayWeight;
    if decided.Some? {
      SumUpdate(w.impressions, k, decided.value, SpentTodayWeight(c, DayStart(w.now)));
      TodaysWeight(w, c, decided.value);
      TodaysWeight(w, c, w.impressions[k]);
    }
  }

  /** What a member was served today: live ads of these campaigns, and reports of today that were not rejected, one by one. */
  lemma {:induction false} ServedTodayCounts(w: World, publisher: Id, campaigns: set<Id>)
    ensures ServedToday(w, publisher, campaigns) ==
            |Hits(w.deliveries, (d: Delivery) =>
                !d.consumed && w.now <= d.expiresAt && d.publisher == publisher && d.campaign in campaigns)|
            + |Hits(w.impressions, (i: Impression) =>
                i.state != Rejected && w.now / 86_400_000 <= i.serverTs / 86_400_000 && i.publisher == publisher && i.campaign in campaigns)|
  {
    var v := OneFor(publisher, campaigns);
    SumCounts(w.deliveries, LiveWeight(w.now, v), (d: Delivery) =>
      !d.consumed && w.now <= d.expiresAt && d.publisher == publisher && d.campaign in campaigns);
    forall i: Impression ensures DayStart(w.now) <= i.serverTs <==> w.now / 86_400_000 <= i.serverTs / 86_400_000 {
      SinceDay(i.serverTs, w.now);
    }
    hide DayStart;
    SumCounts(w.impressions, CountedWeight(v, DayStart(w.now)), (i: Impression) =>
      i.state != Rejected && w.now / 86_400_000 <= i.serverTs / 86_400_000 && i.publisher == publisher && i.campaign in campaigns);
  }

  lemma {:induction false} SinceDay(s: nat, t: nat)
    ensures DayStart(t) <= s <==> t / 86_400_000 <= s / 86_400_000
  {
    assert DayStart(t) == t / DAY_MS * DAY_MS;
  }
}
