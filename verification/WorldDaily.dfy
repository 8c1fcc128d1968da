/**
  What is counted as spent of an advertiser's money, pending and verified together, never exceeds what was
  deposited, where impression ids are unique across publishers; so `spentToday` never leaves the 64-bit range.
  */
module WorldDaily {
  import opened Common
  import opened Money
  import opened Sums
  import opened Ledger
  import opened LedgerFacts
  import opened LedgerBounds
  import opened LedgerBook
  import opened Serving
  import opened World
  import opened WorldShape
  import opened Commitments
  import opened RangeChecks
  import opened WorldMoney
  import opened WorldAudit
  import opened WorldBilling
  import opened WorldTotals

  /* ---------- an advertiser's balance, part by part ---------- */

  function TopupIn(a: Id): Posting -> int { (p: Posting) => if p.Topup? && p.advertiser == a then p.amount else 0 }

  function ShownOut(a: Id): Posting -> int { (p: Posting) => if p.Shown? && p.advertiser == a then p.rate else 0 }

  function SubmitOut(a: Id): Posting -> int
  {
    (p: Posting) => if p.Submitted? && p.kind == AdvertiserKind && p.owner == a then p.amount else 0
  }

  function BackIn(a: Id): Posting -> int { (p: Posting) => if p.Reversal? then EffectOf(p, Advertiser(a)) else 0 }

  lemma {:induction false} BalanceInParts(j: seq<Posting>, a: Id)
    ensures Balance(j, Advertiser(a)) == Sum(j, TopupIn(a)) - Sum(j, ShownOut(a)) - Sum(j, SubmitOut(a)) + Sum(j, BackIn(a))
  {
    if |j| > 0 {
      BalanceInParts(j[..|j| - 1], a);
    }
  }

  /** Top-ups are part of the deposits. */
  lemma {:induction false} TopupsWithinDeposits(j: seq<Posting>, a: Id)
    requires SoundJournal(j) && PayoutShape(j)
    ensures Sum(j, TopupIn(a)) <= Deposits(j)
  {
    if |j| > 0 {
      var front, p := j[..|j| - 1], j[|j| - 1];
      assert j == front + [p];
      ShapeOfPrefix(front, p);
      OutwardOnly(j, |j| - 1);
      assert SoundPosting(p);
      hide PayoutShape, SoundJournal;
      TopupsWithinDeposits(front, a);
    }
  }

  function SubmitBehind(p: Posting, a: Id): Posting
  {
    if p.Reversal? && p.refId.Payout? then Submitted(AdvertiserKind, p.refId.batch, a, BackIn(a)(p)) else p
  }

  /** What a reversal gives an advertiser back, one of his payouts took. */
  lemma {:induction false} GivesBackSubmit(j: seq<Posting>, i: nat, a: Id)
    requires SoundJournal(j) && PayoutShape(j) && i < |j| && 0 < BackIn(a)(j[i])
    ensures var q := SubmitBehind(j[i], a);
            && q in j && BackIn(a)(j[i]) <= SubmitOut(a)(q)
            && j[i].refId.Payout? && q.batch == j[i].refId.batch && j[i].refId.owner == a
  {
    var p := j[i];
    assert Answers(j, i);
    var k :| 0 <= k < i && IsSubmit(j[k], p.refId.batch, p.refId.owner) && p.original == EntriesOf(j[k]);
    EntriesEffect(j[k], Advertiser(a));
    assert EffectOf(p, Advertiser(a)) == -EffectOf(j[k], Advertiser(a));
    assert j[k] == Submitted(AdvertiserKind, p.refId.batch, a, BackIn(a)(p));
  }

  lemma {:induction false} BackWithinOut(j: seq<Posting>, a: Id)
    requires SoundJournal(j) && PayoutShape(j)
    ensures Sum(j, BackIn(a)) <= Sum(j, SubmitOut(a))
  {
    var f := (p: Posting) => SubmitBehind(p, a);
    forall i {:trigger j[i]} | 0 <= i < |j| ensures BackIn(a)(j[i]) <= 0 || (f(j[i]) in j && BackIn(a)(j[i]) <= SubmitOut(a)(f(j[i]))) {
      if 0 < BackIn(a)(j[i]) {
        GivesBackSubmit(j, i, a);
      }
    }
    forall i, k | 0 <= i < k < |j| && 0 < BackIn(a)(j[i]) && 0 < BackIn(a)(j[k]) ensures f(j[i]) != f(j[k]) {
      GivesBackSubmit(j, i, a);
      GivesBackSubmit(j, k, a);
      assert IdOf(j[i]) != IdOf(j[k]);
    }
    forall i | 0 <= i < |j| ensures 0 <= SubmitOut(a)(j[i]) {
      assert SoundPosting(j[i]);
    }
    Covered(j, j, BackIn(a), SubmitOut(a), f);
  }

  /** What was billed to an advertiser and what he still has come out of his deposits. */
  lemma {:induction false} BilledWithinDeposits(j: seq<Posting>, a: Id)
    requires SoundJournal(j) && PayoutShape(j)
    ensures Sum(j, ShownOut(a)) + Balance(j, Advertiser(a)) <= Deposits(j)
  {
    BalanceInParts(j, a);
    TopupsWithinDeposits(j, a);
    BackWithinOut(j, a);
  }

  /* ---------- what is counted ---------- */

  /** A counted impression under whose id the ledger holds a debit. */
  function BilledValue(i: Impression, j: seq<Posting>, a: Id): int
  {
    if i.state != Rejected && HasId(j, ShownId(i.id)) then RateOf(a)(OfImpression(i)) else 0
  }

  function BilledPart(j: seq<Posting>, a: Id): Impression -> int { (i: Impression) => BilledValue(i, j, a) }

  lemma {:induction false} BilledPartIsCovered(w: World, a: Id)
    requires Good(w) && Charges(w) && FreshIds(w.backs)
    ensures Sum(w.impressions, BilledPart(w.journal, a)) <= Sum(w.journal, ShownOut(a))
  {
    var f := (i: Impression) => ShownOf(i);
    forall k {:trigger w.impressions[k]} | 0 <= k < |w.impressions|
      ensures BilledPart(w.journal, a)(w.impressions[k]) <= 0
              || (f(w.impressions[k]) in w.journal && BilledPart(w.journal, a)(w.impressions[k]) <= ShownOut(a)(f(w.impressions[k]))) {
      if 0 < BilledPart(w.journal, a)(w.impressions[k]) {
        BilledAsOwn(w, w.impressions[k]);
      }
    }
    DistinctShown(w);
    forall i | 0 <= i < |w.journal| ensures 0 <= ShownOut(a)(w.journal[i]) {
      assert SoundPosting(w.journal[i]);
    }
    assert UniqueIds(w.journal);
    hide Good, Charges, FreshIds, HasId, UniqueIds;
    Covered(w.impressions, w.journal, BilledPart(w.journal, a), ShownOut(a), f);
  }

  lemma {:induction false} DistinctShown(w: World)
    requires Good(w)
    ensures forall i, k :: 0 <= i < k < |w.impressions| ==> ShownOf(w.impressions[i]) != ShownOf(w.impressions[k])
  {
    assert UniqueReports(w.impressions);
  }

  /** Pending and verified together stay within the deposits. */
  lemma {:induction false} CountedWithinDeposits(w: World, a: Id)
    requires Good(w) && Charges(w) && FreshIds(w.backs)
    ensures CountedSum(w, RateOf(a), 0) <= Deposits(w.journal)
  {
    var j := w.journal;
    assert SoundJournal(j) && PayoutShape(j) && 0 <= Free(w, a);
    RatesWeigh(w, a, {});
    SumNonNegative(w.deliveries, LiveWeight(w.now, RateOf(a)));
    BilledWithinDeposits(j, a);
    BilledPartIsCovered(w, a);
    PartsOfCounted(w, a);
    hide Good, Charges, FreshIds, Balance, LiveSum, UnpostedSum, CountedSum;
  }

  lemma {:induction false} PartsOfCounted(w: World, a: Id)
    requires Charges(w)
    ensures CountedSum(w, RateOf(a), 0) == Sum(w.impressions, BilledPart(w.journal, a)) + UnpostedSum(w, RateOf(a))
  {
    hide HasId;
    SumAdd(w.impressions, BilledPart(w.journal, a), UnpostedWeight(w.journal, RateOf(a)), CountedWeight(RateOf(a), 0));
  }

  /* ---------- the daily total of a campaign ---------- */

  /** The counted impressions of a campaign are all paid by one advertiser. */
  lemma {:induction false} OnePayer(w: World, i: nat, k: nat)
    requires Good(w) && i < |w.impressions| && k < |w.impressions|
    requires w.impressions[i].state != Rejected && w.impressions[k].state != Rejected
    requires w.impressions[i].campaign == w.impressions[k].campaign
    ensures w.impressions[i].advertiser == w.impressions[k].advertiser
  {
    assert GoodReport(w, w.impressions[i]) && GoodReport(w, w.impressions[k]);
    var d, e := w.served[w.impressions[i].nonce], w.served[w.impressions[k].nonce];
    assert GoodOffer(w.campaigns, d.nonce, d) && GoodOffer(w.campaigns, e.nonce, e);
    var m :| 0 <= m < |w.campaigns| && w.campaigns[m].id == d.campaign && w.campaigns[m].advertiser == d.advertiser;
    var n :| 0 <= n < |w.campaigns| && w.campaigns[n].id == e.campaign && w.campaigns[n].advertiser == e.advertiser;
    assert Catalogue(w);
  }

  lemma {:induction false} RatesAreNotNegative(w: World)
    requires Good(w)
    ensures forall k :: 0 <= k < |w.impressions| ==> 0 <= w.impressions[k].rate
  {
    forall k | 0 <= k < |w.impressions| ensures 0 <= w.impressions[k].rate {
      assert GoodReport(w, w.impressions[k]);
    }
  }

  lemma {:induction false} DailyWithinCounted(w: World, c: Id, at: nat)
    requires Good(w) && at < |w.impressions| && w.impressions[at].campaign == c && w.impressions[at].state != Rejected
    ensures SpentToday(w, c) <= CountedSum(w, RateOf(w.impressions[at].advertiser), 0)
  {
    var a := w.impressions[at].advertiser;
    RatesAreNotNegative(w);
    forall k | 0 <= k < |w.impressions|
      ensures SpentTodayWeight(c, DayStart(w.now))(w.impressions[k]) <= CountedWeight(RateOf(a), 0)(w.impressions[k]) {
      if w.impressions[k].campaign == c && w.impressions[k].state != Rejected {
        OnePayer(w, at, k);
      }
    }
    hide Good;
    SumMono(w.impressions, SpentTodayWeight(c, DayStart(w.now)), CountedWeight(RateOf(a), 0));
  }

  /**
    In every run with globally unique impression ids and deposits in range, `spentToday` adds up for every
    campaign.
    */
  lemma {:induction false} DailyTotalsAddUp(cfg: Config, events: seq<Event>, c: Id)
    requires var w := Run(cfg, Empty(), events); FreshIds(w.backs) && Deposits(w.journal) <= MAX_STROOPS
    ensures var w := Run(cfg, Empty(), events); 0 <= SpentToday(w, c) <= Deposits(w.journal) && SpentTodayFits(w, c)
  {
    var w := Run(cfg, Empty(), events);
    ChargesInRuns(cfg, events);
    hide Run;
    SpentTodayIsBounded(w, c);
  }

  lemma {:induction false} SpentTodayIsBounded(w: World, c: Id)
    requires Good(w) && Charges(w) && FreshIds(w.backs) && Deposits(w.journal) <= MAX_STROOPS
    ensures 0 <= SpentToday(w, c) <= Deposits(w.journal) && SpentTodayFits(w, c)
  {
    var v := SpentTodayWeight(c, DayStart(w.now));
    RatesAreNotNegative(w);
    SumNonNegative(w.impressions, v);
    assert SoundJournal(w.journal) && PayoutShape(w.journal);
    ExternalBalances(w.journal);
    if at :| 0 <= at < |w.impressions| && w.impressions[at].campaign == c && w.impressions[at].state != Rejected {
      DailyWithinCounted(w, c, at);
      CountedWithinDeposits(w, w.impressions[at].advertiser);
    } else {
      SumZero(w.impressions, v);
    }
    hide Good, Charges, FreshIds, Deposits, AddsUp;
    AddsUpWithin(w.impressions, v, 0);
  }

  /**
    All together: with deposits, budgets and each sponsor's pledges in range and globally unique impression
    ids, no range check of serving or of a withdrawal's ceiling ever fires.
    */
  lemma {:induction false} EveryTotalFits(cfg: Config, events: seq<Event>)
    requires var w := Run(cfg, Empty(), events);
             FreshIds(w.backs) && Deposits(w.journal) <= MAX_STROOPS && forall s :: Pledged(w, s) <= MAX_STROOPS
    requires forall n :: 0 <= n < |events| ==> BudgetsUpTo(events[n], MAX_STROOPS)
    ensures var w := Run(cfg, Empty(), events);
            AllFit(w) && forall a {:trigger AmountIn(a)} :: NoOverflow(Expand(w.journal), AmountIn(a))
  {
    var w := Run(cfg, Empty(), events);
    TotalsAddUp(cfg, events);
    NoMoneyError(cfg, events);
    hide Run, SpendableFits, SpentOnFits, ReserveFits, SpentTodayFits, FreshIds, Pledged, NoOverflow;
    forall c ensures SpentTodayFits(w, c) {
      DailyTotalsAddUp(cfg, events, c);
    }
  }
}
