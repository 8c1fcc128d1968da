/**
  How each step changes what is committed. `Exposed` counts live deliveries and pending impressions
  the ledger has not billed yet; `Charged` counts live deliveries and every impression not rejected.
  Both take any weighting of a stake, so they serve money, impression counts and pools alike.
  */
module Commitments {
  import opened Common
  import opened Sums
  import opened Ledger
  import opened LedgerFacts
  import opened Serving
  import opened World
  import opened WorldShape

  predicate Unposted(j: seq<Posting>, i: Impression) { i.state == Pending && !HasId(j, ShownId(i.id)) }

  function UnpostedValue(i: Impression, j: seq<Posting>, v: Stake -> int): int
  {
    if Unposted(j, i) then v(OfImpression(i)) else 0
  }

  function UnpostedWeight(j: seq<Posting>, v: Stake -> int): Impression -> int
  {
    (i: Impression) => UnpostedValue(i, j, v)
  }

  function UnpostedSum(w: World, v: Stake -> int): int { Sum(w.impressions, UnpostedWeight(w.journal, v)) }

  function Exposed(w: World, v: Stake -> int): int { LiveSum(w, v) + UnpostedSum(w, v) }

  function Charged(w: World, v: Stake -> int, since: int): int { LiveSum(w, v) + CountedSum(w, v, since) }

  /** A weighting that is not negative on anything this world holds. */
  ghost predicate Weighs(w: World, v: Stake -> int)
  {
    && (forall k :: 0 <= k < |w.deliveries| ==> 0 <= v(OfDelivery(w.deliveries[k])))
    && (forall k :: 0 <= k < |w.impressions| ==> 0 <= v(OfImpression(w.impressions[k])))
  }

  lemma {:induction false} RatesWeigh(w: World, a: Id, campaigns: set<Id>)
    requires Offers(w) && Reports(w)
    ensures Weighs(w, RateOf(a)) && Weighs(w, RateIn(campaigns))
  {
    forall k | 0 <= k < |w.deliveries| ensures 0 <= w.deliveries[k].rate {
      assert Registered(w, w.deliveries[k]);
    }
    forall k | 0 <= k < |w.impressions| ensures 0 <= w.impressions[k].rate {
      assert GoodReport(w, w.impressions[k]);
    }
  }

  lemma {:induction false} ExposedIsNotNegative(w: World, v: Stake -> int)
    requires Weighs(w, v)
    ensures 0 <= LiveSum(w, v) && 0 <= UnpostedSum(w, v) && UnpostedSum(w, v) <= PendingSum(w, v)
  {
    SumNonNegative(w.deliveries, LiveWeight(w.now, v));
    SumNonNegative(w.impressions, UnpostedWeight(w.journal, v));
    SumMono(w.impressions, UnpostedWeight(w.journal, v), PendingWeight(v));
  }

  /* ---------- time ---------- */

  lemma {:induction false} TickCommits(w: World, ms: nat, v: Stake -> int)
    requires Weighs(w, v)
    ensures LiveSum(w.(now := w.now + ms), v) <= LiveSum(w, v)
  {
    SumMono(w.deliveries, LiveWeight(w.now + ms, v), LiveWeight(w.now, v));
  }

  /* ---------- serving ---------- */

  lemma {:induction false} ServeCommits(w: World, w': World, d: Delivery, v: Stake -> int)
    requires w'.now == w.now && Live(d, w.now)
    requires w'.deliveries == Keep(w.deliveries + [d], (x: Delivery) => KeptByGc(x, w.now))
    ensures LiveSum(w', v) == LiveSum(w, v) + v(OfDelivery(d))
  {
    SumAppend(w.deliveries, d, LiveWeight(w.now, v));
    SumKeep(w.deliveries + [d], (x: Delivery) => KeptByGc(x, w.now), LiveWeight(w.now, v));
  }

  lemma {:induction false} VacuumCommits(w: World, before: int, v: Stake -> int)
    ensures var w' := Vacuum(w, before);
            LiveSum(w', v) == LiveSum(w, v) && UnpostedSum(w', v) == UnpostedSum(w, v)
  {
    hide Reboot;
    VacuumCases(w, before);
    SumKeep(w.deliveries, (d: Delivery) => KeptByGc(d, w.now), LiveWeight(w.now, v));
    SumKeep(w.impressions, (i: Impression) => i.state == Pending || i.serverTs >= before, UnpostedWeight(w.journal, v));
  }

  /* ---------- reporting ---------- */

  /** An accepted report moves its stake from the deliveries to the impressions. */
  lemma {:induction false} AcceptCommits(w: World, w': World, k: nat, v: Stake -> int)
    requires k < |w.deliveries| && Live(w.deliveries[k], w.now) && w'.now == w.now
    requires w'.deliveries == w.deliveries[k := w.deliveries[k].(consumed := true)]
    ensures LiveSum(w', v) == LiveSum(w, v) - v(OfDelivery(w.deliveries[k]))
  {
    SumUpdate(w.deliveries, k, w.deliveries[k].(consumed := true), LiveWeight(w.now, v));
  }

  lemma {:induction false} ReportCommits(w: World, w': World, i: Impression, v: Stake -> int, since: int)
    requires w'.journal == w.journal && w'.impressions == w.impressions + [i]
    ensures UnpostedSum(w', v) == UnpostedSum(w, v) + UnpostedWeight(w.journal, v)(i)
    ensures CountedSum(w', v, since) == CountedSum(w, v, since) + CountedWeight(v, since)(i)
  {
    SumAppend(w.impressions, i, UnpostedWeight(w.journal, v));
    SumAppend(w.impressions, i, CountedWeight(v, since));
  }

  /** The stake a crash loses between marking the nonce used and saving the impression. */
  function Dropped(cfg: Config, w: World, publisher: Id, ev: Report, crash: IngestCrash): Option<Stake>
  {
    var k := DeliveryAt(w.deliveries, ev.nonce);
    if crash.AfterConsume? && k >= 0 && IngestOne(cfg, w.deliveries, w.impressions, w.now, publisher, ev).verdict.Accepted?
    then Some(OfDelivery(w.deliveries[k])) else None
  }

  function ValueOf(s: Option<Stake>, v: Stake -> int): int { if s.Some? then v(s.value) else 0 }

  /** The whole of one report, for any weighting. */
  lemma {:induction false} IngestCommits(cfg: Config, w: World, publisher: Id, ev: Report, crash: IngestCrash, v: Stake -> int, since: int)
    requires Offers(w) && Weighs(w, v) && since <= w.now
    ensures var w' := Ingest(cfg, w, publisher, ev, crash);
            var lost := ValueOf(Dropped(cfg, w, publisher, ev, crash), v);
            && 0 <= lost
            && Exposed(w', v) <= Exposed(w, v) - lost
            && Charged(w', v, since) == Charged(w, v, since) - lost
    ensures var s := Dropped(cfg, w, publisher, ev, crash);
            s.Some? ==> exists k :: 0 <= k < |w.deliveries| && s.value == OfDelivery(w.deliveries[k])
  {
    var w' := Ingest(cfg, w, publisher, ev, crash);
    var accepted, k := IngestCases(cfg, w, publisher, ev, crash);
    hide Ingest;
    if accepted {
      AcceptCommits(w, w', k, v);
      assert k == DeliveryAt(w.deliveries, ev.nonce);
      if crash.NoCrash? {
        var i := Build(w.deliveries, w.now, publisher, ev, Pending, None);
        ReportCommits(w, w', i, v, since);
        assert OfImpression(i) == OfDelivery(w.deliveries[k]);
      }
    } else if w'.impressions != w.impressions {
      var r :| w'.impressions == w.impressions + [Build(w.deliveries, w.now, publisher, ev, Rejected, Some(r))];
      ReportCommits(w, w', Build(w.deliveries, w.now, publisher, ev, Rejected, Some(r)), v, since);
    }
  }

  /* ---------- verifying ---------- */

  /** Postings other than an impression leave every impression as billed or unbilled as it was. */
  lemma {:induction false} OtherPostCommits(j: seq<Posting>, p: Posting, imps: seq<Impression>, v: Stake -> int)
    requires !p.Shown?
    ensures Sum(imps, UnpostedWeight(Post(j, p), v)) == Sum(imps, UnpostedWeight(j, v))
  {
    forall i | 0 <= i < |imps| ensures HasId(Post(j, p), ShownId(imps[i].id)) <==> HasId(j, ShownId(imps[i].id)) {
      HasIdGrows(j, p, ShownId(imps[i].id));
    }
    SumSame(imps, UnpostedWeight(Post(j, p), v), UnpostedWeight(j, v));
  }

  /** Billing an impression that was pending and unbilled takes its stake out of the exposed ones. */
  lemma {:induction false} BillCommits(w: World, k: nat, v: Stake -> int)
    requires k < |w.impressions| && w.impressions[k].state == Pending && Weighs(w, v)
    ensures var j' := Post(w.journal, ShownOf(w.impressions[k]));
            && Sum(w.impressions, UnpostedWeight(j', v)) <= UnpostedSum(w, v) - UnpostedWeight(w.journal, v)(w.impressions[k])
            && !Unposted(j', w.impressions[k])
  {
    var p := ShownOf(w.impressions[k]);
    var j' := Post(w.journal, p);
    forall i | 0 <= i < |w.impressions| ensures HasId(w.journal, ShownId(w.impressions[i].id)) ==> HasId(j', ShownId(w.impressions[i].id)) {
      HasIdGrows(w.journal, p, ShownId(w.impressions[i].id));
    }
    HasIdGrows(w.journal, p, IdOf(p));
    SumDrop(w.impressions, k, UnpostedWeight(w.journal, v), UnpostedWeight(j', v));
  }

  /** Deciding an impression changes its own weight only. */
  lemma {:induction false} DecideCommits(j: seq<Posting>, imps: seq<Impression>, k: nat, i: Impression, v: Stake -> int, since: int)
    requires k < |imps| && imps[k].state == Pending && i.state != Pending
    requires i == imps[k].(state := i.state, reason := i.reason)
    ensures Sum(imps[k := i], UnpostedWeight(j, v)) == Sum(imps, UnpostedWeight(j, v)) - UnpostedWeight(j, v)(imps[k])
    ensures Sum(imps[k := i], CountedWeight(v, since)) ==
            Sum(imps, CountedWeight(v, since)) - (if i.state == Rejected then CountedWeight(v, since)(imps[k]) else 0)
  {
    SumUpdate(imps, k, i, UnpostedWeight(j, v));
    SumUpdate(imps, k, i, CountedWeight(v, since));
  }

  /** One verification round: what leaves the exposed stakes, and what the ledger bills. */
  lemma {:induction false} VerifyCommits(cfg: Config, w: World, k: nat, o: Oracle, crash: bool, v: Stake -> int, since: int)
    returns (billed: bool, denied: bool)
    requires Reports(w) && Weighs(w, v)
    ensures var w' := Verify(cfg, w, k, o, crash);
            && w'.now == w.now && LiveSum(w', v) == LiveSum(w, v)
            && (denied <==> k < |w.impressions| && w.impressions[k].state == Pending && Judged(cfg, w, k, o).Deny?)
            && (billed || denied ==> k < |w.impressions| && w.impressions[k].state == Pending)
            && w'.journal == (if billed then w.journal + [ShownOf(w.impressions[k])] else w.journal)
            && (billed ==> !denied && Unposted(w.journal, w.impressions[k]) && CanPostImpression(w.impressions[k]))
            && UnpostedSum(w', v) <= UnpostedSum(w, v)
                 - (if billed || denied then UnpostedWeight(w.journal, v)(w.impressions[k]) else 0)
            && CountedSum(w', v, since) == CountedSum(w, v, since)
                 - (if denied then CountedWeight(v, since)(w.impressions[k]) else 0)
  {
    var w' := Verify(cfg, w, k, o, crash);
    var posted, decided := VerifyCases(cfg, w, k, o, crash);
    hide Verify;
    billed := posted && !HasId(w.journal, ShownId(w.impressions[k].id));
    denied := !posted && decided.Some?;
    if posted {
      BillCommits(w, k, v);
    }
    if decided.Some? {
      DecideCommits(w'.journal, w.impressions, k, decided.value, v, since);
    }
  }
}
