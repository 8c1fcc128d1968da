/**
  Exactly-once billing: a nonce backs at most one counted impression and one debit, at the terms
  frozen when its ad was handed out. Impression ids are unique per publisher only, while the ledger's
  keys leave the publisher out; the last part says exactly what that costs.
  */
module WorldBilling {
  import opened Common
  import opened Ledger
  import opened Selector
  import opened Serving
  import opened World
  import opened WorldShape
  import opened WorldPayouts
  import opened WorldMoney
  import opened WorldAudit

  /** Posting p is the charge for the ad handed out under nonce n: same impression, same frozen terms. */
  ghost predicate ChargeFor(w: World, p: Posting, n: Id)
  {
    && p.Shown? && n in w.backs && w.backs[n] == (p.publisher, p.impression)
    && n in w.served && w.served[n].publisher == p.publisher && w.served[n].campaign == p.campaign
    && w.served[n].advertiser == p.advertiser && w.served[n].rate == p.rate && w.served[n].bps == p.bps
  }

  ghost predicate Explained(w: World, p: Posting) { p.Shown? ==> exists n :: ChargeFor(w, p, n) }

  /** Every debit is the charge for some ad that was handed out, and a verified impression has been billed. */
  ghost predicate Charges(w: World)
  {
    && (forall k {:trigger w.journal[k]} :: 0 <= k < |w.journal| ==> Explained(w, w.journal[k]))
    && (forall k :: 0 <= k < |w.impressions| && w.impressions[k].state == Verified ==>
          HasId(w.journal, ShownId(w.impressions[k].id)))
  }

  /** What was handed out and what was accepted is never forgotten or rewritten. */
  ghost predicate Remembers(w: World, w': World)
  {
    && (forall n :: n in w.served ==> n in w'.served && w'.served[n] == w.served[n])
    && (forall n :: n in w.backs ==> n in w'.backs && w'.backs[n] == w.backs[n])
  }

  lemma {:induction false} AdRemembers(cfg: Config, w: World, e: AdEvent)
    requires Offers(w)
    ensures Remembers(w, AdStep(cfg, w, e))
  {
    hide Serve, Ingest, Verify, Vacuum, Passes, DepsFor, SpendableFor, Keep, ReturnSlots, Live, Seen, Build;
    match e {
      case DoServe(p, n, coin, crash) => var made := ServeCases(cfg, w, p, n, coin, crash);
      case DoIngest(p, ev, crash) =>
        var accepted, k := IngestCases(cfg, w, p, ev, crash);
        if accepted {
          assert Registered(w, w.deliveries[k]);
        }
      case _ =>
    }
  }

  lemma {:induction false} Remembered(cfg: Config, w: World, e: Event)
    requires Offers(w)
    ensures Remembers(w, Step(cfg, w, e))
  {
    hide AdStep, PayStep, MarketStep;
    if e.Ad? {
      AdRemembers(cfg, w, e.ad);
    }
  }

  lemma {:induction false} ExplainedPersists(w: World, w': World, p: Posting)
    requires Remembers(w, w') && Explained(w, p)
    ensures Explained(w', p)
  {
    if p.Shown? {
      var n :| ChargeFor(w, p, n);
      assert ChargeFor(w', p, n);
    }
  }

  /** The posting a step adds, if any, is explained too. */
  lemma {:induction false} EnteredExplained(w: World, w': World, p: Posting)
    requires Reports(w) && Entered(w, w', p)
    ensures Explained(w, p)
  {
    if p.Shown? {
      var k :| 0 <= k < |w.impressions| && p == ShownOf(w.impressions[k]) && w.impressions[k].state == Pending;
      assert GoodReport(w, w.impressions[k]);
      assert ChargeFor(w, p, w.impressions[k].nonce);
    }
  }

  lemma {:induction false} BilledStaysBilled(cfg: Config, w: World, e: Event, id: Id)
    requires Payouts(w) && HasId(w.journal, ShownId(id))
    ensures HasId(Step(cfg, w, e).journal, ShownId(id))
  {
    var p := StepWrites(cfg, w, e);
    hide Step;
    if p.Some? {
      PostKeepsIds(w.journal, p.value, ShownId(id));
    }
  }

  /** Where a verified impression of the next world comes from. */
  lemma {:induction false} VerifiedCases(cfg: Config, w: World, e: AdEvent, i: Impression)
    requires i in AdStep(cfg, w, e).impressions && i.state == Verified
    ensures i in w.impressions || HasId(AdStep(cfg, w, e).journal, ShownId(i.id))
  {
    hide Serve, Ingest, Verify, Vacuum;
    match e {
      case DoIngest(p, ev, crash) => var accepted, k := IngestCases(cfg, w, p, ev, crash);
      case DoVerify(k, o, crash) =>
        var posted, decided := VerifyCases(cfg, w, k, o, crash);
        if posted {
          PostHasId(w.journal, ShownOf(w.impressions[k]));
        }
      case DoVacuum(before) => VacuumCases(w, before);
      case _ =>
    }
  }

  lemma {:induction false} AllExplained(cfg: Config, w: World, e: Event)
    requires Good(w) && Charges(w)
    ensures var w' := Step(cfg, w, e);
            forall k {:trigger w'.journal[k]} :: 0 <= k < |w'.journal| ==> Explained(w', w'.journal[k])
  {
    var w' := Step(cfg, w, e);
    Remembered(cfg, w, e);
    var p := StepWrites(cfg, w, e);
    if p.Some? {
      EnteredExplained(w, w', p.value);
      ExplainedPersists(w, w', p.value);
    }
    assert w'.journal == w.journal || (p.Some? && w'.journal == w.journal + [p.value]);
    hide Step, Explained, Remembers, Good, Entered, Post, HasId;
    forall k | 0 <= k < |w'.journal| ensures Explained(w', w'.journal[k]) {
      if k < |w.journal| {
        ExplainedPersists(w, w', w.journal[k]);
      }
    }
  }

  lemma {:induction false} ChargesStep(cfg: Config, w: World, e: Event)
    requires Good(w) && Charges(w)
    ensures Charges(Step(cfg, w, e))
  {
    var w' := Step(cfg, w, e);
    AllExplained(cfg, w, e);
    hide Step, Explained, Good, HasId;
    forall k | 0 <= k < |w'.impressions| && w'.impressions[k].state == Verified
      ensures HasId(w'.journal, ShownId(w'.impressions[k].id)) {
      var i := w'.impressions[k];
      VerifiedStays(cfg, w, e, i);
    }
  }

  lemma {:induction false} VerifiedStays(cfg: Config, w: World, e: Event, i: Impression)
    requires Good(w) && Charges(w) && i in Step(cfg, w, e).impressions && i.state == Verified
    ensures HasId(Step(cfg, w, e).journal, ShownId(i.id))
  {
    if e.Ad? {
      VerifiedCases(cfg, w, e.ad, i);
    }
    hide AdStep, PayStep, MarketStep;
    if i in w.impressions {
      BilledStaysBilled(cfg, w, e, i.id);
    }
  }

  lemma {:induction false} ChargesInRuns(cfg: Config, events: seq<Event>)
    ensures Good(Run(cfg, Empty(), events)) && Charges(Run(cfg, Empty(), events))
  {
    Reachable(cfg, events);
    if |events| > 0 {
      ChargesInRuns(cfg, events[..|events| - 1]);
      hide Step;
      ChargesStep(cfg, Run(cfg, Empty(), events[..|events| - 1]), events[|events| - 1]);
    }
  }

  /* ---------- main results about billing ---------- */

  ghost predicate ChargedAt(w: World, k: int, n: Id) { 0 <= k < |w.journal| && ChargeFor(w, w.journal[k], n) }

  ghost predicate CountedAt(w: World, k: int, n: Id)
  {
    0 <= k < |w.impressions| && w.impressions[k].state != Rejected && w.impressions[k].nonce == n
  }

  /** Every debit belongs to an ad that was handed out; no two debits and no two counted impressions share a nonce. */
  ghost predicate BilledOnce(w: World)
  {
    && (forall k :: 0 <= k < |w.journal| && w.journal[k].Shown? ==> exists n :: ChargeFor(w, w.journal[k], n))
    && (forall k, m, n :: ChargedAt(w, k, n) && ChargedAt(w, m, n) ==> k == m)
    && (forall k, m, n :: CountedAt(w, k, n) && CountedAt(w, m, n) ==> k == m)
  }

  /** Exactly once, in every run, at the advertiser, publisher, campaign, rate and share frozen when the ad was handed out. */
  lemma {:induction false} ExactlyOnceBilling(cfg: Config, events: seq<Event>)
    ensures BilledOnce(Run(cfg, Empty(), events))
  {
    ChargesInRuns(cfg, events);
    var w := Run(cfg, Empty(), events);
    hide Run;
    forall k | 0 <= k < |w.journal| && w.journal[k].Shown? ensures exists n :: ChargeFor(w, w.journal[k], n) {
      assert Explained(w, w.journal[k]);
    }
    forall k, m, n | ChargedAt(w, k, n) && ChargedAt(w, m, n) ensures k == m {
      assert IdOf(w.journal[k]) == IdOf(w.journal[m]);
    }
    forall k, m, n | CountedAt(w, k, n) && CountedAt(w, m, n) ensures k == m {
      assert GoodReport(w, w.impressions[k]) && GoodReport(w, w.impressions[m]);
    }
  }

  /** No id was ever accepted under two nonces. */
  ghost predicate FreshIds(backs: map<Id, (Id, Id)>)
  {
    forall n, m :: n in backs && m in backs && backs[n].1 == backs[m].1 ==> n == m
  }

  /** Where ids are globally unique, what was billed under a counted impression's id is that impression. */
  lemma {:induction false} BilledAsOwn(w: World, i: Impression)
    requires Good(w) && Charges(w) && FreshIds(w.backs)
    requires i in w.impressions && i.state != Rejected && HasId(w.journal, ShownId(i.id))
    ensures ShownOf(i) in w.journal
  {
    var k :| 0 <= k < |w.journal| && IdOf(w.journal[k]) == ShownId(i.id);
    assert Explained(w, w.journal[k]);
    var n :| ChargeFor(w, w.journal[k], n);
    assert GoodReport(w, i);
    assert n == i.nonce;
    assert w.journal[k] == ShownOf(i);
  }

  /**
    A verified impression has always been billed under its id; and where ids are globally unique,
    it is its own publisher that was credited, at its own terms.
    */
  lemma {:induction false} VerifiedIsBilled(cfg: Config, events: seq<Event>, i: Impression)
    requires i in Run(cfg, Empty(), events).impressions && i.state == Verified
    ensures var w := Run(cfg, Empty(), events);
            HasId(w.journal, ShownId(i.id)) && (FreshIds(w.backs) ==> ShownOf(i) in w.journal)
  {
    ChargesInRuns(cfg, events);
    var w := Run(cfg, Empty(), events);
    hide Run;
    assert HasId(w.journal, ShownId(i.id));
    if FreshIds(w.backs) {
      BilledAsOwn(w, i);
    }
  }

  /**
    What approving an impression pays, exactly: the split of its rate when no impression of that id,
    of any publisher, was billed before, and nothing otherwise.
    */
  lemma {:induction false} ApprovalPays(cfg: Config, w: World, k: nat, o: Oracle, a: Account)
    requires Good(w) && k < |w.impressions| && w.impressions[k].state == Pending
    requires Verify(cfg, w, k, o, false).impressions == w.impressions[k := w.impressions[k].(state := Verified)]
    ensures Balance(Verify(cfg, w, k, o, false).journal, a) ==
            Balance(w.journal, a)
            + (if HasId(w.journal, ShownId(w.impressions[k].id)) then 0 else EffectOf(ShownOf(w.impressions[k]), a))
  {
    var w' := Verify(cfg, w, k, o, false);
    var posted, decided := VerifyCases(cfg, w, k, o, false);
    hide Verify;
    assert w'.impressions[k].state == Verified;
    PostedBalance(w.journal, ShownOf(w.impressions[k]), a);
  }

  /* ---------- rejected and billed ---------- */

  /** The ledger holds a debit for this publisher's impression. */
  ghost predicate Paid(w: World, i: Impression)
  {
    exists m :: 0 <= m < |w.journal| && PaidBy(w.journal[m], i)
  }

  ghost predicate PaidBy(p: Posting, i: Impression) { p.Shown? && p.impression == i.id && p.publisher == i.publisher }

  ghost predicate OnRecord(w: World, p: Posting)
  {
    p.Shown? ==> exists k :: 0 <= k < |w.impressions| && PaidBy(p, w.impressions[k])
  }

  /** Every debit still has its impression on record, and none of them was rejected. */
  ghost predicate NoneWasted(w: World)
  {
    && (forall m {:trigger w.journal[m]} :: 0 <= m < |w.journal| ==> OnRecord(w, w.journal[m]))
    && (forall k :: 0 <= k < |w.impressions| && w.impressions[k].state == Rejected ==> !Paid(w, w.impressions[k]))
  }

  /** The event rejects an impression that was billed: it was approved before, and a crash lost the mark. */
  ghost predicate RejectsPaid(cfg: Config, w: World, e: Event)
  {
    && e.Ad? && e.ad.DoVerify?
    && e.ad.k < |w.impressions| && w.impressions[e.ad.k].state == Pending
    && Judged(cfg, w, e.ad.k, e.ad.oracle).Deny? && Paid(w, w.impressions[e.ad.k])
  }

  lemma {:induction false} PaidWasSeen(w: World, i: Impression)
    requires NoneWasted(w)
    ensures Paid(w, i) ==> Seen(w.impressions, i.publisher, i.id)
  {
    if m :| 0 <= m < |w.journal| && PaidBy(w.journal[m], i) {
      assert OnRecord(w, w.journal[m]);
    }
  }

  lemma {:induction false} WastedByIngest(cfg: Config, w: World, p: Id, ev: Report, crash: IngestCrash)
    requires NoneWasted(w)
    ensures NoneWasted(Ingest(cfg, w, p, ev, crash))
  {
    var w' := Ingest(cfg, w, p, ev, crash);
    var accepted, k := IngestCases(cfg, w, p, ev, crash);
    hide Ingest;
    forall m | 0 <= m < |w'.journal| ensures OnRecord(w', w'.journal[m]) {
      assert OnRecord(w, w.journal[m]);
      if w.journal[m].Shown? {
        var i :| 0 <= i < |w.impressions| && PaidBy(w.journal[m], w.impressions[i]);
        assert PaidBy(w'.journal[m], w'.impressions[i]);
      }
    }
    forall i | 0 <= i < |w'.impressions| && w'.impressions[i].state == Rejected ensures !Paid(w', w'.impressions[i]) {
      if i < |w.impressions| {
        assert !Paid(w, w.impressions[i]);
      } else {
        PaidWasSeen(w, w'.impressions[i]);
      }
    }
  }

  lemma {:induction false} WastedByVerify(cfg: Config, w: World, k: nat, o: Oracle, crash: bool)
    requires Reports(w) && NoneWasted(w)
    ensures NoneWasted(Verify(cfg, w, k, o, crash)) <==> !RejectsPaid(cfg, w, Ad(DoVerify(k, o, crash)))
  {
    var w' := Verify(cfg, w, k, o, crash);
    var posted, decided := VerifyCases(cfg, w, k, o, crash);
    hide Verify;
    forall m | 0 <= m < |w'.journal| ensures OnRecord(w', w'.journal[m]) {
      if m < |w.journal| {
        assert OnRecord(w, w.journal[m]);
        if w.journal[m].Shown? {
          var i :| 0 <= i < |w.impressions| && PaidBy(w.journal[m], w.impressions[i]);
          assert PaidBy(w'.journal[m], w'.impressions[i]);
        }
      } else {
        assert PaidBy(w'.journal[m], w'.impressions[k]);
      }
    }
    if RejectsPaid(cfg, w, Ad(DoVerify(k, o, crash))) {
      var m :| 0 <= m < |w.journal| && PaidBy(w.journal[m], w.impressions[k]);
      assert PaidBy(w'.journal[m], w'.impressions[k]);
    } else {
      forall i | 0 <= i < |w'.impressions| && w'.impressions[i].state == Rejected ensures !Paid(w', w'.impressions[i]) {
        assert i != k || !posted;
        assert !Paid(w, w.impressions[i]);
        if m :| 0 <= m < |w'.journal| && PaidBy(w'.journal[m], w'.impressions[i]) {
          assert m < |w.journal| ==> PaidBy(w.journal[m], w.impressions[i]);
        }
      }
    }
  }

  lemma {:induction false} WastedFrame(w: World, w': World)
    requires NoneWasted(w) && w'.impressions == w.impressions
    requires w'.journal == w.journal || exists p :: w'.journal == Post(w.journal, p) && !p.Shown?
    ensures NoneWasted(w')
  {
    forall m | 0 <= m < |w'.journal| ensures OnRecord(w', w'.journal[m]) {
      if m < |w.journal| {
        assert OnRecord(w, w.journal[m]);
      }
    }
    forall k | 0 <= k < |w'.impressions| && w'.impressions[k].state == Rejected ensures !Paid(w', w'.impressions[k]) {
      assert !Paid(w, w.impressions[k]);
    }
  }

  /**
    "A rejected impression is never billed" is lost by exactly one kind of step: a rejection of an
    impression whose approval was written to the ledger before a crash. (Clearing out old records is
    the one event set aside: it removes what the claim is about.)
    */
  lemma {:induction false} RejectedIsUnbilled(cfg: Config, w: World, e: Event)
    requires Good(w) && NoneWasted(w) && !(e.Ad? && e.ad.DoVacuum?)
    ensures NoneWasted(Step(cfg, w, e)) <==> !RejectsPaid(cfg, w, e)
  {
    hide AdStep, PayStep, MarketStep;
    match e {
      case Ad(a) => WastedAd(cfg, w, a);
      case Pay(q) =>
        var p := PayWrites(cfg, w, q);
        WastedFrame(w, Step(cfg, w, e));
      case _ => WastedFrame(w, Step(cfg, w, e));
    }
  }

  lemma {:induction false} WastedAd(cfg: Config, w: World, e: AdEvent)
    requires Good(w) && NoneWasted(w) && !e.DoVacuum?
    ensures NoneWasted(AdStep(cfg, w, e)) <==> !RejectsPaid(cfg, w, Ad(e))
  {
    hide Serve, Ingest, Verify, NoneWasted;
    match e {
      case DoIngest(p, ev, crash) => WastedByIngest(cfg, w, p, ev, crash);
      case DoVerify(k, o, crash) => WastedByVerify(cfg, w, k, o, crash);
      case _ => WastedFrame(w, AdStep(cfg, w, e));
    }
  }

  function At(cfg: Config, events: seq<Event>, n: nat): World
    requires n <= |events|
  {
    Run(cfg, Empty(), events[..n])
  }

  /** At every moment of the run, no rejected impression is billed. */
  ghost predicate AlwaysUnbilled(cfg: Config, events: seq<Event>)
  {
    forall n :: 0 <= n <= |events| ==> NoneWasted(At(cfg, events, n))
  }

  ghost predicate NeverRejectsPaid(cfg: Config, events: seq<Event>)
  {
    forall n :: 0 <= n < |events| ==> !RejectsPaid(cfg, At(cfg, events, n), events[n])
  }

  lemma {:induction false} SameMoments(cfg: Config, events: seq<Event>)
    requires |events| > 0
    ensures forall n :: 0 <= n < |events| ==> At(cfg, events[..|events| - 1], n) == At(cfg, events, n)
    ensures At(cfg, events, |events|) == Run(cfg, Empty(), events)
    ensures At(cfg, events, |events| - 1) == Run(cfg, Empty(), events[..|events| - 1])
  {
    hide Run;
    assert events[..|events|] == events;
    forall n | 0 <= n < |events| ensures At(cfg, events[..|events| - 1], n) == At(cfg, events, n) {
      assert events[..|events| - 1][..n] == events[..n];
    }
  }

  lemma {:induction false} OneMoreMoment(cfg: Config, events: seq<Event>)
    requires |events| > 0
    ensures var front, last := events[..|events| - 1], events[|events| - 1];
            && (AlwaysUnbilled(cfg, events) <==> AlwaysUnbilled(cfg, front) && NoneWasted(Run(cfg, Empty(), events)))
            && (NeverRejectsPaid(cfg, events) <==> NeverRejectsPaid(cfg, front) && !RejectsPaid(cfg, Run(cfg, Empty(), front), last))
            && (AlwaysUnbilled(cfg, front) ==> NoneWasted(Run(cfg, Empty(), front)))
  {
    var front := events[..|events| - 1];
    SameMoments(cfg, events);
    hide NoneWasted, RejectsPaid, Run, At;
    forall n | AlwaysUnbilled(cfg, events) && 0 <= n <= |front| ensures NoneWasted(At(cfg, front, n)) {
      assert NoneWasted(At(cfg, events, n));
    }
    forall n | AlwaysUnbilled(cfg, front) && 0 <= n <= |front| ensures NoneWasted(At(cfg, events, n)) {
      assert NoneWasted(At(cfg, front, n));
    }
  }

  /** Over runs that clear no records, that holds if and only if the run never rejects an impression billed already. */
  lemma {:induction false} RejectedStayUnbilled(cfg: Config, events: seq<Event>)
    requires forall n :: 0 <= n < |events| ==> !(events[n].Ad? && events[n].ad.DoVacuum?)
    ensures AlwaysUnbilled(cfg, events) <==> NeverRejectsPaid(cfg, events)
  {
    if |events| > 0 {
      var front, last := events[..|events| - 1], events[|events| - 1];
      RejectedStayUnbilled(cfg, front);
      OneMoreMoment(cfg, events);
      Reachable(cfg, front);
      hide Step, NoneWasted, RejectsPaid, Good, AlwaysUnbilled, NeverRejectsPaid;
      if AlwaysUnbilled(cfg, front) {
        RejectedIsUnbilled(cfg, Run(cfg, Empty(), front), last);
      }
    }
  }
}
