/** What every run keeps of the rules of verification: the waiting period and the daily cap of a publisher. */
module WorldVerdicts {
  import opened Common
  import opened Sums
  import opened Ledger
  import opened Serving
  import opened World
  import opened WorldShape

  /** How many of a publisher's impressions on record are verified for the day that starts then. */
  function VerifiedOn(imps: seq<Impression>, publisher: Id, dayStart: int): int
  {
    Sum(imps, VerifiedThatDayWeight(publisher, dayStart))
  }

  /** Nothing is verified before its waiting period is over. */
  ghost predicate Waited(cfg: Config, w: World)
  {
    forall k :: 0 <= k < |w.impressions| && w.impressions[k].state == Verified ==>
      w.impressions[k].serverTs + cfg.pendingMs <= w.now
  }

  ghost predicate Capped(cfg: Config, imps: seq<Impression>)
  {
    forall p, t: nat {:trigger VerifiedOn(imps, p, DayStart(t))} :: VerifiedOn(imps, p, DayStart(t)) <= cfg.dailyCap
  }

  lemma {:induction false} JudgedExactly(cfg: Config, w: World, k: nat, o: Oracle)
    requires k < |w.impressions|
    ensures var i := w.impressions[k];
            var full := VerifiedOn(w.impressions, i.publisher, DayStart(i.serverTs)) >= cfg.dailyCap;
            Judged(cfg, w, k, o) ==
            if i.publisher in w.bans then Deny(BannedPublisher)
            else if w.now < i.serverTs + cfg.pendingMs then Wait
            else if full then Deny(DailyCap)
            else if o.datacenter then Deny(DatacenterIp)
            else if o.regular then Deny(TooRegular)
            else Approve
  {}

  /**
    The verdict on a pending impression, as it is carried out. It is verified, and its charge posted, exactly when
    its publisher is not banned, the waiting period is over, fewer of its day are verified than the cap allows, and
    neither anomaly check speaks against it; it is rejected exactly when the publisher is banned or, once it is
    ripe, one of the other checks fails, for the first of these reasons; otherwise nothing changes.
    */
  lemma {:induction false} VerdictExactly(cfg: Config, w: World, k: nat, o: Oracle)
    requires k < |w.impressions| && w.impressions[k].state == Pending
    requires 0 <= w.impressions[k].rate && 0 <= w.impressions[k].bps <= 10_000
    ensures var i := w.impressions[k];
            var w' := Verify(cfg, w, k, o, false);
            var banned, ripe := i.publisher in w.bans, i.serverTs + cfg.pendingMs <= w.now;
            var full := VerifiedOn(w.impressions, i.publisher, DayStart(i.serverTs)) >= cfg.dailyCap;
            && |w'.impressions| == |w.impressions|
            && (w'.impressions[k].state == Verified <==> !banned && ripe && !full && !o.datacenter && !o.regular)
            && (w'.impressions[k].state == Rejected <==> banned || (ripe && (full || o.datacenter || o.regular)))
            && (w'.impressions[k].state == Pending ==> w' == w)
            && (w'.impressions[k].state == Verified ==>
                  w' == w.(journal := Post(w.journal, Shown(i.id, i.advertiser, i.publisher, i.campaign, i.rate, i.bps)),
                           impressions := w.impressions[k := i.(state := Verified)]))
            && (w'.impressions[k].state == Rejected ==>
                  w' == w.(impressions := w.impressions[k := i.(state := Rejected, reason := w'.impressions[k].reason)])
                  && w'.impressions[k].reason == Some(if banned then BannedPublisher else if full then DailyCap
                                                      else if o.datacenter then DatacenterIp else TooRegular))
  {
    JudgedExactly(cfg, w, k, o);
    hide Judged, VerifiedOn, Post, DayStart;
  }

  /** A crash between the two writes leaves the charge posted and the impression pending, to be judged again. */
  lemma {:induction false} VerdictCutShort(cfg: Config, w: World, k: nat, o: Oracle)
    requires k < |w.impressions| && w.impressions[k].state == Pending
    ensures var whole, cut := Verify(cfg, w, k, o, false), Verify(cfg, w, k, o, true);
            && |whole.impressions| == |w.impressions|
            && cut == if whole.impressions[k].state == Verified then Reboot(w.(journal := whole.journal)) else whole
  {
    hide Judged, Post, Reboot;
  }

  /** How many of a publisher's impressions on record are verified for one day, counted one by one. */
  lemma {:induction false} VerifiedOnCounts(imps: seq<Impression>, publisher: Id, t: nat)
    ensures VerifiedOn(imps, publisher, DayStart(t)) ==
            |set k | 0 <= k < |imps| && imps[k].publisher == publisher && imps[k].state == Verified
                                     && imps[k].serverTs / 86_400_000 == t / 86_400_000|
  {
    var p := (i: Impression) => i.publisher == publisher && i.state == Verified && i.serverTs / 86_400_000 == t / 86_400_000;
    forall k | 0 <= k < |imps| ensures VerifiedThatDayWeight(publisher, DayStart(t))(imps[k]) == if p(imps[k]) then 1 else 0 {
      DayOf(imps[k].serverTs, t);
    }
    hide DayStart;
    SumCounts(imps, VerifiedThatDayWeight(publisher, DayStart(t)), p);
    assert Hits(imps, p) ==
           (set k | 0 <= k < |imps| && imps[k].publisher == publisher && imps[k].state == Verified
                                    && imps[k].serverTs / 86_400_000 == t / 86_400_000);
  }

  lemma {:induction false} OneVerified(imps: seq<Impression>, k: nat, i: Impression, p: Id, t: nat)
    requires k < |imps| && imps[k].state == Pending
    requires i.publisher == imps[k].publisher && i.serverTs == imps[k].serverTs
    ensures VerifiedOn(imps[k := i], p, DayStart(t)) <= VerifiedOn(imps, p, DayStart(t)) + 1
    ensures i.state != Verified || p != i.publisher || DayStart(t) != DayStart(i.serverTs) ==>
              VerifiedOn(imps[k := i], p, DayStart(t)) == VerifiedOn(imps, p, DayStart(t))
  {
    SumUpdate(imps, k, i, VerifiedThatDayWeight(p, DayStart(t)));
    if DayStart(t) <= i.serverTs < DayStart(t) + DAY_MS {
      DayOf(i.serverTs, t);
    }
  }

  lemma {:induction false} VerdictsVerify(cfg: Config, w: World, k: nat, o: Oracle, crash: bool)
    requires Waited(cfg, w) && Capped(cfg, w.impressions)
    ensures Waited(cfg, Verify(cfg, w, k, o, crash)) && Capped(cfg, Verify(cfg, w, k, o, crash).impressions)
  {
    var w' := Verify(cfg, w, k, o, crash);
    var posted, decided := VerifyCases(cfg, w, k, o, crash);
    if decided.Some? && decided.value.state == Verified {
      JudgedExactly(cfg, w, k, o);
    }
    hide Verify, Judged, VerifiedOn, DayStart;
    forall p, t: nat ensures VerifiedOn(w'.impressions, p, DayStart(t)) <= cfg.dailyCap {
      if decided.Some? {
        OneVerified(w.impressions, k, decided.value, p, t);
      }
    }
  }

  lemma {:induction false} VerdictsIngest(cfg: Config, w: World, p: Id, ev: Report, crash: IngestCrash)
    requires Waited(cfg, w) && Capped(cfg, w.impressions)
    ensures Waited(cfg, Ingest(cfg, w, p, ev, crash)) && Capped(cfg, Ingest(cfg, w, p, ev, crash).impressions)
  {
    var w' := Ingest(cfg, w, p, ev, crash);
    var accepted, k := IngestCases(cfg, w, p, ev, crash);
    hide Ingest;
    forall q, t: nat ensures VerifiedOn(w'.impressions, q, DayStart(t)) <= cfg.dailyCap {
      assert VerifiedOn(w.impressions, q, DayStart(t)) <= cfg.dailyCap;
      if w'.impressions != w.impressions {
        assert w'.impressions == w.impressions + [w'.impressions[|w.impressions|]];
        SumAppend(w.impressions, w'.impressions[|w.impressions|], VerifiedThatDayWeight(q, DayStart(t)));
      }
    }
  }

  lemma {:induction false} VerdictsVacuum(cfg: Config, w: World, before: int)
    requires Waited(cfg, w) && Capped(cfg, w.impressions)
    ensures Waited(cfg, Vacuum(w, before)) && Capped(cfg, Vacuum(w, before).impressions)
  {
    var w' := Vacuum(w, before);
    VacuumCases(w, before);
    forall k | 0 <= k < |w'.impressions| && w'.impressions[k].state == Verified
      ensures w'.impressions[k].serverTs + cfg.pendingMs <= w.now {
      assert w'.impressions[k] in w.impressions;
    }
    forall q, t: nat ensures VerifiedOn(w'.impressions, q, DayStart(t)) <= cfg.dailyCap {
      assert VerifiedOn(w.impressions, q, DayStart(t)) <= cfg.dailyCap;
      SumKeep(w.impressions, (i: Impression) => i.state == Pending || i.serverTs >= before, VerifiedThatDayWeight(q, DayStart(t)));
    }
  }

  lemma {:induction false} VerdictsStep(cfg: Config, w: World, e: Event)
    requires Waited(cfg, w) && Capped(cfg, w.impressions)
    ensures Waited(cfg, Step(cfg, w, e)) && Capped(cfg, Step(cfg, w, e).impressions)
  {
    if e.Ad? {
      hide Serve, Ingest, Verify, Vacuum, Capped;
      match e.ad {
        case DoIngest(p, ev, crash) => VerdictsIngest(cfg, w, p, ev, crash);
        case DoVerify(k, o, crash) => VerdictsVerify(cfg, w, k, o, crash);
        case DoVacuum(before) => VerdictsVacuum(cfg, w, before);
        case _ =>
      }
    } else {
      hide PayStep, MarketStep, Capped;
    }
  }

  /**
    In every run, crashes and clean-ups included: an impression is verified only after its waiting period,
    and of a publisher's impressions of one day at most the daily cap are verified.
    */
  lemma {:induction false} VerifiedLateAndCapped(cfg: Config, events: seq<Event>)
    ensures Waited(cfg, Run(cfg, Empty(), events)) && Capped(cfg, Run(cfg, Empty(), events).impressions)
  {
    if |events| > 0 {
      VerifiedLateAndCapped(cfg, events[..|events| - 1]);
      hide Step, Waited, Capped;
      VerdictsStep(cfg, Run(cfg, Empty(), events[..|events| - 1]), events[|events| - 1]);
    }
  }
}
