/**
  Delivered ads and reported impressions (packages/server/src/impressions/ingest.ts, verify.ts):
  how a report is judged when it arrives, and again after the waiting period.
  */
module Serving {
  import opened Common

  const DAY_MS: int := 86_400_000
  const NONCE_TTL_MS: int := 300_000
  const DURATION_SLACK_MS: int := 2_000
  const GC_AFTER_MS: int := 3_600_000
  const MAX_SKEW_MS: int := 86_400_000

  /** The record of an ad handed out; rate and share are frozen at that moment. */
  datatype Delivery = Delivery(
    nonce: Id, publisher: Id, campaign: Id, advertiser: Id,
    rate: int, bps: int, expiresAt: int, consumed: bool)

  datatype State = Pending | Verified | Rejected

  datatype Reason =
    | TooOld | NotMeasurable | TooShort
    | UnknownNonce | NonceUsed | NonceExpired | OtherPublisher | OtherCampaign
    | LongerThanElapsed | ClockSkew
    | BannedPublisher | DailyCap | DatacenterIp | TooRegular

  datatype Impression = Impression(
    id: Id, publisher: Id, campaign: Id, advertiser: Id, nonce: Id,
    durationMs: int, rate: int, bps: int, serverTs: nat,
    state: State, reason: Option<Reason>)

  datatype Surface = Statusline | Spinner

  /** What a client reports. */
  datatype Report = Report(
    id: Id, campaign: Id, nonce: Id, surface: Surface,
    durationMs: int, clientTs: int, version: seq<int>)

  datatype Config = Config(
    minImpressionMs: int, minVersion: seq<int>, pendingMs: nat, dailyCap: nat,
    reserveCpm: nat, confirmWaitMs: int)

  function Part(v: seq<int>, i: nat): int { if i < |v| then v[i] else 0 }

  /** Numeric comparison of the first three parts; a missing part counts as zero. */
  function CompareVersions(a: seq<int>, b: seq<int>): int
  {
    if Part(a, 0) != Part(b, 0) then (if Part(a, 0) < Part(b, 0) then -1 else 1)
    else if Part(a, 1) != Part(b, 1) then (if Part(a, 1) < Part(b, 1) then -1 else 1)
    else if Part(a, 2) != Part(b, 2) then (if Part(a, 2) < Part(b, 2) then -1 else 1)
    else 0
  }

  function Abs(x: int): int { if x < 0 then -x else x }

  /** Position of the delivery with this nonce, or -1. */
  function DeliveryAt(ds: seq<Delivery>, nonce: Id): (k: int)
    ensures -1 <= k < |ds|
    ensures 0 <= k ==> ds[k].nonce == nonce
    ensures k == -1 ==> forall i :: 0 <= i < |ds| ==> ds[i].nonce != nonce
  {
    LastIndex(ds, (d: Delivery) => d.nonce == nonce)
  }

  predicate Seen(imps: seq<Impression>, publisher: Id, id: Id)
  {
    exists i :: 0 <= i < |imps| && imps[i].publisher == publisher && imps[i].id == id
  }

  /** `#validate`: the first reason to refuse a report, in the order the checks are made. */
  function Validate(cfg: Config, ds: seq<Delivery>, now: int, publisher: Id, ev: Report): Option<Reason>
  {
    if CompareVersions(ev.version, cfg.minVersion) < 0 then Some(TooOld)
    else if ev.surface != Statusline then Some(NotMeasurable)
    else if ev.durationMs < cfg.minImpressionMs then Some(TooShort)
    else
      var k := DeliveryAt(ds, ev.nonce);
      if k < 0 then Some(UnknownNonce)
      else if ds[k].consumed then Some(NonceUsed)
      else if ds[k].expiresAt < now then Some(NonceExpired)
      else if ds[k].publisher != publisher then Some(OtherPublisher)
      else if ds[k].campaign != ev.campaign then Some(OtherCampaign)
      else if ev.durationMs > now - (ds[k].expiresAt - NONCE_TTL_MS) + DURATION_SLACK_MS then Some(LongerThanElapsed)
      else if Abs(now - ev.clientTs) > MAX_SKEW_MS then Some(ClockSkew)
      else None
  }

  /** `#build`: price and share come from the delivery, never from the client. */
  function Build(ds: seq<Delivery>, now: nat, publisher: Id, ev: Report, state: State, reason: Option<Reason>): Impression
  {
    var k := DeliveryAt(ds, ev.nonce);
    Impression(ev.id, publisher, ev.campaign,
               if k < 0 then EMPTY else ds[k].advertiser,
               ev.nonce, ev.durationMs,
               if k < 0 then 0 else ds[k].rate,
               if k < 0 then 0 else ds[k].bps,
               now, state, reason)
  }

  datatype Verdict = Accepted | Refused(reason: Reason) | Duplicate

  /** Where a crash may strike while one report is taken in. */
  datatype IngestCrash = NoCrash | AfterConsume

  datatype Intake = Intake(deliveries: seq<Delivery>, impressions: seq<Impression>, verdict: Verdict)

  /** One round of the `ingest` loop. The nonce is marked used before the impression is saved. */
  function IngestOne(cfg: Config, ds: seq<Delivery>, imps: seq<Impression>, now: nat, publisher: Id, ev: Report): Intake
  {
    if Seen(imps, publisher, ev.id) then Intake(ds, imps, Duplicate)
    else
      match Validate(cfg, ds, now, publisher, ev)
      case Some(reason) =>
        Intake(ds, imps + [Build(ds, now, publisher, ev, Rejected, Some(reason))], Refused(reason))
      case None =>
        Intake(Consume(ds, ev.nonce), imps + [Build(ds, now, publisher, ev, Pending, None)], Accepted)
  }

  function Consume(ds: seq<Delivery>, nonce: Id): seq<Delivery>
  {
    var k := DeliveryAt(ds, nonce);
    if k < 0 then ds else ds[k := ds[k].(consumed := true)]
  }

  /** Start of the day a moment falls in. */
  function DayStart(t: nat): nat { t - t % DAY_MS }

  /** A day is the milliseconds that share a whole number of days since the epoch. */
  lemma {:induction false} DayOf(s: nat, t: nat)
    ensures DayStart(t) <= s < DayStart(t) + DAY_MS <==> s / 86_400_000 == t / 86_400_000
    ensures DayStart(t) <= s < DayStart(t) + DAY_MS <==> DayStart(s) == DayStart(t)
  {
    assert DayStart(t) == t / DAY_MS * DAY_MS && DayStart(s) == s / DAY_MS * DAY_MS;
  }

  /** The judgements the model leaves open: the IP check and the regular-interval rule. */
  datatype Oracle = Oracle(datacenter: bool, regular: bool)

  /** `evaluate`: None means keep waiting. */
  datatype Outcome = Wait | Approve | Deny(reason: Reason)

  function Evaluate(cfg: Config, banned: bool, now: int, verifiedThatDay: int, i: Impression, o: Oracle): Outcome
  {
    if banned then Deny(BannedPublisher)
    else if now < i.serverTs + cfg.pendingMs then Wait
    else if verifiedThatDay >= cfg.dailyCap then Deny(DailyCap)
    else if o.datacenter then Deny(DatacenterIp)
    else if o.regular then Deny(TooRegular)
    else Approve
  }

  /** The first of three parts that differ decides. */
  predicate Older(a: seq<int>, b: seq<int>)
  {
    exists i: nat :: i < 3 && Part(a, i) < Part(b, i) && forall j: nat :: j < i ==> Part(a, j) == Part(b, j)
  }

  /** Comparing versions is comparing the first three parts in order; a part left out counts as zero. */
  lemma {:induction false} VersionsAreOrdered(a: seq<int>, b: seq<int>)
    ensures CompareVersions(a, b) < 0 <==> Older(a, b)
    ensures CompareVersions(a, b) > 0 <==> Older(b, a)
    ensures CompareVersions(a, b) == 0 <==> forall i: nat :: i < 3 ==> Part(a, i) == Part(b, i)
    ensures CompareVersions(a, a + [0]) == 0
  {
    if CompareVersions(a, b) != 0 {
      var i := if Part(a, 0) != Part(b, 0) then 0 else if Part(a, 1) != Part(b, 1) then 1 else 2;
      assert Part(a, i) < Part(b, i) || Part(b, i) < Part(a, i);
    }
  }

  ghost predicate UniqueNonces(ds: seq<Delivery>) { forall i, k :: 0 <= i < k < |ds| ==> ds[i].nonce != ds[k].nonce }

  /** What a report says by itself is in order: client version, surface, duration. */
  ghost predicate WellFormed(cfg: Config, ev: Report)
  {
    !Older(ev.version, cfg.minVersion) && ev.surface == Statusline && cfg.minImpressionMs <= ev.durationMs
  }

  /** The report is about this ad: given to this publisher, of that campaign, not used up, still valid, and out as long as it claims. */
  ghost predicate About(d: Delivery, now: nat, publisher: Id, ev: Report)
  {
    && d.nonce == ev.nonce && !d.consumed && now <= d.expiresAt && d.publisher == publisher && d.campaign == ev.campaign
    && ev.durationMs <= now - (d.expiresAt - 300_000) + 2_000
  }

  lemma {:induction false} OneDelivery(ds: seq<Delivery>, nonce: Id)
    requires UniqueNonces(ds)
    ensures var k := DeliveryAt(ds, nonce);
            && (k >= 0 ==> ds[k] in ds)
            && forall d :: d in ds && d.nonce == nonce ==> k >= 0 && d == ds[k]
  {
    var k := DeliveryAt(ds, nonce);
    forall d | d in ds && d.nonce == nonce ensures k >= 0 && d == ds[k] {
      var i :| 0 <= i < |ds| && ds[i] == d;
    }
  }

  /** What an accepted report proves, and what suffices. */
  lemma {:induction false} AcceptedExactlyWhen(cfg: Config, ds: seq<Delivery>, imps: seq<Impression>, now: nat, publisher: Id, ev: Report)
    requires UniqueNonces(ds)
    ensures IngestOne(cfg, ds, imps, now, publisher, ev).verdict.Accepted? <==>
              && (forall i :: i in imps ==> i.publisher != publisher || i.id != ev.id)
              && WellFormed(cfg, ev) && -86_400_000 <= now - ev.clientTs <= 86_400_000
              && exists d :: d in ds && About(d, now, publisher, ev)
  {
    OneDelivery(ds, ev.nonce);
    VersionsAreOrdered(ev.version, cfg.minVersion);
    assert Seen(imps, publisher, ev.id) <==> exists i :: i in imps && i.publisher == publisher && i.id == ev.id;
  }

  /** A report about itself: the first thing wrong with it is the reason. */
  lemma {:induction false} RefusedByItself(cfg: Config, ds: seq<Delivery>, imps: seq<Impression>, now: nat, publisher: Id, ev: Report)
    ensures var v := IngestOne(cfg, ds, imps, now, publisher, ev).verdict;
            && (v == Duplicate <==> Seen(imps, publisher, ev.id))
            && (!Seen(imps, publisher, ev.id) ==>
                  && (v == Refused(TooOld) <==> Older(ev.version, cfg.minVersion))
                  && (v == Refused(NotMeasurable) <==> !Older(ev.version, cfg.minVersion) && ev.surface == Spinner)
                  && (v == Refused(TooShort) <==> !Older(ev.version, cfg.minVersion) && ev.surface == Statusline
                                                  && ev.durationMs < cfg.minImpressionMs)
                  && (v == Refused(UnknownNonce) <==> WellFormed(cfg, ev) && forall d :: d in ds ==> d.nonce != ev.nonce))
  {
    VersionsAreOrdered(ev.version, cfg.minVersion);
    var k := DeliveryAt(ds, ev.nonce);
    if k >= 0 {
      assert ds[k] in ds;
    }
  }

  /** A report that is in order by itself is refused for the first thing that does not fit the ad it is about. */
  lemma {:induction false} RefusedForItsAd(cfg: Config, ds: seq<Delivery>, imps: seq<Impression>, now: nat, publisher: Id, ev: Report, d: Delivery)
    requires UniqueNonces(ds) && d in ds && d.nonce == ev.nonce && !Seen(imps, publisher, ev.id) && WellFormed(cfg, ev)
    ensures var v := IngestOne(cfg, ds, imps, now, publisher, ev).verdict;
            var live := !d.consumed && now <= d.expiresAt;
            var own := live && d.publisher == publisher && d.campaign == ev.campaign;
            && (v == Refused(NonceUsed) <==> d.consumed)
            && (v == Refused(NonceExpired) <==> !d.consumed && d.expiresAt < now)
            && (v == Refused(OtherPublisher) <==> live && d.publisher != publisher)
            && (v == Refused(OtherCampaign) <==> live && d.publisher == publisher && d.campaign != ev.campaign)
            && (v == Refused(LongerThanElapsed) <==> own && now - (d.expiresAt - 300_000) + 2_000 < ev.durationMs)
            && (v == Refused(ClockSkew) <==> About(d, now, publisher, ev) && !(-86_400_000 <= now - ev.clientTs <= 86_400_000))
  {
    OneDelivery(ds, ev.nonce);
    VersionsAreOrdered(ev.version, cfg.minVersion);
  }

  /**
    What is written: nothing for a duplicate; for any other report one impression, at the price, share and payer
    of the ad it names, or at nobody's cost when there is none. Only an accepted report uses its ad up.
    */
  lemma {:induction false} WrittenForAReport(cfg: Config, ds: seq<Delivery>, imps: seq<Impression>, now: nat, publisher: Id, ev: Report)
    requires UniqueNonces(ds)
    ensures var r := IngestOne(cfg, ds, imps, now, publisher, ev);
            && |r.deliveries| == |ds|
            && forall i :: 0 <= i < |ds| ==>
                 r.deliveries[i] == if r.verdict.Accepted? && ds[i].nonce == ev.nonce then ds[i].(consumed := true) else ds[i]
    ensures var r := IngestOne(cfg, ds, imps, now, publisher, ev);
            if r.verdict.Duplicate? then r.impressions == imps
            else
              && |r.impressions| == |imps| + 1 && r.impressions[..|imps|] == imps
              && var made := r.impressions[|imps|];
                 && made.id == ev.id && made.publisher == publisher && made.campaign == ev.campaign && made.nonce == ev.nonce
                 && made.durationMs == ev.durationMs && made.serverTs == now
                 && (r.verdict.Accepted? ==> made.state == Pending && made.reason == None)
                 && (r.verdict.Refused? ==> made.state == Rejected && made.reason == Some(r.verdict.reason))
                 && (forall d :: d in ds && d.nonce == ev.nonce ==>
                       made.advertiser == d.advertiser && made.rate == d.rate && made.bps == d.bps)
                 && ((forall d :: d in ds ==> d.nonce != ev.nonce) ==> made.advertiser == EMPTY && made.rate == 0 && made.bps == 0)
  {
    OneDelivery(ds, ev.nonce);
    var k := DeliveryAt(ds, ev.nonce);
    forall i | 0 <= i < |ds| ensures ds[i].nonce == ev.nonce ==> i == k {
      assert ds[i] in ds;
    }
  }
}
