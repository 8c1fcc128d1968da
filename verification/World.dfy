/**
  The server's money machine as one state and its atomic steps: serving, reporting, verifying,
  depositing, withdrawing phase by phase, settling on chain, time, crashes and restarts.

  A step that is not enabled leaves the world as it is. Durable state is what the database holds;
  a restart keeps it and forgets the rest.
  */
module World {
  import opened Common
  import opened Money
  import opened Sums
  import opened Ledger
  import opened Selector
  import opened Serving

  datatype Pool = Pool(id: Id, sponsor: Id, bid: nat, budget: int, cap: nat, open: bool)

  /** What became of a signed transaction. Every state but Open is final. */
  datatype Fate = Open | Applied | Failed | Dead

  datatype Tx = Tx(kind: Kind, batch: Id, owner: Id, amount: int, sent: bool, fate: Fate)

  datatype ItemState = ItemSubmitted | ItemSettled | ItemFailed
  datatype Item = Item(batch: Id, owner: Id, amount: int, state: ItemState)

  /** A withdrawal between two awaits. */
  datatype Phase =
    | Validating
    | Preparing(batch: Id)
    | Sending(batch: Id)
    | Asking(batch: Id, left: int, first: bool)

  datatype Proc = Proc(kind: Kind, owner: Id, amount: int, phase: Phase)

  datatype World = World(
    now: nat,
    journal: seq<Posting>,
    deliveries: seq<Delivery>,
    impressions: seq<Impression>,
    returned: set<Id>,
    bans: set<Id>,
    stages: map<Id, Stage>,
    campaigns: seq<Campaign>,
    pools: seq<Pool>,
    members: map<Id, Id>,
    txs: seq<Tx>,
    items: seq<Item>,
    procs: map<nat, Proc>,
    // history: every ad ever handed out, and which impression each nonce was accepted for
    served: map<Id, Delivery>,
    backs: map<Id, (Id, Id)>)

  function Empty(): World
  {
    World(0, [], [], [], {}, {}, map[], [], [], map[], [], [], map[], map[], map[])
  }

  /* ---------- what is committed ---------- */

  /** The part of a delivery, or of an impression, that commitments are counted by. */
  datatype Stake = Stake(publisher: Id, campaign: Id, advertiser: Id, rate: int)

  function OfDelivery(d: Delivery): Stake { Stake(d.publisher, d.campaign, d.advertiser, d.rate) }
  function OfImpression(i: Impression): Stake { Stake(i.publisher, i.campaign, i.advertiser, i.rate) }

  predicate Live(d: Delivery, now: int) { !d.consumed && d.expiresAt >= now }

  function LiveValue(d: Delivery, now: int, v: Stake -> int): int { if Live(d, now) then v(OfDelivery(d)) else 0 }

  function PendingValue(i: Impression, v: Stake -> int): int { if i.state == Pending then v(OfImpression(i)) else 0 }

  function CountedValue(i: Impression, v: Stake -> int, since: int): int
  {
    if i.state != Rejected && i.serverTs >= since then v(OfImpression(i)) else 0
  }

  function LiveWeight(now: int, v: Stake -> int): Delivery -> int { (d: Delivery) => LiveValue(d, now, v) }
  function PendingWeight(v: Stake -> int): Impression -> int { (i: Impression) => PendingValue(i, v) }
  function CountedWeight(v: Stake -> int, since: int): Impression -> int { (i: Impression) => CountedValue(i, v, since) }

  function LiveSum(w: World, v: Stake -> int): int { Sum(w.deliveries, LiveWeight(w.now, v)) }
  function PendingSum(w: World, v: Stake -> int): int { Sum(w.impressions, PendingWeight(v)) }
  function CountedSum(w: World, v: Stake -> int, since: int): int { Sum(w.impressions, CountedWeight(v, since)) }

  function RateOf(advertiser: Id): Stake -> int { (s: Stake) => if s.advertiser == advertiser then s.rate else 0 }
  function OneOf(campaign: Id): Stake -> int { (s: Stake) => if s.campaign == campaign then 1 else 0 }
  function RateIn(campaigns: set<Id>): Stake -> int { (s: Stake) => if s.campaign in campaigns then s.rate else 0 }
  function OneFor(publisher: Id, campaigns: set<Id>): Stake -> int
  {
    (s: Stake) => if s.publisher == publisher && s.campaign in campaigns then 1 else 0
  }

  /** `spendable` (pipeline.ts:149-168) */
  function Spendable(w: World, advertiser: Id): int
  {
    Max0(Balance(w.journal, Advertiser(advertiser))
         - (LiveSum(w, RateOf(advertiser)) + PendingSum(w, RateOf(advertiser))))
  }

  function SpentTodayWeight(campaign: Id, dayStart: int): Impression -> int
  {
    (i: Impression) =>
      if i.campaign == campaign && i.state != Rejected && dayStart <= i.serverTs < dayStart + DAY_MS then i.rate else 0
  }

  /** `spentToday` */
  function SpentToday(w: World, campaign: Id): int
  {
    Sum(w.impressions, SpentTodayWeight(campaign, DayStart(w.now)))
  }

  /** `spentOn` */
  function SpentOn(w: World, campaigns: set<Id>): int
  {
    LiveSum(w, RateIn(campaigns)) + CountedSum(w, RateIn(campaigns), 0)
  }

  /** `committedImpressions` */
  function Committed(w: World, campaign: Id): int
  {
    Billed(w.journal, campaign) + LiveSum(w, OneOf(campaign)) + PendingSum(w, OneOf(campaign))
  }

  /** `servedToday` */
  function ServedToday(w: World, publisher: Id, campaigns: set<Id>): int
  {
    LiveSum(w, OneFor(publisher, campaigns)) + CountedSum(w, OneFor(publisher, campaigns), DayStart(w.now))
  }

  /* ---------- pools ---------- */

  /** `poolCampaignIds` */
  function CampaignsOf(campaigns: seq<Campaign>, pool: Id): set<Id>
  {
    set c | c in campaigns && c.pool == Some(pool) :: c.id
  }

  function PoolCampaigns(w: World, pool: Id): set<Id> { CampaignsOf(w.campaigns, pool) }

  function FindPool(pools: seq<Pool>, id: Id): (k: int)
    ensures -1 <= k < |pools|
    ensures 0 <= k ==> pools[k].id == id
    ensures k == -1 ==> forall i :: 0 <= i < |pools| ==> pools[i].id != id
  {
    LastIndex(pools, (p: Pool) => p.id == id)
  }

  function PoolAt(w: World, id: Id): (k: int)
    ensures -1 <= k < |w.pools|
    ensures 0 <= k ==> w.pools[k].id == id
    ensures k == -1 ==> forall i :: 0 <= i < |w.pools| ==> w.pools[i].id != id
  {
    FindPool(w.pools, id)
  }

  function PoolSpent(w: World, pool: Id): int { SpentOn(w, PoolCampaigns(w, pool)) }

  function ReserveWeight(w: World, sponsor: Id): Pool -> int
  {
    (p: Pool) => if p.sponsor == sponsor && p.open then Max0(p.budget - PoolSpent(w, p.id)) else 0
  }

  /** `poolReserve` */
  function PoolReserve(w: World, sponsor: Id): int { Sum(w.pools, ReserveWeight(w, sponsor)) }

  /** `poolOf`: the open pool a publisher belongs to */
  function OpenPool(pools: seq<Pool>, members: map<Id, Id>, publisher: Id): Option<Id>
  {
    if publisher !in members then None
    else
      var k := FindPool(pools, members[publisher]);
      if 0 <= k && pools[k].open then Some(members[publisher]) else None
  }

  function PoolOf(w: World, publisher: Id): Option<Id> { OpenPool(w.pools, w.members, publisher) }

  /** `poolAllows` (main.ts:167-173) */
  predicate PoolAllows(w: World, publisher: Id, pool: Id, rate: int)
  {
    var k := PoolAt(w, pool);
    && 0 <= k
    && ServedToday(w, publisher, PoolCampaigns(w, pool)) < w.pools[k].cap
    && PoolSpent(w, pool) + rate <= w.pools[k].budget
  }

  function DepsFor(cfg: Config, w: World, publisher: Id): Deps
  {
    Deps(publisher, w.campaigns, PoolOf(w, publisher),
         (pool: Id, rate: int) => PoolAllows(w, publisher, pool, rate),
         (a: Id) => Spendable(w, a),
         (a: Id) => PoolReserve(w, a),
         (c: Id) => SpentToday(w, c),
         (c: Id) => Committed(w, c),
         cfg.reserveCpm)
  }

  /* ---------- restart ---------- */

  function ExpiredNonces(w: World): set<Id>
  {
    set d | d in w.deliveries && d.expiresAt < w.now :: d.nonce
  }

  /** Memory is lost: running withdrawals, recent picks, and which slots were given back. */
  function Reboot(w: World): World
  {
    w.(procs := map[],
       returned := ExpiredNonces(w),
       stages := map p | p in w.stages :: Stage(w.stages[p].tour, []))
  }

  /* ---------- serving ---------- */

  function StageOf(w: World, publisher: Id): Stage
  {
    if publisher in w.stages then w.stages[publisher] else Stage([], [])
  }

  function Returnable(w: World, publisher: Id): seq<Delivery>
  {
    Keep(w.deliveries, (d: Delivery) =>
      d.publisher == publisher && !d.consumed && d.expiresAt < w.now && d.nonce !in w.returned)
  }

  function CampaignIds(ds: seq<Delivery>): seq<Id>
  {
    seq(|ds|, i requires 0 <= i < |ds| => ds[i].campaign)
  }

  /** `#returnExpiredSlots`: ads that expired unseen put their slots back in front of the tour. */
  function ReturnSlots(w: World, publisher: Id): World
  {
    var back := Returnable(w, publisher);
    var stage := StageOf(w, publisher);
    w.(returned := w.returned + (set d | d in back :: d.nonce),
       stages := if |back| == 0 then w.stages
                 else w.stages[publisher := Stage(CampaignIds(back) + stage.tour, stage.recent)])
  }

  predicate KeptByGc(d: Delivery, now: int) { d.expiresAt >= now - GC_AFTER_MS }

  predicate DroppedByGc(ds: seq<Delivery>, nonce: Id, now: int)
  {
    exists d :: d in ds && d.nonce == nonce && !KeptByGc(d, now)
  }

  /** Registers a delivery and drops those expired for over an hour. */
  function AddDelivery(w: World, d: Delivery): World
  {
    var all := w.deliveries + [d];
    w.(deliveries := Keep(all, (x: Delivery) => KeptByGc(x, w.now)),
       returned := (set n | n in w.returned && !DroppedByGc(all, n, w.now)),
       served := w.served[d.nonce := d])
  }

  function DeliveryFor(s: Selection, publisher: Id, nonce: Id, now: int): Delivery
  {
    Delivery(nonce, publisher, s.campaign.id, s.campaign.advertiser, s.rate, s.campaign.bps, now + NONCE_TTL_MS, false)
  }

  /**
    `serveAd`. A crash between saving the tour and saving the delivery burns the slot. (`select` offers
    nothing only when nothing is eligible, and then it has not touched the tour: SelectionIsAffordable.)
    */
  function Serve(cfg: Config, w: World, publisher: Id, nonce: Id, coin: (Id, Id) -> bool, crash: bool): (r: World)
    ensures r == w.(deliveries := r.deliveries, served := r.served, procs := r.procs,
                    returned := r.returned, stages := r.stages)
  {
    if publisher in w.bans || nonce in w.served then w
    else
      var w1 := ReturnSlots(w, publisher);
      var (sel, stage) := Select(DepsFor(cfg, w1, publisher), StageOf(w1, publisher), coin);
      if sel.None? then w1
      else
        var w2 := w1.(stages := w1.stages[publisher := stage]);
        if crash then Reboot(w2) else AddDelivery(w2, DeliveryFor(sel.value, publisher, nonce, w.now))
  }

  /* ---------- reporting and verifying ---------- */

  function Ingest(cfg: Config, w: World, publisher: Id, ev: Report, crash: IngestCrash): (r: World)
    ensures r == w.(deliveries := r.deliveries, impressions := r.impressions, backs := r.backs, procs := r.procs,
                    returned := r.returned, stages := r.stages)
  {
    var r := IngestOne(cfg, w.deliveries, w.impressions, w.now, publisher, ev);
    match r.verdict
    case Accepted =>
      if crash.AfterConsume? then Reboot(w.(deliveries := r.deliveries))
      else w.(deliveries := r.deliveries, impressions := r.impressions,
              backs := w.backs[ev.nonce := (publisher, ev.id)])
    case _ => w.(impressions := r.impressions)
  }

  function VerifiedThatDayWeight(publisher: Id, dayStart: int): Impression -> int
  {
    (i: Impression) =>
      if i.publisher == publisher && i.state == Verified && dayStart <= i.serverTs < dayStart + DAY_MS then 1 else 0
  }

  function ShownOf(i: Impression): Posting
  {
    Shown(i.id, i.advertiser, i.publisher, i.campaign, i.rate, i.bps)
  }

  /** `postImpression`, as far as it may throw. */
  predicate CanPostImpression(i: Impression) { 0 <= i.rate && ValidShare(i.bps) }

  /** `evaluate`, for a stored impression. */
  function Judged(cfg: Config, w: World, k: nat, o: Oracle): Outcome
    requires k < |w.impressions|
  {
    var i := w.impressions[k];
    Evaluate(cfg, i.publisher in w.bans, w.now, Sum(w.impressions, VerifiedThatDayWeight(i.publisher, DayStart(i.serverTs))), i, o)
  }

  /** One round of the `runVerification` loop: ledger first, then the state. */
  function Verify(cfg: Config, w: World, k: nat, o: Oracle, crash: bool): (r: World)
    ensures r == w.(journal := r.journal, impressions := r.impressions, procs := r.procs,
                    returned := r.returned, stages := r.stages)
  {
    if k >= |w.impressions| || w.impressions[k].state != Pending then w
    else
      var i := w.impressions[k];
      match Judged(cfg, w, k, o)
      case Wait => w
      case Deny(reason) => w.(impressions := w.impressions[k := i.(state := Rejected, reason := Some(reason))])
      case Approve =>
        if !CanPostImpression(i) then w
        else
          var posted := w.(journal := Post(w.journal, ShownOf(i)));
          if crash then Reboot(posted)
          else posted.(impressions := w.impressions[k := i.(state := Verified)])
  }

  /* ---------- withdrawing ---------- */

  /** What `spendable` returns for each kind of withdrawal (main.ts:299-348). */
  function WithdrawLimit(w: World, kind: Kind, owner: Id): int
  {
    match kind
    case AdvertiserKind => Max0(Spendable(w, owner) - PoolReserve(w, owner))
    case PublisherKind => Balance(w.journal, Publisher(owner))
    case PlatformKind => Balance(w.journal, PlatformRevenue)
  }

  predicate Busy(w: World, kind: Kind, owner: Id)
  {
    exists p :: p in w.procs && w.procs[p].kind == kind && w.procs[p].owner == owner
  }

  function TxAt(w: World, batch: Id): (k: int)
    ensures -1 <= k < |w.txs|
    ensures 0 <= k ==> w.txs[k].batch == batch
    ensures k == -1 ==> forall i :: 0 <= i < |w.txs| ==> w.txs[i].batch != batch
  {
    LastIndex(w.txs, (t: Tx) => t.batch == batch)
  }

  function EndProc(w: World, pid: nat): World { w.(procs := w.procs - {pid}) }

  /** First checks, up to the first await. */
  function Begin(w: World, pid: nat, kind: Kind, owner: Id, amount: int): (r: World)
    ensures r == w.(procs := r.procs)
  {
    if pid in w.procs || Busy(w, kind, owner) || amount < 1 || amount > WithdrawLimit(w, kind, owner) then w
    else w.(procs := w.procs[pid := Proc(kind, owner, amount, Validating)])
  }

  /** The destination was looked up. */
  function Validated(w: World, pid: nat, accepted: bool, batch: Id): (r: World)
    ensures r == w.(procs := r.procs)
  {
    if pid !in w.procs || !w.procs[pid].phase.Validating? then w
    else if accepted then w.(procs := w.procs[pid := w.procs[pid].(phase := Preparing(batch))])
    else EndProc(w, pid)
  }

  /** Crash points between the writes that follow `prepare`. */
  datatype SubmitCrash = Survives | AfterLedger | AfterRecord

  /**
    The envelope is signed: the limit is read again, the ledger and the record are written, and the
    envelope goes out, with no await in between.
    */
  function Prepared(w: World, pid: nat, ok: bool, crash: SubmitCrash): (r: World)
    ensures r == w.(journal := r.journal, txs := r.txs, items := r.items, procs := r.procs,
                    returned := r.returned, stages := r.stages)
  {
    if pid !in w.procs || !w.procs[pid].phase.Preparing? || TxAt(w, w.procs[pid].phase.batch) >= 0 then w
    else
      var p := w.procs[pid];
      var b := p.phase.batch;
      if !ok || p.amount > WithdrawLimit(w, p.kind, p.owner) then EndProc(w, pid)
      else if Balance(w.journal, Source(p.kind, p.owner)) < p.amount then EndProc(w, pid)
      else
        var ledger := w.(journal := Post(w.journal, Submitted(p.kind, b, p.owner, p.amount)),
                         txs := w.txs + [Tx(p.kind, b, p.owner, p.amount, !crash.AfterLedger? && !crash.AfterRecord?, Open)]);
        if crash.AfterLedger? then Reboot(ledger)
        else
          var recorded := ledger.(items := w.items + [Item(b, p.owner, p.amount, ItemSubmitted)]);
          if crash.AfterRecord? then Reboot(recorded)
          else recorded.(procs := w.procs[pid := p.(phase := Sending(b))])
  }

  /** `send` returned or threw; either way the chain is asked. */
  function Sent(cfg: Config, w: World, pid: nat): (r: World)
    ensures r == w.(procs := r.procs)
  {
    if pid !in w.procs || !w.procs[pid].phase.Sending? then w
    else
      var p := w.procs[pid];
      w.(procs := w.procs[pid := p.(phase := Asking(p.phase.batch, cfg.confirmWaitMs, true))])
  }

  /** The answers of `reconcile`; it may also throw. */
  datatype Answer = SaysSettled | SaysFailed | SaysExpired | SaysPending | Throws

  /** The rail's contract (packages/payments/src/rail.ts:52-60): definite answers are true and final. */
  predicate Truthful(fate: Fate, a: Answer)
  {
    match a
    case SaysSettled => fate == Applied
    case SaysFailed => fate == Failed
    case SaysExpired => fate == Dead
    case SaysPending => true
    case Throws => true
  }

  function ItemsMarked(items: seq<Item>, batch: Id, state: ItemState): seq<Item>
  {
    seq(|items|, i requires 0 <= i < |items| =>
      if items[i].batch == batch && items[i].state != ItemSettled then items[i].(state := state) else items[i])
  }

  const CONFIRM_POLL_MS: int := 2_000

  /** The reversal `reverse` writes for a payout that was submitted and not settled. */
  function ReversalOf(j: seq<Posting>, batch: Id, owner: Id): Posting
  {
    Reversal(Payout(batch, owner), ByRef(Expand(j), BatchRef, Payout(batch, owner)))
  }

  /** A definite answer is written to the ledger, then to the store; a crash may separate the two. */
  function Settle(w: World, batch: Id, owner: Id, amount: int, crash: bool): (r: World)
    ensures r == w.(journal := r.journal, items := r.items, procs := r.procs,
                    returned := r.returned, stages := r.stages)
  {
    var ledger := w.(journal := Post(w.journal, Settled(batch, owner, amount)));
    if crash then Reboot(ledger) else ledger.(items := ItemsMarked(w.items, batch, ItemSettled))
  }

  function Refund(w: World, batch: Id, owner: Id, crash: bool): (r: World)
    ensures r == w.(journal := r.journal, items := r.items, procs := r.procs,
                    returned := r.returned, stages := r.stages)
  {
    if ReversalOf(w.journal, batch, owner).original == [] then w      // `reverse` throws
    else
      var ledger := w.(journal := Post(w.journal, ReversalOf(w.journal, batch, owner)));
      if crash then Reboot(ledger) else ledger.(items := ItemsMarked(w.items, batch, ItemFailed))
  }

  /** `reconcile` answered inside a withdrawal: the first question may throw out, later ones are retried. */
  function Answered(w: World, pid: nat, a: Answer, crash: bool): (r: World)
    ensures r == w.(journal := r.journal, items := r.items, procs := r.procs,
                    returned := r.returned, stages := r.stages)
  {
    if pid !in w.procs || !w.procs[pid].phase.Asking? then w
    else
      var p := w.procs[pid];
      var b := p.phase.batch;
      var k := TxAt(w, b);
      if k < 0 || !Truthful(w.txs[k].fate, a) then w
      else
        match a
        case SaysSettled => EndProc(Settle(w, b, p.owner, p.amount, crash), pid)
        case SaysFailed => EndProc(Refund(w, b, p.owner, crash), pid)
        case SaysExpired => EndProc(Refund(w, b, p.owner, crash), pid)
        case SaysPending => Poll(w, pid, p)
        case Throws => if p.phase.first then EndProc(w, pid) else Poll(w, pid, p)
  }

  function Poll(w: World, pid: nat, p: Proc): World
    requires p.phase.Asking?
  {
    if p.phase.left > 0 then
      w.(procs := w.procs[pid := p.(phase := Asking(p.phase.batch, p.phase.left - CONFIRM_POLL_MS, false))])
    else EndProc(w, pid)
  }

  /** `resumeUnresolved`, one record of an undecided batch. */
  function Resume(w: World, k: nat, a: Answer, crash: bool): (r: World)
    ensures r == w.(journal := r.journal, items := r.items, procs := r.procs,
                    returned := r.returned, stages := r.stages)
  {
    if k >= |w.items| || w.items[k].state != ItemSubmitted then w
    else
      var it := w.items[k];
      var t := TxAt(w, it.batch);
      if t < 0 || !Truthful(w.txs[t].fate, a) then w
      else
        match a
        case SaysSettled => Settle(w, it.batch, it.owner, it.amount, crash)
        case SaysFailed => Refund(w, it.batch, it.owner, crash)
        case SaysExpired => Refund(w, it.batch, it.owner, crash)
        case SaysPending => w
        case Throws => w
  }

  /** The network decides: only what was sent can be applied, and only while its fate is open. */
  function ChainDecides(w: World, k: nat, fate: Fate): (r: World)
    ensures r == w.(txs := r.txs)
  {
    if k >= |w.txs| || w.txs[k].fate != Open || (!w.txs[k].sent && fate != Dead) then w
    else w.(txs := w.txs[k := w.txs[k].(fate := fate)])
  }

  /* ---------- the other steps ---------- */

  /** `deposit`; it throws on amounts that are not positive. */
  function Deposit(w: World, advertiser: Id, amount: int, topup: Id): (r: World)
    ensures r == w.(journal := r.journal)
  {
    if amount <= 0 || !InRange(amount) then w else w.(journal := Post(w.journal, Topup(topup, advertiser, amount)))
  }

  predicate KnownCampaign(w: World, id: Id) { exists c :: c in w.campaigns && c.id == id }

  /** A new campaign outside any pool starts paused (campaign-store.ts `create`). */
  function NewCampaign(w: World, id: Id, advertiser: Id, bid: nat, daily: Option<int>, blocks: Option<nat>): (r: World)
    ensures r == w.(campaigns := r.campaigns)
  {
    if KnownCampaign(w, id) || bid < MIN_BID_CPM then w
    else w.(campaigns := w.campaigns + [Campaign(id, advertiser, bid, DEFAULT_SHARE_BPS, Paused, daily, blocks, None, None)])
  }

  const DEFAULT_SHARE_BPS: int := 5_000

  /** A pool member's project is billed to the sponsor at the pool's price and starts active. */
  function NewProject(w: World, id: Id, publisher: Id): (r: World)
    ensures r == w.(campaigns := r.campaigns)
  {
    if KnownCampaign(w, id) || publisher !in w.members then w
    else
      var k := PoolAt(w, w.members[publisher]);
      if k < 0 || !w.pools[k].open then w
      else
        var p := w.pools[k];
        w.(campaigns := w.campaigns
             + [Campaign(id, p.sponsor, p.bid, DEFAULT_SHARE_BPS, Active, None, None, Some(p.id), Some(publisher))])
  }

  function SetStatus(w: World, k: nat, status: Status): (r: World)
    ensures r == w.(campaigns := r.campaigns)
  {
    if k >= |w.campaigns| then w else w.(campaigns := w.campaigns[k := w.campaigns[k].(status := status)])
  }

  const MAX_DAILY_CAP: nat := 2_000

  function NewPool(w: World, id: Id, sponsor: Id, bid: nat, budget: int, cap: nat): (r: World)
    ensures r == w.(pools := r.pools)
  {
    if PoolAt(w, id) >= 0 || bid < MIN_BID_CPM || cap < 1 || cap > MAX_DAILY_CAP || budget * 1000 < bid then w
    else w.(pools := w.pools + [Pool(id, sponsor, bid, budget, cap, true)])
  }

  function ClosePool(w: World, k: nat): (r: World)
    ensures r == w.(pools := r.pools)
  {
    if k >= |w.pools| then w else w.(pools := w.pools[k := w.pools[k].(open := false)])
  }

  function SetBudget(w: World, k: nat, budget: int): (r: World)
    ensures r == w.(pools := r.pools)
  {
    if k >= |w.pools| || !w.pools[k].open then w else w.(pools := w.pools[k := w.pools[k].(budget := budget)])
  }

  function Join(w: World, k: nat, publisher: Id): (r: World)
    ensures r == w.(members := r.members)
  {
    if k >= |w.pools| || !w.pools[k].open then w else w.(members := w.members[publisher := w.pools[k].id])
  }

  /** The daily clean-up of decided impressions and long-expired deliveries, seen after a restart. */
  function Vacuum(w: World, before: int): (r: World)
    ensures r == w.(deliveries := r.deliveries, impressions := r.impressions, procs := r.procs,
                    returned := r.returned, stages := r.stages)
  {
    Reboot(w.(deliveries := Keep(w.deliveries, (d: Delivery) => KeptByGc(d, w.now)),
              impressions := Keep(w.impressions, (i: Impression) => i.state == Pending || i.serverTs >= before)))
  }

  /* ---------- steps and runs ---------- */

  datatype AdEvent =
    | DoServe(publisher: Id, nonce: Id, coin: (Id, Id) -> bool, crash: bool)
    | DoIngest(publisher: Id, report: Report, ingestCrash: IngestCrash)
    | DoVerify(k: nat, oracle: Oracle, crash: bool)
    | DoRestart
    | DoVacuum(before: int)

  datatype PayEvent =
    | DoDeposit(advertiser: Id, amount: int, topup: Id)
    | DoBegin(pid: nat, kind: Kind, owner: Id, amount: int)
    | DoValidated(pid: nat, accepted: bool, batch: Id)
    | DoPrepared(pid: nat, ok: bool, submitCrash: SubmitCrash)
    | DoSent(pid: nat)
    | DoAnswered(pid: nat, answer: Answer, crash: bool)
    | DoResume(k: nat, answer: Answer, crash: bool)
    | DoChain(k: nat, fate: Fate)

  datatype MarketEvent =
    | DoNewCampaign(id: Id, advertiser: Id, bid: nat, daily: Option<int>, blocks: Option<nat>)
    | DoNewProject(id: Id, publisher: Id)
    | DoSetStatus(k: nat, status: Status)
    | DoNewPool(id: Id, sponsor: Id, bid: nat, budget: int, cap: nat)
    | DoClosePool(k: nat)
    | DoSetBudget(k: nat, budget: int)
    | DoJoin(k: nat, publisher: Id)
    | DoLeave(publisher: Id)
    | DoBan(publisher: Id)
    | DoUnban(publisher: Id)

  datatype Event = Tick(ms: nat) | Ad(ad: AdEvent) | Pay(pay: PayEvent) | Market(market: MarketEvent)

  function AdStep(cfg: Config, w: World, e: AdEvent): (r: World)
    ensures r == w.(journal := r.journal, deliveries := r.deliveries, impressions := r.impressions, procs := r.procs,
                    returned := r.returned, stages := r.stages, served := r.served, backs := r.backs)
  {
    match e
    case DoServe(p, n, coin, crash) => Serve(cfg, w, p, n, coin, crash)
    case DoIngest(p, ev, crash) => Ingest(cfg, w, p, ev, crash)
    case DoVerify(k, o, crash) => Verify(cfg, w, k, o, crash)
    case DoRestart => Reboot(w)
    case DoVacuum(before) => Vacuum(w, before)
  }

  function PayStep(cfg: Config, w: World, e: PayEvent): (r: World)
    ensures r == w.(journal := r.journal, txs := r.txs, items := r.items, procs := r.procs,
                    returned := r.returned, stages := r.stages)
  {
    match e
    case DoDeposit(a, amount, t) => Deposit(w, a, amount, t)
    case DoBegin(pid, kind, owner, amount) => Begin(w, pid, kind, owner, amount)
    case DoValidated(pid, accepted, batch) => Validated(w, pid, accepted, batch)
    case DoPrepared(pid, ok, crash) => Prepared(w, pid, ok, crash)
    case DoSent(pid) => Sent(cfg, w, pid)
    case DoAnswered(pid, a, crash) => Answered(w, pid, a, crash)
    case DoResume(k, a, crash) => Resume(w, k, a, crash)
    case DoChain(k, fate) => ChainDecides(w, k, fate)
  }

  function MarketStep(w: World, e: MarketEvent): (r: World)
    ensures r == w.(campaigns := r.campaigns, pools := r.pools, members := r.members, bans := r.bans)
  {
    match e
    case DoNewCampaign(id, a, bid, daily, blocks) => NewCampaign(w, id, a, bid, daily, blocks)
    case DoNewProject(id, p) => NewProject(w, id, p)
    case DoSetStatus(k, s) => SetStatus(w, k, s)
    case DoNewPool(id, s, bid, budget, cap) => NewPool(w, id, s, bid, budget, cap)
    case DoClosePool(k) => ClosePool(w, k)
    case DoSetBudget(k, b) => SetBudget(w, k, b)
    case DoJoin(k, p) => Join(w, k, p)
    case DoLeave(p) => w.(members := w.members - {p})
    case DoBan(p) => w.(bans := w.bans + {p})
    case DoUnban(p) => w.(bans := w.bans - {p})
  }

  function Step(cfg: Config, w: World, e: Event): World
  {
    match e
    case Tick(ms) => w.(now := w.now + ms)
    case Ad(a) => AdStep(cfg, w, a)
    case Pay(p) => PayStep(cfg, w, p)
    case Market(m) => MarketStep(w, m)
  }

  function Run(cfg: Config, w: World, events: seq<Event>): World
  {
    if |events| == 0 then w else Step(cfg, Run(cfg, w, events[..|events| - 1]), events[|events| - 1])
  }

  lemma {:induction false} RunNext(cfg: Config, w: World, events: seq<Event>, e: Event)
    ensures Run(cfg, w, events + [e]) == Step(cfg, Run(cfg, w, events), e)
  {
    assert (events + [e])[..|events|] == events;
    hide Step;
  }

  lemma {:induction false} RunSplits(cfg: Config, w: World, before: seq<Event>, after: seq<Event>)
    ensures Run(cfg, w, before + after) == Run(cfg, Run(cfg, w, before), after)
  {
    hide Step;
    if |after| == 0 {
      assert before + after == before;
    } else {
      var all := before + after;
      assert all[..|all| - 1] == before + after[..|after| - 1];
      RunSplits(cfg, w, before, after[..|after| - 1]);
    }
  }
}
