/** Withdrawals from the outside: one at a time per account, up to the ceiling, and where the money is afterwards. */
module WorldWithdrawals {
  import opened Common
  import opened Sums
  import opened Ledger
  import opened LedgerFacts
  import opened Serving
  import opened World
  import opened WorldShape
  import opened PayoutLinks
  import opened WorldPayouts
  import opened WorldMoney
  import opened Commitments

  /* ---------- one at a time ---------- */

  ghost predicate OneAtATime(procs: map<nat, Proc>)
  {
    forall p, q {:trigger procs[p], procs[q]} ::
      p in procs && q in procs && procs[p].kind == procs[q].kind && procs[p].owner == procs[q].owner ==> p == q
  }

  /** Withdrawals go on or end; none begins, and none changes its account. */
  ghost predicate Continued(procs: map<nat, Proc>, procs': map<nat, Proc>)
  {
    forall p :: p in procs' ==> p in procs && procs'[p].kind == procs[p].kind && procs'[p].owner == procs[p].owner
  }

  lemma {:induction false} PayContinues(cfg: Config, w: World, e: PayEvent)
    requires !e.DoBegin?
    ensures Continued(w.procs, PayStep(cfg, w, e).procs)
  {
    hide Validated, Prepared, Answered, Resume;
    match e {
      case DoValidated(pid, accepted, batch) => PhasesContinue(cfg, w, pid, accepted, batch);
      case DoPrepared(pid, ok, crash) => PreparedContinues(w, pid, ok, crash);
      case DoAnswered(pid, a, crash) => AnswerContinues(w, pid, a, crash);
      case DoResume(k, a, crash) => ResumeContinues(w, k, a, crash);
      case _ =>
    }
  }

  lemma {:induction false} PhasesContinue(cfg: Config, w: World, pid: nat, accepted: bool, batch: Id)
    ensures Continued(w.procs, Validated(w, pid, accepted, batch).procs)
  {}

  lemma {:induction false} PreparedContinues(w: World, pid: nat, ok: bool, crash: SubmitCrash)
    ensures Continued(w.procs, Prepared(w, pid, ok, crash).procs)
  {
    hide Balance, WithdrawLimit, Post, TxAt, ExpiredNonces;
  }

  lemma {:induction false} ConcludingLosesProcs(w: World, b: Id, owner: Id, amount: int, crash: bool)
    ensures ProcsLost(w, Settle(w, b, owner, amount, crash)) && ProcsLost(w, Refund(w, b, owner, crash))
  {
    hide Post, ReversalOf, ExpiredNonces, ItemsMarked;
  }

  lemma {:induction false} EndingContinues(w: World, w': World, pid: nat)
    requires ProcsLost(w, w')
    ensures Continued(w.procs, w'.procs) && Continued(w.procs, EndProc(w', pid).procs)
  {}

  lemma {:induction false} PollingContinues(w: World, pid: nat)
    requires pid in w.procs && w.procs[pid].phase.Asking?
    ensures Continued(w.procs, Poll(w, pid, w.procs[pid]).procs)
  {}

  lemma {:induction false} AnswerContinues(w: World, pid: nat, a: Answer, crash: bool)
    ensures Continued(w.procs, Answered(w, pid, a, crash).procs)
  {
    if pid in w.procs && w.procs[pid].phase.Asking? {
      var p := w.procs[pid];
      ConcludingLosesProcs(w, p.phase.batch, p.owner, p.amount, crash);
      EndingContinues(w, w, pid);
      EndingContinues(w, Settle(w, p.phase.batch, p.owner, p.amount, crash), pid);
      EndingContinues(w, Refund(w, p.phase.batch, p.owner, crash), pid);
      PollingContinues(w, pid);
      hide Settle, Refund, Truthful, TxAt, Continued, EndProc, Poll, ProcsLost;
    }
  }

  lemma {:induction false} ResumeContinues(w: World, k: nat, a: Answer, crash: bool)
    ensures Continued(w.procs, Resume(w, k, a, crash).procs)
  {
    if k < |w.items| {
      var it := w.items[k];
      ConcludingLosesProcs(w, it.batch, it.owner, it.amount, crash);
      EndingContinues(w, Settle(w, it.batch, it.owner, it.amount, crash), 0);
      EndingContinues(w, Refund(w, it.batch, it.owner, crash), 0);
    }
    hide Settle, Refund, Truthful, TxAt, Continued, EndProc, ProcsLost;
    EndingContinues(w, w, 0);
  }

  /** A publisher's or the platform's whole balance, and of an advertiser's what is spendable beyond his open pools. */
  ghost predicate WithinCeiling(w: World, kind: Kind, owner: Id, amount: int)
  {
    match kind
    case PublisherKind => amount <= Balance(w.journal, Publisher(owner))
    case PlatformKind => amount <= Balance(w.journal, PlatformRevenue)
    case AdvertiserKind => amount <= Spendable(w, owner) - PoolReserve(w, owner)
  }

  /** The account is idle and the amount within its ceiling. */
  ghost predicate MayWithdraw(w: World, kind: Kind, owner: Id, amount: int)
  {
    && 1 <= amount && WithinCeiling(w, kind, owner, amount)
    && (forall q :: q in w.procs ==> w.procs[q].kind != kind || w.procs[q].owner != owner)
  }

  /** A withdrawal begins exactly when its account is idle and the amount within the ceiling; nothing else changes. */
  lemma {:induction false} BeginExactly(w: World, pid: nat, kind: Kind, owner: Id, amount: int)
    requires pid !in w.procs
    ensures Begin(w, pid, kind, owner, amount) ==
            if MayWithdraw(w, kind, owner, amount) then w.(procs := w.procs[pid := Proc(kind, owner, amount, Validating)]) else w
  {
    hide Balance, Spendable, PoolReserve;
  }

  lemma {:induction false} OneAtATimeStep(cfg: Config, w: World, e: Event)
    requires OneAtATime(w.procs)
    ensures OneAtATime(Step(cfg, w, e).procs)
  {
    hide Begin, AdStep, PayStep, MarketStep;
    match e {
      case Ad(a) => AdContinues(cfg, w, a);
      case Pay(p) =>
        if p.DoBegin? {
          BeginsAlone(cfg, w, p);
        } else {
          PayContinues(cfg, w, p);
        }
      case _ =>
    }
  }

  lemma {:induction false} BeginsAlone(cfg: Config, w: World, e: PayEvent)
    requires e.DoBegin? && OneAtATime(w.procs)
    ensures OneAtATime(PayStep(cfg, w, e).procs)
  {
    if e.pid !in w.procs {
      BeginExactly(w, e.pid, e.kind, e.owner, e.amount);
    }
  }

  lemma {:induction false} ProcsOfVerify(cfg: Config, w: World, k: nat, o: Oracle, crash: bool)
    ensures ProcsLost(w, Verify(cfg, w, k, o, crash))
  {
    hide Judged, Post;
  }

  lemma {:induction false} AdContinues(cfg: Config, w: World, e: AdEvent)
    ensures Continued(w.procs, AdStep(cfg, w, e).procs)
  {
    hide Serve, Ingest, Verify, Vacuum;
    match e {
      case DoServe(p, n, coin, crash) => ProcsOfServe(cfg, w, p, n, coin, crash);
      case DoIngest(p, ev, crash) => ProcsOfIngest(cfg, w, p, ev, crash);
      case DoVerify(k, o, crash) => ProcsOfVerify(cfg, w, k, o, crash);
      case DoRestart =>
      case DoVacuum(before) => ProcsOfVacuum(w, before);
    }
  }

  /** In every run, at every moment, an account has at most one withdrawal under way. */
  lemma {:induction false} OneWithdrawalPerAccount(cfg: Config, events: seq<Event>)
    ensures OneAtATime(Run(cfg, Empty(), events).procs)
  {
    hide Step;
    if |events| > 0 {
      OneWithdrawalPerAccount(cfg, events[..|events| - 1]);
      OneAtATimeStep(cfg, Run(cfg, Empty(), events[..|events| - 1]), events[|events| - 1]);
    }
  }

  /* ---------- phase by phase ---------- */

  lemma {:induction false} PreparedUnfolds(w: World, pid: nat, ok: bool)
    requires pid in w.procs && w.procs[pid].phase.Preparing? && TxAt(w, w.procs[pid].phase.batch) < 0
    ensures var p := w.procs[pid];
            var b := p.phase.batch;
            Prepared(w, pid, ok, Survives) ==
            if !ok || p.amount > WithdrawLimit(w, p.kind, p.owner) || Balance(w.journal, Source(p.kind, p.owner)) < p.amount
            then EndProc(w, pid)
            else w.(journal := Post(w.journal, Submitted(p.kind, b, p.owner, p.amount)),
                    txs := w.txs + [Tx(p.kind, b, p.owner, p.amount, true, Open)],
                    items := w.items + [Item(b, p.owner, p.amount, ItemSubmitted)],
                    procs := w.procs[pid := p.(phase := Sending(b))])
  {
    hide WithdrawLimit, Balance, Post;
  }

  /**
    When the envelope comes back signed, the money leaves exactly when the ceiling, read again, still covers the
    amount; ledger, envelope and record are then written together, and the ledger's own check never refuses.
    */
  lemma {:induction false} PreparedExactly(w: World, pid: nat, ok: bool)
    requires Offers(w) && Reports(w) && Payouts(w) && pid in w.procs && w.procs[pid].phase.Preparing?
    requires forall k :: 0 <= k < |w.txs| ==> w.txs[k].batch != w.procs[pid].phase.batch
    ensures var p := w.procs[pid];
            var b := p.phase.batch;
            var w' := Prepared(w, pid, ok, Survives);
            var left := |w'.journal| > |w.journal|;
            && (left <==> ok && WithinCeiling(w, p.kind, p.owner, p.amount))
            && w' == if left then w.(journal := w.journal + [Submitted(p.kind, b, p.owner, p.amount)],
                                     txs := w.txs + [Tx(p.kind, b, p.owner, p.amount, true, Open)],
                                     items := w.items + [Item(b, p.owner, p.amount, ItemSubmitted)],
                                     procs := w.procs[pid := p.(phase := Sending(b))])
                     else w.(procs := w.procs - {pid})
  {
    var p := w.procs[pid];
    PreparedUnfolds(w, pid, ok);
    assert ProcLinked(w, p);
    FreshBatch(w.journal, w.txs, p.phase.batch, p.owner);
    if p.kind == AdvertiserKind {
      SpendableIsFree(w, p.owner);
      RatesWeigh(w, p.owner, {});
      ExposedIsNotNegative(w, RateOf(p.owner));
      ReserveIsNotNegative(w, p.owner);
    }
    hide Prepared, Balance, Spendable, PoolReserve, HasId, Payouts, Offers, Reports, Exposed;
  }

  /** A crash after the ledger entry loses the record, one after the record only the memory; the envelope never goes out. */
  lemma {:induction false} PreparedCutShort(w: World, pid: nat, ok: bool)
    ensures var whole := Prepared(w, pid, ok, Survives);
            var early, late := Prepared(w, pid, ok, AfterLedger), Prepared(w, pid, ok, AfterRecord);
            if whole.txs == w.txs then early == whole && late == whole
            else
              var unsent := whole.txs[..|w.txs|] + [whole.txs[|w.txs|].(sent := false)];
              && early == Reboot(whole.(txs := unsent, items := w.items))
              && late == Reboot(whole.(txs := unsent))
  {
    hide Balance, WithdrawLimit, Post, TxAt;
    if pid in w.procs && w.procs[pid].phase.Preparing? {
      var p := w.procs[pid];
      var t := Tx(p.kind, p.phase.batch, p.owner, p.amount, false, Open);
      assert (w.txs + [t.(sent := true)])[..|w.txs|] == w.txs;
    }
  }

  /** The answer "not yet": ask again in two seconds while the waiting time lasts. */
  lemma {:induction false} NotYet(cfg: Config, w: World, pid: nat)
    requires pid in w.procs && w.procs[pid].phase.Asking? && TxAt(w, w.procs[pid].phase.batch) >= 0
    ensures var p := w.procs[pid];
            Step(cfg, w, Pay(DoAnswered(pid, SaysPending, false))) ==
            w.(procs := if p.phase.left > 0 then w.procs[pid := p.(phase := Asking(p.phase.batch, p.phase.left - 2_000, false))]
                        else w.procs - {pid})
  {
    hide Settle, Refund, TxAt;
  }

  lemma {:induction false} NobodyAsks(cfg: Config, w: World, pid: nat)
    requires pid !in w.procs
    ensures Step(cfg, w, Pay(DoAnswered(pid, SaysPending, false))) == w
  {
    hide Settle, Refund, TxAt;
  }

  /** The chain is asked once, and again every two seconds while the answer is open and the waiting time lasts. */
  lemma {:induction false} AskedAgainExactly(cfg: Config, w: World, pid: nat, n: nat)
    requires pid in w.procs && w.procs[pid].phase.Asking? && TxAt(w, w.procs[pid].phase.batch) >= 0
    ensures var p := w.procs[pid];
            var w' := Run(cfg, w, seq(n, i => Pay(DoAnswered(pid, SaysPending, false))));
            w' == w.(procs := if n == 0 || 2_000 * (n - 1) < p.phase.left
                              then w.procs[pid := p.(phase := Asking(p.phase.batch, p.phase.left - 2_000 * n, n == 0 && p.phase.first))]
                              else w.procs - {pid})
  {
    hide Step;
    var ask := Pay(DoAnswered(pid, SaysPending, false));
    var asks := seq(n, i => ask);
    if n == 0 {
      assert w.procs[pid := w.procs[pid]] == w.procs;
    } else {
      AskedAgainExactly(cfg, w, pid, n - 1);
      assert asks[..n - 1] == seq(n - 1, i => ask);
      var before := Run(cfg, w, asks[..n - 1]);
      assert Run(cfg, w, asks) == Step(cfg, before, ask);
      assert before.txs == w.txs;
      if pid in before.procs {
        NotYet(cfg, before, pid);
      } else {
        NobodyAsks(cfg, before, pid);
      }
    }
  }

  /* ---------- a whole withdrawal ---------- */

  lemma {:induction false} ItemsDoNotMatter(w: World, w1: World, owner: Id)
    requires w1 == w.(items := w1.items, procs := w1.procs)
    ensures Spendable(w1, owner) == Spendable(w, owner)
    ensures PoolReserve(w1, owner) == PoolReserve(w, owner)
  {
    forall id ensures PoolSpent(w1, id) == PoolSpent(w, id) {
      assert PoolCampaigns(w1, id) == PoolCampaigns(w, id);
    }
    hide PoolSpent;
    SumSame(w.pools, ReserveWeight(w1, owner), ReserveWeight(w, owner));
  }

  function Concluded(w: World, batch: Id, owner: Id, amount: int, a: Answer): World
  {
    if a == SaysSettled then Settle(w, batch, owner, amount, false) else Refund(w, batch, owner, false)
  }

  lemma {:induction false} AnsweredUnfolds(w: World, pid: nat, a: Answer, k: nat)
    requires pid in w.procs && w.procs[pid].phase.Asking? && k == TxAt(w, w.procs[pid].phase.batch) && Truthful(w.txs[k].fate, a)
    ensures var p := w.procs[pid];
            Answered(w, pid, a, false) ==
            if a == SaysPending || a == Throws then
              (if (a == Throws && p.phase.first) || p.phase.left <= 0 then EndProc(w, pid)
               else w.(procs := w.procs[pid := p.(phase := Asking(p.phase.batch, p.phase.left - CONFIRM_POLL_MS, false))]))
            else EndProc(Concluded(w, p.phase.batch, p.owner, p.amount, a), pid)
  {
    hide Settle, Refund;
  }

  /** The world while the envelope is being signed. */
  lemma {:induction false} GetsReady(w: World, pid: nat, kind: Kind, owner: Id, amount: int, batch: Id)
    requires pid !in w.procs && MayWithdraw(w, kind, owner, amount)
    ensures Validated(Begin(w, pid, kind, owner, amount), pid, true, batch) ==
            w.(procs := w.procs[pid := Proc(kind, owner, amount, Preparing(batch))])
  {
    BeginExactly(w, pid, kind, owner, amount);
    var w1 := Begin(w, pid, kind, owner, amount);
    assert w1 == w.(procs := w.procs[pid := Proc(kind, owner, amount, Validating)]);
    hide Begin, Balance, Spendable, PoolReserve;
    assert w1.procs[pid := Proc(kind, owner, amount, Preparing(batch))] == w.procs[pid := Proc(kind, owner, amount, Preparing(batch))];
  }

  /** Ledger, envelope and record are written. */
  lemma {:induction false} EnvelopeIsWritten(w: World, w2: World, pid: nat, p: Proc)
    requires Offers(w) && Reports(w) && Payouts(w) && MayWithdraw(w, p.kind, p.owner, p.amount) && p.phase.Preparing?
    requires forall k :: 0 <= k < |w.txs| ==> w.txs[k].batch != p.phase.batch
    requires w2 == w.(procs := w.procs[pid := p])
    ensures Prepared(w2, pid, true, Survives) ==
            w2.(journal := w.journal + [Submitted(p.kind, p.phase.batch, p.owner, p.amount)],
                txs := w.txs + [Tx(p.kind, p.phase.batch, p.owner, p.amount, true, Open)],
                items := w.items + [Item(p.phase.batch, p.owner, p.amount, ItemSubmitted)],
                procs := w2.procs[pid := p.(phase := Sending(p.phase.batch))])
  {
    ReadyWorld(w, w2, pid, p);
    ItemsDoNotMatter(w, w2, p.owner);
    PreparedExactly(w2, pid, true);
    hide Prepared, Balance, Spendable, PoolReserve, Offers, Reports, Payouts;
  }

  lemma {:induction false} AskedNext(cfg: Config, w3: World, pid: nat, p: Proc)
    requires pid in w3.procs && w3.procs[pid] == p && p.phase.Sending?
    ensures Sent(cfg, w3, pid) == w3.(procs := w3.procs[pid := p.(phase := Asking(p.phase.batch, cfg.confirmWaitMs, true))])
  {}

  /** And the chain is about to be asked. */
  lemma {:induction false} GoesOut(cfg: Config, w: World, w2: World, pid: nat, p: Proc)
    requires Offers(w) && Reports(w) && Payouts(w) && MayWithdraw(w, p.kind, p.owner, p.amount) && p.phase.Preparing?
    requires forall k :: 0 <= k < |w.txs| ==> w.txs[k].batch != p.phase.batch
    requires w2 == w.(procs := w.procs[pid := p])
    ensures Sent(cfg, Prepared(w2, pid, true, Survives), pid) ==
            w.(journal := w.journal + [Submitted(p.kind, p.phase.batch, p.owner, p.amount)],
               txs := w.txs + [Tx(p.kind, p.phase.batch, p.owner, p.amount, true, Open)],
               items := w.items + [Item(p.phase.batch, p.owner, p.amount, ItemSubmitted)],
               procs := w.procs[pid := p.(phase := Asking(p.phase.batch, cfg.confirmWaitMs, true))])
  {
    EnvelopeIsWritten(w, w2, pid, p);
    hide MayWithdraw, Offers, Reports, Payouts, Prepared, Sent;
    var w3 := Prepared(w2, pid, true, Survives);
    AskedNext(cfg, w3, pid, p.(phase := Sending(p.phase.batch)));
    var asking := p.(phase := Asking(p.phase.batch, cfg.confirmWaitMs, true));
    assert w3.procs[pid := asking] == w.procs[pid := asking];
  }

  lemma {:induction false} ReadyWorld(w: World, w2: World, pid: nat, p: Proc)
    requires Offers(w) && Reports(w) && Payouts(w) && 1 <= p.amount && !Signed(p.phase)
    requires w2 == w.(procs := w.procs[pid := p])
    ensures Offers(w2) && Reports(w2) && Payouts(w2)
  {
    hide Linked;
    forall i {:trigger w2.items[i]} | 0 <= i < |w2.items| ensures ItemLinked(w2, w2.items[i]) {
      assert ItemLinked(w, w.items[i]);
    }
    forall q {:trigger w2.procs[q]} | q in w2.procs ensures ProcLinked(w2, w2.procs[q]) {
      assert q != pid ==> ProcLinked(w, w.procs[q]);
    }
    forall i | 0 <= i < |w.impressions| ensures GoodReport(w2, w.impressions[i]) {
      assert GoodReport(w, w.impressions[i]);
    }
    forall i | 0 <= i < |w.deliveries| ensures Registered(w2, w.deliveries[i]) {
      assert Registered(w, w.deliveries[i]);
    }
  }

  /** Which answer goes with which fate. */
  predicate Tells(a: Answer, fate: Fate)
  {
    (a == SaysSettled && fate == Applied) || (a == SaysFailed && fate == Failed) || (a == SaysExpired && fate == Dead)
  }

  /** What the ledger says of a payout that was submitted and decided. */
  function Outcome(kind: Kind, owner: Id, amount: int, batch: Id, fate: Fate): Posting
  {
    if fate == Applied then Settled(batch, owner, amount)
    else Reversal(Payout(batch, owner), EntriesOf(Submitted(kind, batch, owner, amount)))
  }

  /** The decision reaches the ledger: the outcome is posted, and it is a first write. */
  lemma {:induction false} OutcomeIsPosted(j: seq<Posting>, txs: seq<Tx>, t: Tx, fate: Fate)
    requires Linked(j, txs) && 0 < t.amount && t.sent && t.fate == Open && fate in {Applied, Failed, Dead}
    requires forall k :: 0 <= k < |txs| ==> txs[k].batch != t.batch
    ensures var j' := j + [SubmitOf(t)];
            var outcome := Outcome(t.kind, t.owner, t.amount, t.batch, fate);
            && Post(j', outcome) == j' + [outcome]
            && (fate != Applied ==> ReversalOf(j', t.batch, t.owner) == outcome)
  {
    var j', all := j + [SubmitOf(t)], txs + [t];
    var b, o := t.batch, t.owner;
    SubmitPost(j, txs, t);
    FreshBatch(j, txs, b, o);
    HasIdGrows(j, SubmitOf(t), SettleId(b, o));
    HasIdGrows(j, SubmitOf(t), ReversalId(Payout(b, o)));
    var decided := all[|txs| := t.(fate := fate)];
    assert decided == all[|txs| := all[|txs|].(fate := fate)];
    DecidedLinks(j', all, |txs|, fate);
    if fate != Applied {
      RefundPost(j', decided, |txs|);
      assert SubmitOf(decided[|txs|]) == SubmitOf(t);
    }
    hide Linked, HasId, ByRef, Expand, EntriesOf;
  }

  lemma {:induction false} MarkLast(items: seq<Item>, it: Item, state: ItemState)
    requires it.state == ItemSubmitted && forall i :: 0 <= i < |items| ==> items[i].batch != it.batch
    ensures ItemsMarked(items + [it], it.batch, state) == items + [it.(state := state)]
  {}

  lemma {:induction false} NoRecordYet(w: World, batch: Id)
    requires Payouts(w) && forall k :: 0 <= k < |w.txs| ==> w.txs[k].batch != batch
    ensures forall i :: 0 <= i < |w.items| ==> w.items[i].batch != batch
  {
    forall i | 0 <= i < |w.items| ensures w.items[i].batch != batch {
      assert ItemLinked(w, w.items[i]);
    }
  }

  /** Ledger and record of a decided payout. */
  lemma {:induction false} OutcomeIsWritten(w5: World, j: seq<Posting>, txs: seq<Tx>, items: seq<Item>, t: Tx, fate: Fate, a: Answer)
    requires Linked(j, txs) && 0 < t.amount && t.sent && t.fate == Open && Tells(a, fate)
    requires forall k :: 0 <= k < |txs| ==> txs[k].batch != t.batch
    requires forall i :: 0 <= i < |items| ==> items[i].batch != t.batch
    requires w5.journal == j + [SubmitOf(t)] && w5.items == items + [Item(t.batch, t.owner, t.amount, ItemSubmitted)]
    ensures Concluded(w5, t.batch, t.owner, t.amount, a) ==
            w5.(journal := j + [SubmitOf(t), Outcome(t.kind, t.owner, t.amount, t.batch, fate)],
                items := items + [Item(t.batch, t.owner, t.amount, if fate == Applied then ItemSettled else ItemFailed)])
  {
    OutcomeIsPosted(j, txs, t, fate);
    MarkLast(items, Item(t.batch, t.owner, t.amount, ItemSubmitted), if fate == Applied then ItemSettled else ItemFailed);
    hide Linked, Post, ReversalOf, ItemsMarked, EntriesOf, SubmitOf;
    assert j + [SubmitOf(t)] + [Outcome(t.kind, t.owner, t.amount, t.batch, fate)] ==
           j + [SubmitOf(t), Outcome(t.kind, t.owner, t.amount, t.batch, fate)];
  }

  /** The chain decides, the answer is heard, and the withdrawal is over. */
  lemma {:induction false} ComesBack(cfg: Config, w: World, w4: World, pid: nat, t: Tx, asking: Proc, fate: Fate, a: Answer)
    requires Payouts(w) && 0 < t.amount && t.sent && t.fate == Open && pid !in w.procs && Tells(a, fate)
    requires forall k :: 0 <= k < |w.txs| ==> w.txs[k].batch != t.batch
    requires asking == Proc(t.kind, t.owner, t.amount, Asking(t.batch, cfg.confirmWaitMs, true))
    requires w4 == w.(journal := w.journal + [SubmitOf(t)], txs := w.txs + [t],
                      items := w.items + [Item(t.batch, t.owner, t.amount, ItemSubmitted)], procs := w.procs[pid := asking])
    ensures Answered(ChainDecides(w4, |w.txs|, fate), pid, a, false) ==
            w.(journal := w.journal + [SubmitOf(t), Outcome(t.kind, t.owner, t.amount, t.batch, fate)],
               txs := w.txs + [t.(fate := fate)],
               items := w.items + [Item(t.batch, t.owner, t.amount, if fate == Applied then ItemSettled else ItemFailed)])
  {
    var w5 := w4.(txs := w.txs + [t.(fate := fate)]);
    ChainDecidesLast(w4, w.txs, t, fate);
    NoRecordYet(w, t.batch);
    OutcomeIsWritten(w5, w.journal, w.txs, w.items, t, fate, a);
    assert TxAt(w5, t.batch) == |w.txs|;
    AnsweredUnfolds(w5, pid, a, |w.txs|);
    hide ChainDecides, Answered, Concluded, Payouts, TxAt, Outcome, SubmitOf;
    assert w5.procs - {pid} == w.procs;
  }

  lemma {:induction false} ChainDecidesLast(w: World, txs: seq<Tx>, t: Tx, fate: Fate)
    requires w.txs == txs + [t] && t.sent && t.fate == Open
    ensures ChainDecides(w, |txs|, fate) == w.(txs := txs + [t.(fate := fate)])
  {}

  /**
    A withdrawal that is allowed goes through: from any reachable state, once the chain has decided, the account
    is charged and settled when the payment was applied, and the charge is undone entry by entry when it was not;
    nothing else in the world has changed.
    */
  lemma {:induction false} WithdrawalGoesThrough(cfg: Config, w: World, pid: nat, kind: Kind, owner: Id, amount: int, batch: Id, fate: Fate, a: Answer)
    requires Offers(w) && Reports(w) && Payouts(w) && pid !in w.procs && MayWithdraw(w, kind, owner, amount) && Tells(a, fate)
    requires forall k :: 0 <= k < |w.txs| ==> w.txs[k].batch != batch
    ensures var asked := Validated(Begin(w, pid, kind, owner, amount), pid, true, batch);
            var out := Sent(cfg, Prepared(asked, pid, true, Survives), pid);
            Answered(ChainDecides(out, |w.txs|, fate), pid, a, false) ==
            w.(journal := w.journal + [Submitted(kind, batch, owner, amount), Outcome(kind, owner, amount, batch, fate)],
               txs := w.txs + [Tx(kind, batch, owner, amount, true, fate)],
               items := w.items + [Item(batch, owner, amount, if fate == Applied then ItemSettled else ItemFailed)])
  {
    var w2 := Validated(Begin(w, pid, kind, owner, amount), pid, true, batch);
    var w4 := Sent(cfg, Prepared(w2, pid, true, Survives), pid);
    GetsReady(w, pid, kind, owner, amount, batch);
    GoesOut(cfg, w, w2, pid, Proc(kind, owner, amount, Preparing(batch)));
    var t := Tx(kind, batch, owner, amount, true, Open);
    assert 0 < amount;
    hide Offers, Reports, Payouts, MayWithdraw, Begin, Validated, Prepared, Sent, ChainDecides, Answered, Outcome;
    ComesBack(cfg, w, w4, pid, t, Proc(kind, owner, amount, Asking(batch, cfg.confirmWaitMs, true)), fate, a);
  }
}
