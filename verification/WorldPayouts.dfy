/** Payout invariants of every reachable world, and no double payment. */
module WorldPayouts {
  import opened Common
  import opened Ledger
  import opened LedgerFacts
  import opened Selector
  import opened Serving
  import opened World
  import opened WorldShape
  import opened PayoutLinks

  ghost predicate SameMoney(t: Tx, batch: Id, owner: Id, amount: int)
  {
    t.batch == batch && t.owner == owner && t.amount == amount
  }

  /** A stored record has its transaction, and its state was written after the ledger's. */
  ghost predicate ItemLinked(w: World, it: Item)
  {
    && (exists k :: 0 <= k < |w.txs| && SameMoney(w.txs[k], it.batch, it.owner, it.amount))
    && (it.state == ItemSettled ==> HasId(w.journal, SettleId(it.batch, it.owner)))
    && (it.state == ItemFailed ==> HasId(w.journal, ReversalId(Payout(it.batch, it.owner))))
  }

  predicate Signed(p: Phase) { p.Sending? || p.Asking? }

  ghost predicate ProcLinked(w: World, p: Proc)
  {
    && 0 < p.amount
    && (Signed(p.phase) ==>
          exists k :: 0 <= k < |w.txs| && SameMoney(w.txs[k], p.phase.batch, p.owner, p.amount))
  }

  ghost predicate Payouts(w: World)
  {
    && Linked(w.journal, w.txs)
    && (forall i {:trigger w.items[i]} :: 0 <= i < |w.items| ==> ItemLinked(w, w.items[i]))
    && (forall q {:trigger w.procs[q]} :: q in w.procs ==> ProcLinked(w, w.procs[q]))
  }

  lemma {:induction false} PostKeepsIds(j: seq<Posting>, p: Posting, id: PostingId)
    requires HasId(j, id)
    ensures HasId(Post(j, p), id)
  {
    HasIdGrows(j, p, id);
  }

  lemma {:induction false} PostHasId(j: seq<Posting>, p: Posting)
    ensures HasId(Post(j, p), IdOf(p))
  {
    HasIdGrows(j, p, IdOf(p));
  }

  /** Transactions are added and decided, never removed or changed otherwise. */
  ghost predicate TxsPersist(a: seq<Tx>, b: seq<Tx>)
  {
    |a| <= |b| && forall k {:trigger b[k]} :: 0 <= k < |a| ==>
      SameMoney(b[k], a[k].batch, a[k].owner, a[k].amount) && (a[k].fate != Open ==> b[k].fate == a[k].fate)
  }

  ghost predicate Grew(j: seq<Posting>, j': seq<Posting>)
  {
    j' == j || exists p :: j' == Post(j, p)
  }

  lemma {:induction false} GrewKeepsIds(j: seq<Posting>, j': seq<Posting>, id: PostingId)
    requires Grew(j, j') && HasId(j, id)
    ensures HasId(j', id)
  {
    if j' != j {
      var p :| j' == Post(j, p);
      PostKeepsIds(j, p, id);
    }
  }

  lemma {:induction false} ItemKept(w: World, w': World, it: Item)
    requires ItemLinked(w, it) && TxsPersist(w.txs, w'.txs) && Grew(w.journal, w'.journal)
    ensures ItemLinked(w', it)
  {
    var k :| 0 <= k < |w.txs| && SameMoney(w.txs[k], it.batch, it.owner, it.amount);
    assert SameMoney(w'.txs[k], it.batch, it.owner, it.amount);
    if it.state == ItemSettled { GrewKeepsIds(w.journal, w'.journal, SettleId(it.batch, it.owner)); }
    if it.state == ItemFailed { GrewKeepsIds(w.journal, w'.journal, ReversalId(Payout(it.batch, it.owner))); }
  }

  lemma {:induction false} ProcKept(w: World, w': World, p: Proc)
    requires ProcLinked(w, p) && TxsPersist(w.txs, w'.txs)
    ensures ProcLinked(w', p)
  {
    if Signed(p.phase) {
      var k :| 0 <= k < |w.txs| && SameMoney(w.txs[k], p.phase.batch, p.owner, p.amount);
      assert SameMoney(w'.txs[k], p.phase.batch, p.owner, p.amount);
    }
  }

  /** Steps that only lose processes, or write a plain posting. */
  lemma {:induction false} PayoutsKept(w: World, w': World)
    requires Payouts(w) && Linked(w'.journal, w'.txs)
    requires TxsPersist(w.txs, w'.txs) && Grew(w.journal, w'.journal)
    requires forall i :: 0 <= i < |w'.items| ==> w'.items[i] in w.items
    requires forall q :: q in w'.procs ==> q in w.procs && w'.procs[q] == w.procs[q]
    ensures Payouts(w')
  {
    forall i {:trigger w'.items[i]} | 0 <= i < |w'.items| ensures ItemLinked(w', w'.items[i]) {
      var m :| 0 <= m < |w.items| && w.items[m] == w'.items[i];
      ItemKept(w, w', w.items[m]);
    }
    forall q {:trigger w'.procs[q]} | q in w'.procs ensures ProcLinked(w', w'.procs[q]) {
      ProcKept(w, w', w.procs[q]);
    }
  }

  lemma {:induction false} PayoutsStep(cfg: Config, w: World, e: Event)
    requires Reports(w) && Offers(w) && Payouts(w)
    ensures Payouts(Step(cfg, w, e))
  {
    hide AdStep, PayStep, MarketStep;
    match e {
      case Ad(a) => PayoutsAd(cfg, w, a);
      case Pay(p) => PayoutsPay(cfg, w, p);
      case _ => PayoutsKept(w, Step(cfg, w, e));
    }
  }

  lemma {:induction false} PayoutsAd(cfg: Config, w: World, e: AdEvent)
    requires Reports(w) && Offers(w) && Payouts(w)
    ensures Payouts(AdStep(cfg, w, e))
  {
    hide Serve, Ingest, Verify, Vacuum;
    match e {
      case DoVerify(k, o, crash) => PayoutsVerify(cfg, w, k, o, crash);
      case DoServe(p, n, coin, crash) => ProcsOfServe(cfg, w, p, n, coin, crash);
        PayoutsKept(w, Serve(cfg, w, p, n, coin, crash));
      case DoIngest(p, ev, crash) => ProcsOfIngest(cfg, w, p, ev, crash);
        PayoutsKept(w, Ingest(cfg, w, p, ev, crash));
      case DoRestart => PayoutsKept(w, Reboot(w));
      case DoVacuum(before) => ProcsOfVacuum(w, before);
        PayoutsKept(w, Vacuum(w, before));
    }
  }

  ghost predicate ProcsLost(w: World, w': World)
  {
    w'.procs == w.procs || w'.procs == map[]
  }

  lemma {:induction false} ProcsOfServe(cfg: Config, w: World, p: Id, n: Id, coin: (Id, Id) -> bool, crash: bool)
    ensures ProcsLost(w, Serve(cfg, w, p, n, coin, crash))
  {
    hide Select, DepsFor;
  }

  lemma {:induction false} ProcsOfIngest(cfg: Config, w: World, p: Id, ev: Report, crash: IngestCrash)
    ensures ProcsLost(w, Ingest(cfg, w, p, ev, crash))
  {
    hide IngestOne;
  }

  lemma {:induction false} ProcsOfVacuum(w: World, before: int)
    ensures ProcsLost(w, Vacuum(w, before))
  {}

  lemma {:induction false} PayoutsVerify(cfg: Config, w: World, k: nat, o: Oracle, crash: bool)
    requires Reports(w) && Offers(w) && Payouts(w)
    ensures Payouts(Verify(cfg, w, k, o, crash))
  {
    var w' := Verify(cfg, w, k, o, crash);
    var posted, decided := VerifyCases(cfg, w, k, o, crash);
    assert ProcsLost(w, w');
    hide Verify;
    if posted {
      PlainPost(w.journal, w.txs, ShownOf(w.impressions[k]));
    }
    PayoutsKept(w, w');
  }

  lemma {:induction false} PayoutsPay(cfg: Config, w: World, e: PayEvent)
    requires Payouts(w)
    ensures Payouts(PayStep(cfg, w, e))
  {
    hide Begin, Validated, Prepared, Sent, Answered, Resume, ChainDecides;
    match e {
      case DoDeposit(a, amount, t) =>
        if amount > 0 {
          PlainPost(w.journal, w.txs, Topup(t, a, amount));
        }
        PayoutsKept(w, Deposit(w, a, amount, t));
      case DoBegin(pid, kind, owner, amount) => PayoutsBegin(w, pid, kind, owner, amount);
      case DoValidated(pid, accepted, batch) => PayoutsValidated(w, pid, accepted, batch);
      case DoPrepared(pid, ok, crash) => PayoutsPrepared(w, pid, ok, crash);
      case DoSent(pid) => PayoutsSent(cfg, w, pid);
      case DoAnswered(pid, a, crash) => PayoutsAnswered(w, pid, a, crash);
      case DoResume(k, a, crash) => PayoutsResume(w, k, a, crash);
      case DoChain(k, fate) => PayoutsChain(w, k, fate);
    }
  }

  /** One process moves; nothing else changes. */
  lemma {:induction false} ProcMoves(w: World, w': World, pid: nat, p: Proc)
    requires Payouts(w) && w' == w.(procs := w.procs[pid := p]) && ProcLinked(w, p)
    ensures Payouts(w')
  {
    forall i {:trigger w'.items[i]} | 0 <= i < |w'.items| ensures ItemLinked(w', w'.items[i]) {
      ItemKept(w, w', w.items[i]);
    }
    forall q {:trigger w'.procs[q]} | q in w'.procs ensures ProcLinked(w', w'.procs[q]) {
      ProcKept(w, w', w'.procs[q]);
    }
  }

  lemma {:induction false} PayoutsBegin(w: World, pid: nat, kind: Kind, owner: Id, amount: int)
    requires Payouts(w)
    ensures Payouts(Begin(w, pid, kind, owner, amount))
  {
    hide WithdrawLimit;
    var p := Proc(kind, owner, amount, Validating);
    if Begin(w, pid, kind, owner, amount) != w {
      ProcMoves(w, Begin(w, pid, kind, owner, amount), pid, p);
    }
  }

  lemma {:induction false} PayoutsValidated(w: World, pid: nat, accepted: bool, batch: Id)
    requires Payouts(w)
    ensures Payouts(Validated(w, pid, accepted, batch))
  {
    var w' := Validated(w, pid, accepted, batch);
    if pid in w.procs && w.procs[pid].phase.Validating? {
      if accepted {
        ProcMoves(w, w', pid, w.procs[pid].(phase := Preparing(batch)));
      } else {
        PayoutsKept(w, w');
      }
    }
  }

  lemma {:induction false} PayoutsSent(cfg: Config, w: World, pid: nat)
    requires Payouts(w)
    ensures Payouts(Sent(cfg, w, pid))
  {
    var w' := Sent(cfg, w, pid);
    if pid in w.procs && w.procs[pid].phase.Sending? {
      var p := w.procs[pid];
      assert ProcLinked(w, p);
      ProcMoves(w, w', pid, p.(phase := Asking(p.phase.batch, cfg.confirmWaitMs, true)));
    }
  }

  /** What the phase after `prepare` does: nothing but end, or one submit with its envelope and record. */
  lemma {:induction false} PreparedCases(w: World, pid: nat, ok: bool, crash: SubmitCrash) returns (t: Option<Tx>)
    ensures var w' := Prepared(w, pid, ok, crash);
            t.None? ==> w'.journal == w.journal && w'.txs == w.txs && w'.items == w.items && w'.procs in {w.procs, w.procs - {pid}}
    ensures t.Some? ==>
              var w' := Prepared(w, pid, ok, crash);
              && pid in w.procs && w.procs[pid].phase.Preparing?
              && var p := w.procs[pid];
              && t.value == Tx(p.kind, p.phase.batch, p.owner, p.amount, t.value.sent, Open)
              && (forall k :: 0 <= k < |w.txs| ==> w.txs[k].batch != p.phase.batch)
              && p.amount <= WithdrawLimit(w, p.kind, p.owner)
              && p.amount <= Balance(w.journal, Source(p.kind, p.owner))
              && w'.journal == Post(w.journal, SubmitOf(t.value)) && w'.txs == w.txs + [t.value]
              && (w'.items == w.items || w'.items == w.items + [Item(p.phase.batch, p.owner, p.amount, ItemSubmitted)])
              && (w'.procs == map[] || w'.procs == w.procs[pid := p.(phase := Sending(p.phase.batch))])
              && (w'.items == w.items ==> w'.procs == map[])
  {
    hide WithdrawLimit, Balance, Post;
    t := None;
    if pid in w.procs && w.procs[pid].phase.Preparing? && TxAt(w, w.procs[pid].phase.batch) < 0 {
      var p := w.procs[pid];
      if ok && p.amount <= WithdrawLimit(w, p.kind, p.owner) && p.amount <= Balance(w.journal, Source(p.kind, p.owner)) {
        t := Some(Tx(p.kind, p.phase.batch, p.owner, p.amount, crash.Survives?, Open));
      }
    }
  }

  lemma {:induction false} PayoutsPrepared(w: World, pid: nat, ok: bool, crash: SubmitCrash)
    requires Payouts(w)
    ensures Payouts(Prepared(w, pid, ok, crash))
  {
    hide Prepared, WithdrawLimit, Balance;
    var w' := Prepared(w, pid, ok, crash);
    var t := PreparedCases(w, pid, ok, crash);
    if t.None? {
      PayoutsKept(w, w');
    } else {
      assert ProcLinked(w, w.procs[pid]);
      SubmitPost(w.journal, w.txs, t.value);
      RecordedWithTx(w, w', t.value);
    }
  }

  lemma {:induction false} RecordedWithTx(w: World, w': World, t: Tx)
    requires Payouts(w) && Linked(w'.journal, w'.txs) && Grew(w.journal, w'.journal) && w'.txs == w.txs + [t]
    requires w'.items == w.items || w'.items == w.items + [Item(t.batch, t.owner, t.amount, ItemSubmitted)]
    requires forall q :: q in w'.procs ==>
               (q in w.procs && w'.procs[q] == w.procs[q])
               || (0 < t.amount && w'.procs[q] == Proc(t.kind, t.owner, t.amount, Sending(t.batch)))
    ensures Payouts(w')
  {
    assert SameMoney(w'.txs[|w.txs|], t.batch, t.owner, t.amount);
    forall i {:trigger w'.items[i]} | 0 <= i < |w'.items| ensures ItemLinked(w', w'.items[i]) {
      if i < |w.items| {
        ItemKept(w, w', w.items[i]);
      }
    }
    forall q {:trigger w'.procs[q]} | q in w'.procs ensures ProcLinked(w', w'.procs[q]) {
      if q in w.procs && w'.procs[q] == w.procs[q] {
        ProcKept(w, w', w.procs[q]);
      }
    }
  }

  /** A definite answer, once it is known which transaction it is about. */
  lemma {:induction false} PayoutsSettle(w: World, k: nat, crash: bool)
    requires Payouts(w) && k < |w.txs| && w.txs[k].fate == Applied
    ensures Payouts(Settle(w, w.txs[k].batch, w.txs[k].owner, w.txs[k].amount, crash))
  {
    var t := w.txs[k];
    var w' := Settle(w, t.batch, t.owner, t.amount, crash);
    SettlePost(w.journal, w.txs, k);
    PostHasId(w.journal, Settled(t.batch, t.owner, t.amount));
    forall i {:trigger w'.items[i]} | 0 <= i < |w'.items| ensures ItemLinked(w', w'.items[i]) {
      MarkedItem(w, w', i, k);
    }
    forall q {:trigger w'.procs[q]} | q in w'.procs ensures ProcLinked(w', w'.procs[q]) {
      ProcKept(w, w', w.procs[q]);
    }
  }

  /** Marking a batch touches only records of its own transaction. */
  lemma {:induction false} MarkedItem(w: World, w': World, i: nat, k: nat)
    requires Payouts(w) && k < |w.txs| && i < |w.items| && |w'.items| == |w.items|
    requires w'.txs == w.txs && Grew(w.journal, w'.journal)
    requires w'.items[i] == w.items[i]
             || (w.items[i].batch == w.txs[k].batch
                 && w'.items[i] == w.items[i].(state := w'.items[i].state)
                 && (w'.items[i].state == ItemSettled ==> HasId(w'.journal, SettleId(w.txs[k].batch, w.txs[k].owner)))
                 && (w'.items[i].state == ItemFailed ==> HasId(w'.journal, ReversalId(Payout(w.txs[k].batch, w.txs[k].owner)))))
    ensures ItemLinked(w', w'.items[i])
  {
    ItemKept(w, w', w.items[i]);
    var m :| 0 <= m < |w.txs| && SameMoney(w.txs[m], w.items[i].batch, w.items[i].owner, w.items[i].amount);
  }

  lemma {:induction false} PayoutsRefund(w: World, k: nat, crash: bool)
    requires Payouts(w) && k < |w.txs| && w.txs[k].fate in {Failed, Dead}
    ensures Payouts(Refund(w, w.txs[k].batch, w.txs[k].owner, crash))
  {
    var t := w.txs[k];
    var w' := Refund(w, t.batch, t.owner, crash);
    RefundPost(w.journal, w.txs, k);
    RefundedItems(w, k, crash);
    hide ReversalOf, SoundJournal, PayoutShape, HasId, ItemLinked, ItemsMarked;
    forall q {:trigger w'.procs[q]} | q in w'.procs ensures ProcLinked(w', w'.procs[q]) {
      ProcKept(w, w', w.procs[q]);
    }
  }

  lemma {:induction false} RefundedItems(w: World, k: nat, crash: bool)
    requires Payouts(w) && k < |w.txs| && w.txs[k].fate in {Failed, Dead}
    ensures var w' := Refund(w, w.txs[k].batch, w.txs[k].owner, crash);
            forall i {:trigger w'.items[i]} :: 0 <= i < |w'.items| ==> ItemLinked(w', w'.items[i])
  {
    var t := w.txs[k];
    var w' := Refund(w, t.batch, t.owner, crash);
    PostHasId(w.journal, ReversalOf(w.journal, t.batch, t.owner));
    hide ReversalOf, SoundJournal, PayoutShape, HasId, ItemLinked, ProcLinked, Linked;
    forall i {:trigger w'.items[i]} | 0 <= i < |w'.items| ensures ItemLinked(w', w'.items[i]) {
      MarkedItem(w, w', i, k);
    }
  }

  lemma {:induction false} ProcEnds(w: World, pid: nat)
    requires Payouts(w)
    ensures Payouts(EndProc(w, pid))
  {
    PayoutsKept(w, EndProc(w, pid));
  }

  /** A withdrawal asks again later, or gives up. */
  lemma {:induction false} PayoutsPoll(w: World, pid: nat)
    requires Payouts(w) && pid in w.procs && w.procs[pid].phase.Asking?
    ensures Payouts(Poll(w, pid, w.procs[pid])) && Payouts(EndProc(w, pid))
  {
    var p := w.procs[pid];
    ProcEnds(w, pid);
    if p.phase.left > 0 {
      var next := p.(phase := Asking(p.phase.batch, p.phase.left - CONFIRM_POLL_MS, false));
      assert ProcLinked(w, p);
      ProcMoves(w, w.(procs := w.procs[pid := next]), pid, next);
    }
  }

  /** It asks about a transaction of its own owner and amount. */
  lemma {:induction false} AskedTx(w: World, pid: nat)
    requires Payouts(w) && pid in w.procs && w.procs[pid].phase.Asking?
    ensures var q := w.procs[pid];
            var k := TxAt(w, q.phase.batch);
            0 <= k && SameMoney(w.txs[k], q.phase.batch, q.owner, q.amount)
  {
    var q := w.procs[pid];
    assert ProcLinked(w, q);
    var m :| 0 <= m < |w.txs| && SameMoney(w.txs[m], q.phase.batch, q.owner, q.amount);
  }

  lemma {:induction false} PayoutsAnswered(w: World, pid: nat, a: Answer, crash: bool)
    requires Payouts(w)
    ensures Payouts(Answered(w, pid, a, crash))
  {
    hide Settle, Refund, Poll, EndProc;
    if pid in w.procs && w.procs[pid].phase.Asking? {
      var p := w.procs[pid];
      var k := TxAt(w, p.phase.batch);
      AskedTx(w, pid);
      PayoutsPoll(w, pid);
      hide Payouts, TxAt, ProcLinked;
      if Truthful(w.txs[k].fate, a) {
        match a {
          case SaysSettled =>
            PayoutsSettle(w, k, crash);
            ProcEnds(Settle(w, p.phase.batch, p.owner, p.amount, crash), pid);
          case SaysFailed =>
            PayoutsRefund(w, k, crash);
            ProcEnds(Refund(w, p.phase.batch, p.owner, crash), pid);
          case SaysExpired =>
            PayoutsRefund(w, k, crash);
            ProcEnds(Refund(w, p.phase.batch, p.owner, crash), pid);
          case _ =>
        }
      }
    }
  }


  lemma {:induction false} PayoutsResume(w: World, i: nat, a: Answer, crash: bool)
    requires Payouts(w)
    ensures Payouts(Resume(w, i, a, crash))
  {
    hide Settle, Refund;
    if i < |w.items| && w.items[i].state == ItemSubmitted {
      var it := w.items[i];
      var k := TxAt(w, it.batch);
      assert ItemLinked(w, it);
      if k >= 0 && Truthful(w.txs[k].fate, a) {
        var m :| 0 <= m < |w.txs| && SameMoney(w.txs[m], it.batch, it.owner, it.amount);
        match a {
          case SaysSettled => PayoutsSettle(w, k, crash);
          case SaysFailed => PayoutsRefund(w, k, crash);
          case SaysExpired => PayoutsRefund(w, k, crash);
          case _ =>
        }
      }
    }
  }

  lemma {:induction false} PayoutsChain(w: World, k: nat, fate: Fate)
    requires Payouts(w)
    ensures Payouts(ChainDecides(w, k, fate))
  {
    if ChainDecides(w, k, fate) != w {
      DecidedLinks(w.journal, w.txs, k, fate);
      PayoutsKept(w, ChainDecides(w, k, fate));
    }
  }
}
