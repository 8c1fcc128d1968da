/** No double payment, and exactly which payouts a crash can strand. */
module WorldPayments {
  import opened Common
  import opened Sums
  import opened Ledger
  import opened LedgerFacts
  import opened Serving
  import opened World
  import opened PayoutLinks
  import opened WorldPayouts
  import opened WorldAudit

  predicate IsSettled(j: seq<Posting>, t: Tx) { HasId(j, SettleId(t.batch, t.owner)) }
  predicate IsReversed(j: seq<Posting>, t: Tx) { HasId(j, ReversalId(Payout(t.batch, t.owner))) }

  function PaidValue(t: Tx, owner: Id): int { if t.owner == owner && t.fate == Applied then t.amount else 0 }
  function PaidWeight(owner: Id): Tx -> int { (t: Tx) => PaidValue(t, owner) }

  /** What the chain really paid to an id. */
  function ChainPaid(w: World, owner: Id): int { Sum(w.txs, PaidWeight(owner)) }

  function DebitValue(p: Posting, j: seq<Posting>, owner: Id): int
  {
    if p.Submitted? && p.owner == owner && !HasId(j, ReversalId(Payout(p.batch, owner))) then p.amount else 0
  }
  function DebitWeight(j: seq<Posting>, owner: Id): Posting -> int { (p: Posting) => DebitValue(p, j, owner) }

  /** What the ledger took from accounts for payouts to an id and did not give back. */
  function Debited(j: seq<Posting>, owner: Id): int { Sum(j, DebitWeight(j, owner)) }

  lemma {:induction false} UniqueSubmits(txs: seq<Tx>)
    requires UniqueTxs(txs)
    ensures forall i, k :: 0 <= i < k < |txs| ==> SubmitOf(txs[i]) != SubmitOf(txs[k])
  {}

  /**
    No double payment: in every run, a payout is never both settled and reversed; settled means the
    chain applied it, reversed means the chain did not; and the chain never paid an id more than the
    ledger took for it.
    */
  lemma {:induction false} NoDoublePayment(cfg: Config, events: seq<Event>, owner: Id)
    ensures var w := Run(cfg, Empty(), events);
            && (forall k :: 0 <= k < |w.txs| ==>
                  && !(IsSettled(w.journal, w.txs[k]) && IsReversed(w.journal, w.txs[k]))
                  && (IsSettled(w.journal, w.txs[k]) ==> w.txs[k].fate == Applied)
                  && (IsReversed(w.journal, w.txs[k]) ==> w.txs[k].fate in {Failed, Dead}))
            && ChainPaid(w, owner) <= Debited(w.journal, owner)
  {
    Reachable(cfg, events);
    var w := Run(cfg, Empty(), events);
    hide Run;
    forall k | 0 <= k < |w.txs|
      ensures !(IsSettled(w.journal, w.txs[k]) && IsReversed(w.journal, w.txs[k]))
      ensures IsSettled(w.journal, w.txs[k]) ==> w.txs[k].fate == Applied
      ensures IsReversed(w.journal, w.txs[k]) ==> w.txs[k].fate in {Failed, Dead} {
      FateOfAnswer(w.journal, w.txs, k);
    }
    forall k {:trigger w.txs[k]} | 0 <= k < |w.txs|
      ensures SubmitOf(w.txs[k]) in w.journal
      ensures PaidWeight(owner)(w.txs[k]) <= DebitWeight(w.journal, owner)(SubmitOf(w.txs[k])) {
      assert TxLinked(w.journal, w.txs[k]);
      FateOfAnswer(w.journal, w.txs, k);
    }
    forall i | 0 <= i < |w.journal| ensures 0 <= DebitWeight(w.journal, owner)(w.journal[i]) {
      assert SoundPosting(w.journal[i]);
    }
    UniqueSubmits(w.txs);
    Covered(w.txs, w.journal, PaidWeight(owner), DebitWeight(w.journal, owner), (t: Tx) => SubmitOf(t));
  }

  /* ---------- history only grows ---------- */

  /** Postings and transactions survive every step; a decided fate stays decided. */
  ghost predicate Continues(w: World, w': World)
  {
    && TxsPersist(w.txs, w'.txs)
    && (forall id :: HasId(w.journal, id) ==> HasId(w'.journal, id))
  }

  lemma {:induction false} StepContinues(cfg: Config, w: World, e: Event)
    requires Good(w)
    ensures Continues(w, Step(cfg, w, e))
  {
    var p := StepWrites(cfg, w, e);
    StepTxs(cfg, w, e);
    hide Step;
    forall id | HasId(w.journal, id) ensures HasId(Step(cfg, w, e).journal, id) {
      if p.Some? {
        PostKeepsIds(w.journal, p.value, id);
      }
    }
  }

  lemma {:induction false} StepTxs(cfg: Config, w: World, e: Event)
    ensures TxsPersist(w.txs, Step(cfg, w, e).txs)
  {
    hide AdStep, PayStep, MarketStep;
    if e.Pay? {
      hide Begin, Validated, Prepared, Sent, Answered, Resume, Deposit;
      PayTxs(cfg, w, e.pay);
    }
  }

  lemma {:induction false} PayTxs(cfg: Config, w: World, e: PayEvent)
    ensures TxsPersist(w.txs, PayStep(cfg, w, e).txs)
  {
    hide Begin, Validated, Prepared, Sent, Answered, Resume, Deposit;
    if e.DoPrepared? {
      var t := PreparedCases(w, e.pid, e.ok, e.submitCrash);
    }
  }

  lemma {:induction false} RunContinues(cfg: Config, w: World, events: seq<Event>)
    requires Good(w)
    ensures Good(Run(cfg, w, events)) && Continues(w, Run(cfg, w, events))
  {
    hide Step;
    if |events| > 0 {
      var front := events[..|events| - 1];
      RunContinues(cfg, w, front);
      GoodStep(cfg, Run(cfg, w, front), events[|events| - 1]);
      StepContinues(cfg, Run(cfg, w, front), events[|events| - 1]);
    }
  }

  /** Once money was given back, no later run of the system lets the chain apply that payout. */
  lemma {:induction false} ReversedIsNeverApplied(cfg: Config, before: seq<Event>, after: seq<Event>, k: nat)
    requires var w := Run(cfg, Empty(), before); k < |w.txs| && IsReversed(w.journal, w.txs[k])
    ensures var w' := Run(cfg, Empty(), before + after);
            k < |w'.txs| && w'.txs[k].fate != Applied && !IsSettled(w'.journal, w'.txs[k])
  {
    var w := Run(cfg, Empty(), before);
    Reachable(cfg, before);
    RunSplits(cfg, Empty(), before, after);
    RunContinues(cfg, w, after);
    var w' := Run(cfg, w, after);
    hide Run;
    assert SameMoney(w'.txs[k], w.txs[k].batch, w.txs[k].owner, w.txs[k].amount);
    FateOfAnswer(w'.journal, w'.txs, k);
  }

  /* ---------- stranded payouts ---------- */

  predicate Recorded(w: World, batch: Id) { exists i :: 0 <= i < |w.items| && w.items[i].batch == batch }

  predicate IsAnswered(w: World, t: Tx) { IsSettled(w.journal, t) || IsReversed(w.journal, t) }

  /** A running withdrawal past its submit has a record. */
  ghost predicate ProcsRecorded(w: World)
  {
    forall q {:trigger w.procs[q]} :: q in w.procs && Signed(w.procs[q].phase) ==> Recorded(w, w.procs[q].phase.batch)
  }

  /** Records are kept in place; only their state changes. */
  ghost predicate ItemsPersist(a: seq<Item>, b: seq<Item>)
  {
    |a| <= |b| && forall i :: 0 <= i < |a| ==> b[i].batch == a[i].batch && b[i].owner == a[i].owner && b[i].amount == a[i].amount
  }

  /** How a payment step touches records and processes. */
  lemma {:induction false} PayRecords(cfg: Config, w: World, e: PayEvent)
    requires ProcsRecorded(w)
    ensures var w' := PayStep(cfg, w, e);
            && ItemsPersist(w.items, w'.items)
            && (|w'.items| > |w.items| ==>
                  |w'.items| == |w.items| + 1 && forall k :: 0 <= k < |w.txs| ==> w.txs[k].batch != w'.items[|w.items|].batch)
    ensures ProcsRecorded(PayStep(cfg, w, e))
  {
    hide Begin, Validated, Prepared, Sent, Answered, Resume, ChainDecides;
    var w' := PayStep(cfg, w, e);
    match e {
      case DoPrepared(pid, ok, crash) =>
        PreparedRecords(w, pid, ok, crash);
      case DoAnswered(pid, a, crash) => AnsweredRecords(w, pid, a, crash);
      case DoResume(k, a, crash) => ResumeRecords(w, k, a, crash);
      case DoBegin(pid, kind, owner, amount) => BeginRecords(w, pid, kind, owner, amount);
      case DoValidated(pid, accepted, batch) => ValidatedRecords(w, pid, accepted, batch);
      case DoSent(pid) => SentRecords(cfg, w, pid);
      case DoChain(k, fate) =>
      case DoDeposit(_, _, _) =>
    }
  }

  lemma {:induction false} PreparedRecords(w: World, pid: nat, ok: bool, crash: SubmitCrash)
    requires ProcsRecorded(w)
    ensures var w' := Prepared(w, pid, ok, crash);
            && ItemsPersist(w.items, w'.items) && ProcsRecorded(w')
            && (|w'.items| > |w.items| ==>
                  |w'.items| == |w.items| + 1 && forall k :: 0 <= k < |w.txs| ==> w.txs[k].batch != w'.items[|w.items|].batch)
  {
    var t := PreparedCases(w, pid, ok, crash);
    var w' := Prepared(w, pid, ok, crash);
    hide Prepared, WithdrawLimit, Balance, Post;
    forall q {:trigger w'.procs[q]} | q in w'.procs && Signed(w'.procs[q].phase)
      ensures Recorded(w', w'.procs[q].phase.batch) {
      if q in w.procs && w'.procs[q] == w.procs[q] {
        assert Recorded(w, w.procs[q].phase.batch);
        var i :| 0 <= i < |w.items| && w.items[i].batch == w'.procs[q].phase.batch;
        assert w'.items[i].batch == w'.procs[q].phase.batch;
      } else {
        assert w'.items[|w.items|].batch == w'.procs[q].phase.batch;
      }
    }
  }

  lemma {:induction false} BeginRecords(w: World, pid: nat, kind: Kind, owner: Id, amount: int)
    requires ProcsRecorded(w)
    ensures ItemsPersist(w.items, Begin(w, pid, kind, owner, amount).items) && ProcsRecorded(Begin(w, pid, kind, owner, amount))
  {
    hide WithdrawLimit;
  }

  lemma {:induction false} ValidatedRecords(w: World, pid: nat, accepted: bool, batch: Id)
    requires ProcsRecorded(w)
    ensures ItemsPersist(w.items, Validated(w, pid, accepted, batch).items) && ProcsRecorded(Validated(w, pid, accepted, batch))
  {
  }

  lemma {:induction false} SentRecords(cfg: Config, w: World, pid: nat)
    requires ProcsRecorded(w)
    ensures ItemsPersist(w.items, Sent(cfg, w, pid).items) && ProcsRecorded(Sent(cfg, w, pid))
  {
  }

  /** Settling and refunding change states of records, and at most lose the processes. */
  lemma {:induction false} SettleRecords(w: World, b: Id, o: Id, amount: int, crash: bool)
    ensures var w' := Settle(w, b, o, amount, crash);
            ItemsPersist(w.items, w'.items) && |w'.items| == |w.items| && ProcsLost(w, w')
    ensures var w' := Refund(w, b, o, crash);
            ItemsPersist(w.items, w'.items) && |w'.items| == |w.items| && ProcsLost(w, w')
  {
    hide Post, ReversalOf;
  }

  lemma {:induction false} AnsweredRecords(w: World, pid: nat, a: Answer, crash: bool)
    requires ProcsRecorded(w)
    ensures ItemsPersist(w.items, Answered(w, pid, a, crash).items) && ProcsRecorded(Answered(w, pid, a, crash))
    ensures |Answered(w, pid, a, crash).items| == |w.items|
  {
    AnsweredItems(w, pid, a, crash);
    AnsweredProcs(w, pid, a, crash);
    hide Answered;
  }

  /** Everything an answer can lead to: nothing, giving up, asking again, or a decision that ends the withdrawal. */
  ghost predicate AnswerLeads(w: World, w': World, pid: nat, p: Proc, crash: bool)
    requires Signed(p.phase)
  {
    || w' == w
    || w' == EndProc(w, pid)
    || (p.phase.Asking?
        && w' == w.(procs := w.procs[pid := p.(phase := Asking(p.phase.batch, p.phase.left - CONFIRM_POLL_MS, false))]))
    || w' == EndProc(Settle(w, p.phase.batch, p.owner, p.amount, crash), pid)
    || w' == EndProc(Refund(w, p.phase.batch, p.owner, crash), pid)
  }

  lemma {:induction false} AnsweredLeads(w: World, pid: nat, a: Answer, crash: bool)
    ensures Answered(w, pid, a, crash) == w
            || (pid in w.procs && Signed(w.procs[pid].phase) && AnswerLeads(w, Answered(w, pid, a, crash), pid, w.procs[pid], crash))
  {
    hide Settle, Refund, Truthful, TxAt, EndProc;
  }

  lemma {:induction false} AnsweredItems(w: World, pid: nat, a: Answer, crash: bool)
    ensures var w' := Answered(w, pid, a, crash); ItemsPersist(w.items, w'.items) && |w'.items| == |w.items|
  {
    AnsweredLeads(w, pid, a, crash);
    hide Answered;
    if pid in w.procs && Signed(w.procs[pid].phase) {
      var p := w.procs[pid];
      SettleRecords(w, p.phase.batch, p.owner, p.amount, crash);
    }
    hide Settle, Refund;
  }

  lemma {:induction false} AnsweredProcs(w: World, pid: nat, a: Answer, crash: bool)
    ensures var w' := Answered(w, pid, a, crash);
            || w'.procs in {w.procs, map[], w.procs - {pid}, map[] - {pid}}
            || (&& pid in w.procs && pid in w'.procs && w'.procs == w.procs[pid := w'.procs[pid]]
                && Signed(w.procs[pid].phase) && Signed(w'.procs[pid].phase)
                && w'.procs[pid].phase.batch == w.procs[pid].phase.batch)
  {
    AnsweredLeads(w, pid, a, crash);
    hide Answered;
    if pid in w.procs && Signed(w.procs[pid].phase) {
      var p := w.procs[pid];
      SettleRecords(w, p.phase.batch, p.owner, p.amount, crash);
    }
    hide Settle, Refund, ItemsPersist;
  }

  lemma {:induction false} ResumeRecords(w: World, i: nat, a: Answer, crash: bool)
    requires ProcsRecorded(w)
    ensures ItemsPersist(w.items, Resume(w, i, a, crash).items) && ProcsRecorded(Resume(w, i, a, crash))
    ensures |Resume(w, i, a, crash).items| == |w.items|
  {
    if i < |w.items| {
      SettleRecords(w, w.items[i].batch, w.items[i].owner, w.items[i].amount, crash);
    }
    hide Settle, Refund, Truthful;
  }

  lemma {:induction false} AdRecords(cfg: Config, w: World, e: AdEvent)
    requires ProcsRecorded(w)
    ensures ProcsRecorded(AdStep(cfg, w, e))
  {
    hide Serve, Ingest, Verify, Vacuum;
    match e {
      case DoServe(p, n, coin, crash) => ProcsOfServe(cfg, w, p, n, coin, crash);
      case DoIngest(p, ev, crash) => ProcsOfIngest(cfg, w, p, ev, crash);
      case DoVacuum(before) => ProcsOfVacuum(w, before);
      case DoVerify(k, o, crash) => ProcsOfVerify(cfg, w, k, o, crash);
      case DoRestart =>
    }
  }

  lemma {:induction false} ProcsOfVerify(cfg: Config, w: World, k: nat, o: Oracle, crash: bool)
    ensures ProcsLost(w, Verify(cfg, w, k, o, crash))
  {
    hide Evaluate, Post;
  }

  /** An answer written to the ledger is about a recorded batch. */
  lemma {:induction false} AnswersAreRecorded(cfg: Config, w: World, e: Event, t: Tx)
    requires Good(w) && ProcsRecorded(w)
    ensures IsAnswered(Step(cfg, w, e), t) ==> IsAnswered(w, t) || Recorded(w, t.batch)
  {
    hide AdStep, PayStep, MarketStep, IsSettled, IsReversed;
    match e {
      case Ad(a) => AdAnswersNothing(cfg, w, a, t);
      case Pay(q) => PayAnswersRecorded(cfg, w, q, t);
      case _ => SameAnswers(w, Step(cfg, w, e), t);
    }
  }

  lemma {:induction false} SameAnswers(w: World, w': World, t: Tx)
    requires w'.journal == w.journal
    ensures IsAnswered(w', t) <==> IsAnswered(w, t)
  {}

  lemma {:induction false} AdAnswersNothing(cfg: Config, w: World, e: AdEvent, t: Tx)
    ensures IsAnswered(AdStep(cfg, w, e), t) ==> IsAnswered(w, t)
  {
    var p := AdWrites(cfg, w, e);
    hide AdStep;
    if p.Some? {
      OtherIds(w.journal, p.value, t);
    }
  }

  lemma {:induction false} PayAnswersRecorded(cfg: Config, w: World, e: PayEvent, t: Tx)
    requires Good(w) && ProcsRecorded(w)
    ensures IsAnswered(PayStep(cfg, w, e), t) ==> IsAnswered(w, t) || Recorded(w, t.batch)
  {
    hide Begin, Validated, Prepared, Sent, Answered, Resume, ChainDecides;
    match e {
      case DoAnswered(pid, a, crash) => AnswersOwnBatch(w, pid, a, crash, t);
      case DoResume(k, a, crash) => ResumesOwnBatch(w, k, a, crash, t);
      case DoPrepared(pid, ok, crash) =>
        var s := PreparedCases(w, pid, ok, crash);
        if s.Some? {
          OtherIds(w.journal, SubmitOf(s.value), t);
        }
      case DoDeposit(a, amount, topup) => OtherIds(w.journal, Topup(topup, a, amount), t);
      case _ =>
    }
  }

  lemma {:induction false} OtherIds(j: seq<Posting>, p: Posting, t: Tx)
    ensures HasId(Post(j, p), SettleId(t.batch, t.owner)) ==>
              HasId(j, SettleId(t.batch, t.owner)) || IdOf(p) == SettleId(t.batch, t.owner)
    ensures HasId(Post(j, p), ReversalId(Payout(t.batch, t.owner))) ==>
              HasId(j, ReversalId(Payout(t.batch, t.owner))) || IdOf(p) == ReversalId(Payout(t.batch, t.owner))
  {
    HasIdGrows(j, p, SettleId(t.batch, t.owner));
    HasIdGrows(j, p, ReversalId(Payout(t.batch, t.owner)));
  }

  lemma {:induction false} SettlesOwnBatch(w: World, b: Id, o: Id, amount: int, crash: bool, t: Tx)
    ensures IsAnswered(Settle(w, b, o, amount, crash), t) ==> IsAnswered(w, t) || t.batch == b
    ensures IsAnswered(Refund(w, b, o, crash), t) ==> IsAnswered(w, t) || t.batch == b
  {
    OtherIds(w.journal, Settled(b, o, amount), t);
    OtherIds(w.journal, ReversalOf(w.journal, b, o), t);
    hide Post, ByRef;
  }

  lemma {:induction false} AnswersOwnBatch(w: World, pid: nat, a: Answer, crash: bool, t: Tx)
    requires ProcsRecorded(w)
    ensures IsAnswered(Answered(w, pid, a, crash), t) ==> IsAnswered(w, t) || Recorded(w, t.batch)
  {
    hide Settle, Refund, IsSettled, IsReversed;
    if pid in w.procs && w.procs[pid].phase.Asking? {
      var p := w.procs[pid];
      assert Recorded(w, p.phase.batch);
      SettlesOwnBatch(w, p.phase.batch, p.owner, p.amount, crash, t);
      hide Recorded;
    }
  }

  lemma {:induction false} ResumesOwnBatch(w: World, i: nat, a: Answer, crash: bool, t: Tx)
    ensures IsAnswered(Resume(w, i, a, crash), t) ==> IsAnswered(w, t) || Recorded(w, t.batch)
  {
    hide Settle, Refund, IsSettled, IsReversed;
    if i < |w.items| {
      var it := w.items[i];
      assert Recorded(w, it.batch);
      SettlesOwnBatch(w, it.batch, it.owner, it.amount, crash, t);
    }
  }

  /** A payout without a record gets no record and no answer in one step. */
  lemma {:induction false} UnrecordedStep(cfg: Config, w: World, e: Event, k: nat)
    requires Good(w) && ProcsRecorded(w) && k < |w.txs| && !Recorded(w, w.txs[k].batch) && !IsAnswered(w, w.txs[k])
    ensures var w' := Step(cfg, w, e);
            && ProcsRecorded(w') && k < |w'.txs| && w'.txs[k].batch == w.txs[k].batch && w'.txs[k].owner == w.txs[k].owner
            && !Recorded(w', w.txs[k].batch) && !IsAnswered(w', w'.txs[k])
  {
    var w' := Step(cfg, w, e);
    StepTxs(cfg, w, e);
    RecordsStep(cfg, w, e);
    AnswersAreRecorded(cfg, w, e, w.txs[k]);
    hide *;
    StaysUnrecorded(w, w', k);
  }

  /** Records that persist, and a new one for a new batch at most, leave a payout without a record. */
  lemma {:induction false} StaysUnrecorded(w: World, w': World, k: nat)
    requires TxsPersist(w.txs, w'.txs) && ItemsPersist(w.items, w'.items) && k < |w.txs|
    requires |w'.items| > |w.items| ==>
               |w'.items| == |w.items| + 1 && forall i :: 0 <= i < |w.txs| ==> w.txs[i].batch != w'.items[|w.items|].batch
    requires !Recorded(w, w.txs[k].batch) && !IsAnswered(w', w.txs[k])
    ensures k < |w'.txs| && w'.txs[k].batch == w.txs[k].batch && w'.txs[k].owner == w.txs[k].owner
    ensures !Recorded(w', w.txs[k].batch) && !IsAnswered(w', w'.txs[k])
  {
    assert SameMoney(w'.txs[k], w.txs[k].batch, w.txs[k].owner, w.txs[k].amount);
    forall i | 0 <= i < |w'.items| ensures w'.items[i].batch != w.txs[k].batch {
      assert i < |w.items| ==> w'.items[i].batch == w.items[i].batch;
    }
  }

  lemma {:induction false} RecordsStep(cfg: Config, w: World, e: Event)
    requires ProcsRecorded(w)
    ensures var w' := Step(cfg, w, e);
            && ItemsPersist(w.items, w'.items)
            && (|w'.items| > |w.items| ==>
                  |w'.items| == |w.items| + 1 && forall k :: 0 <= k < |w.txs| ==> w.txs[k].batch != w'.items[|w.items|].batch)
    ensures ProcsRecorded(Step(cfg, w, e))
  {
    hide AdStep, PayStep, MarketStep;
    match e {
      case Ad(a) => AdRecords(cfg, w, a);
      case Pay(p) => PayRecords(cfg, w, p);
      case _ =>
    }
  }

  lemma {:induction false} UnrecordedRun(cfg: Config, w: World, events: seq<Event>, k: nat)
    requires Good(w) && ProcsRecorded(w) && k < |w.txs| && !Recorded(w, w.txs[k].batch) && !IsAnswered(w, w.txs[k])
    ensures var w' := Run(cfg, w, events);
            && Good(w') && ProcsRecorded(w') && k < |w'.txs| && w'.txs[k].batch == w.txs[k].batch
            && !Recorded(w', w'.txs[k].batch) && !IsAnswered(w', w'.txs[k])
  {
    hide Step;
    if |events| > 0 {
      var front := events[..|events| - 1];
      UnrecordedRun(cfg, w, front, k);
      GoodStep(cfg, Run(cfg, w, front), events[|events| - 1]);
      UnrecordedStep(cfg, Run(cfg, w, front), events[|events| - 1], k);
    }
  }

  lemma {:induction false} ReachableRecords(cfg: Config, events: seq<Event>)
    ensures ProcsRecorded(Run(cfg, Empty(), events))
  {
    hide Step;
    if |events| > 0 {
      ReachableRecords(cfg, events[..|events| - 1]);
      RecordsStep(cfg, Run(cfg, Empty(), events[..|events| - 1]), events[|events| - 1]);
    }
  }

  lemma {:induction false} SettleAnswers(w: World, k: nat)
    requires Linked(w.journal, w.txs) && k < |w.txs|
    ensures var t := w.txs[k]; IsAnswered(Settle(w, t.batch, t.owner, t.amount, false), t)
    ensures var t := w.txs[k]; t.fate in {Failed, Dead} ==> IsAnswered(Refund(w, t.batch, t.owner, false), t)
  {
    var t := w.txs[k];
    PostHasId(w.journal, Settled(t.batch, t.owner, t.amount));
    PostHasId(w.journal, ReversalOf(w.journal, t.batch, t.owner));
    if t.fate in {Failed, Dead} {
      RefundPost(w.journal, w.txs, k);
    }
    assert IdOf(ReversalOf(w.journal, t.batch, t.owner)) == ReversalId(Payout(t.batch, t.owner));
    hide Post, ByRef, Linked, Expand, HasId, SoundJournal, PayoutShape, ReversalOf, ItemsMarked;
  }

  /** Asking about a decided transaction writes the answer. */
  lemma {:induction false} ResumeWritesAnswer(w: World, k: nat, i: nat, a: Answer)
    requires Linked(w.journal, w.txs) && k < |w.txs| && i < |w.items|
    requires w.items[i].state == ItemSubmitted && SameMoney(w.txs[k], w.items[i].batch, w.items[i].owner, w.items[i].amount)
    requires Truthful(w.txs[k].fate, a) && a in {SaysSettled, SaysFailed, SaysExpired}
    ensures IsAnswered(Resume(w, i, a, false), w.txs[k])
  {
    SettleAnswers(w, k);
    hide Settle, Refund, IsAnswered, Linked;
  }

  /** A record that is still open can be answered by the recovery loop, once the chain has decided. */
  lemma {:induction false} RecoveryAnswers(cfg: Config, w: World, k: nat, i: nat) returns (events: seq<Event>)
    requires Good(w) && k < |w.txs| && i < |w.items| && w.items[i].batch == w.txs[k].batch && !IsAnswered(w, w.txs[k])
    ensures IsAnswered(Run(cfg, w, events), w.txs[k])
  {
    var t := w.txs[k];
    assert ItemLinked(w, w.items[i]);
    var m :| 0 <= m < |w.txs| && SameMoney(w.txs[m], w.items[i].batch, w.items[i].owner, w.items[i].amount);
    hide ItemLinked;
    if t.fate == Open {
      ExpiringAnswers(cfg, w, k, i);
      events := [Pay(DoChain(k, Dead)), Pay(DoResume(i, SaysExpired, false))];
    } else {
      var a := match t.fate case Applied => SaysSettled case Failed => SaysFailed case _ => SaysExpired;
      ResumeWritesAnswer(w, k, i, a);
      RunOne(cfg, w, Pay(DoResume(i, a, false)));
      events := [Pay(DoResume(i, a, false))];
    }
  }

  /** A payout the chain has not decided can expire, and is then answered. */
  lemma {:induction false} ExpiringAnswers(cfg: Config, w: World, k: nat, i: nat)
    requires Good(w) && k < |w.txs| && i < |w.items| && w.items[i].batch == w.txs[k].batch && !IsAnswered(w, w.txs[k])
    requires w.txs[k].fate == Open
    ensures IsAnswered(Run(cfg, w, [Pay(DoChain(k, Dead)), Pay(DoResume(i, SaysExpired, false))]), w.txs[k])
  {
    var decide := Pay(DoChain(k, Dead));
    var w1 := Step(cfg, w, decide);
    assert w1 == w.(txs := w.txs[k := w.txs[k].(fate := Dead)]);
    GoodStep(cfg, w, decide);
    hide Step, Good, Resume;
    ResumeWritesAnswer(w1, k, i, SaysExpired);
    RunTwo(cfg, w, decide, Pay(DoResume(i, SaysExpired, false)));
  }

  lemma {:induction false} RunOne(cfg: Config, w: World, e: Event)
    ensures Run(cfg, w, [e]) == Step(cfg, w, e)
    ensures e.Pay? && e.pay.DoResume? ==> Run(cfg, w, [e]) == Resume(w, e.pay.k, e.pay.answer, e.pay.crash)
  {
    hide Resume, AdStep, MarketStep;
    assert [e][..0] == [];
  }

  lemma {:induction false} RunTwo(cfg: Config, w: World, d: Event, e: Event)
    ensures Run(cfg, w, [d, e]) == Step(cfg, Step(cfg, w, d), e)
    ensures e.Pay? && e.pay.DoResume? ==>
              Run(cfg, w, [d, e]) == Resume(Step(cfg, w, d), e.pay.k, e.pay.answer, e.pay.crash)
  {
    RunOne(cfg, w, d);
    RunOne(cfg, Step(cfg, w, d), e);
    RunSplits(cfg, w, [d], [e]);
    assert [d] + [e] == [d, e];
    hide Step, Run;
  }

  /**
    Exactly the payouts whose record was written can still be resolved: a crash between the ledger
    entry and the record leaves the money in flight for ever, and nothing else does.
    */
  lemma {:induction false} ResolvableIffRecorded(cfg: Config, before: seq<Event>, k: nat)
    requires var w := Run(cfg, Empty(), before); k < |w.txs| && !IsAnswered(w, w.txs[k])
    ensures var w := Run(cfg, Empty(), before);
            Recorded(w, w.txs[k].batch) <==>
            exists after: seq<Event> :: IsAnswered(Run(cfg, w, after), w.txs[k])
  {
    var w := Run(cfg, Empty(), before);
    Reachable(cfg, before);
    ReachableRecords(cfg, before);
    hide Run;
    if Recorded(w, w.txs[k].batch) {
      var i :| 0 <= i < |w.items| && w.items[i].batch == w.txs[k].batch;
      var after := RecoveryAnswers(cfg, w, k, i);
      assert IsAnswered(Run(cfg, w, after), w.txs[k]);
    } else {
      forall after: seq<Event> ensures !IsAnswered(Run(cfg, w, after), w.txs[k]) {
        UnrecordedRun(cfg, w, after, k);
        RunContinues(cfg, w, after);
        assert SameMoney(Run(cfg, w, after).txs[k], w.txs[k].batch, w.txs[k].owner, w.txs[k].amount);
      }
    }
  }
}
