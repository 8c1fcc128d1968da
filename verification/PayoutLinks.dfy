/**
  The ledger and the chain agree: which transaction stands behind which posting
  (packages/server/src/payouts/withdraw.ts, runner.ts; packages/payments/src/rail.ts).
  */
module PayoutLinks {
  import opened Common
  import opened Ledger
  import opened LedgerFacts
  import opened World

  function SubmitOf(t: Tx): Posting { Submitted(t.kind, t.batch, t.owner, t.amount) }

  ghost predicate UniqueTxs(txs: seq<Tx>) { forall i, k :: 0 <= i < k < |txs| ==> txs[i].batch != txs[k].batch }

  /** Every signed envelope was entered in the ledger first, and only sent ones were applied. */
  ghost predicate TxLinked(j: seq<Posting>, t: Tx)
  {
    0 < t.amount && SubmitOf(t) in j && (t.fate == Applied ==> t.sent)
  }

  /** Submits have an envelope; settlements and reversals have the fate that justifies them. */
  ghost predicate PostingLinked(txs: seq<Tx>, p: Posting)
  {
    match p
    case Submitted(_, _, _, _) => exists k :: 0 <= k < |txs| && SubmitOf(txs[k]) == p
    case Settled(b, o, amount) =>
      exists k :: 0 <= k < |txs| && txs[k].batch == b && txs[k].owner == o && txs[k].amount == amount && txs[k].fate == Applied
    case Reversal(r, original) =>
      exists k :: 0 <= k < |txs| && r == Payout(txs[k].batch, txs[k].owner) && txs[k].fate in {Failed, Dead}
                  && original == EntriesOf(SubmitOf(txs[k]))
    case _ => true
  }

  ghost predicate Linked(j: seq<Posting>, txs: seq<Tx>)
  {
    && SoundJournal(j)
    && PayoutShape(j)
    && UniqueTxs(txs)
    && (forall k {:trigger txs[k]} :: 0 <= k < |txs| ==> TxLinked(j, txs[k]))
    && (forall i {:trigger PostingLinked(txs, j[i])} :: 0 <= i < |j| ==> PostingLinked(txs, j[i]))
  }

  /* ---------- reading a payout back ---------- */

  /** Only the submit and the settlement of a payout carry its reference. */
  lemma {:induction false} OthersNotUnder(p: Posting, b: Id, o: Id)
    requires IdOf(p) != SubmitId(b, o) && IdOf(p) != SettleId(b, o)
    ensures ByRef(EntriesOf(p), BatchRef, Payout(b, o)) == []
  {
    KeepNone(EntriesOf(p), UnderRef(BatchRef, Payout(b, o)));
  }

  lemma {:induction false} ByRefAppend(front: seq<Posting>, p: Posting, refId: RefId)
    ensures ByRef(Expand(front + [p]), BatchRef, refId)
            == ByRef(Expand(front), BatchRef, refId) + ByRef(EntriesOf(p), BatchRef, refId)
  {
    ExpandAppend(front, p);
    KeepConcat(Expand(front), EntriesOf(p), UnderRef(BatchRef, refId));
  }

  lemma {:induction false} NothingUnder(j: seq<Posting>, b: Id, o: Id)
    requires !HasId(j, SubmitId(b, o)) && !HasId(j, SettleId(b, o))
    ensures ByRef(Expand(j), BatchRef, Payout(b, o)) == []
  {
    if |j| > 0 {
      var front, p := j[..|j| - 1], j[|j| - 1];
      assert j == front + [p];
      HasIdGrows(front, p, SubmitId(b, o));
      HasIdGrows(front, p, SettleId(b, o));
      NothingUnder(front, b, o);
      OthersNotUnder(p, b, o);
      hide ByRef;
      ByRefAppend(front, p, Payout(b, o));
    }
  }

  /** As long as a payout is not settled, its reference reads back exactly its submit. */
  lemma {:induction false} ReadsBackSubmit(j: seq<Posting>, m: nat, b: Id, o: Id)
    requires UniqueIds(j) && m < |j| && IsSubmit(j[m], b, o) && !HasId(j, SettleId(b, o))
    ensures ByRef(Expand(j), BatchRef, Payout(b, o)) == EntriesOf(j[m])
  {
    hide ByRef, EntriesOf, Expand;
    var front, p := j[..|j| - 1], j[|j| - 1];
    assert j == front + [p];
    HasIdGrows(front, p, SettleId(b, o));
    ByRefAppend(front, p, Payout(b, o));
    if m == |j| - 1 {
      forall i | 0 <= i < |front| ensures IdOf(front[i]) != SubmitId(b, o) {
        assert front[i] == j[i];
      }
      NothingUnder(front, b, o);
      SubmitUnder(p, b, o);
    } else {
      ReadsBackSubmit(front, m, b, o);
      assert IdOf(p) != IdOf(j[m]);
      OthersNotUnder(p, b, o);
    }
  }

  lemma {:induction false} SubmitUnder(p: Posting, b: Id, o: Id)
    requires IsSubmit(p, b, o)
    ensures ByRef(EntriesOf(p), BatchRef, Payout(b, o)) == EntriesOf(p)
  {
    KeepAll(EntriesOf(p), UnderRef(BatchRef, Payout(b, o)));
  }

  /* ---------- what each write keeps ---------- */

  lemma {:induction false} AnswersGrow(j: seq<Posting>, p: Posting, i: nat)
    requires i < |j| && Answers(j, i)
    requires j[i].Settled? ==> IdOf(p) != ReversalId(Payout(j[i].batch, j[i].owner))
    requires j[i].Reversal? ==> IdOf(p) != SettleId(j[i].refId.batch, j[i].refId.owner)
    ensures Answers(j + [p], i)
  {
    var grown := j + [p];
    assert grown[i] == j[i];
    if j[i].Settled? {
      HasIdGrows(j, p, ReversalId(Payout(j[i].batch, j[i].owner)));
      var k :| 0 <= k < i && IsSubmit(j[k], j[i].batch, j[i].owner) && j[k].amount == j[i].amount;
      assert grown[k] == j[k];
    }
    if j[i].Reversal? {
      HasIdGrows(j, p, SettleId(j[i].refId.batch, j[i].refId.owner));
      var k :| 0 <= k < i && IsSubmit(j[k], j[i].refId.batch, j[i].refId.owner) && j[i].original == EntriesOf(j[k]);
      assert grown[k] == j[k];
    }
  }

  /** A posting that answers nothing leaves the payouts in shape. */
  lemma {:induction false} ShapeGrows(j: seq<Posting>, p: Posting)
    requires PayoutShape(j) && !p.Settled? && !p.Reversal?
    ensures PayoutShape(j + [p])
  {
    forall i | 0 <= i < |j| + 1 ensures Answers(j + [p], i) {
      if i < |j| {
        assert Answers(j, i);
        AnswersGrow(j, p, i);
      }
    }
  }

  /** Deposits and impressions. */
  lemma {:induction false} PlainPost(j: seq<Posting>, txs: seq<Tx>, p: Posting)
    requires Linked(j, txs) && SoundPosting(p) && (p.Topup? || p.Shown?)
    ensures Linked(Post(j, p), txs)
  {
    if !HasId(j, IdOf(p)) {
      ShapeGrows(j, p);
    }
  }

  /** A batch unknown to the chain is unknown to the ledger. */
  lemma {:induction false} FreshBatch(j: seq<Posting>, txs: seq<Tx>, b: Id, o: Id)
    requires Linked(j, txs) && forall k :: 0 <= k < |txs| ==> txs[k].batch != b
    ensures !HasId(j, SubmitId(b, o)) && !HasId(j, SettleId(b, o)) && !HasId(j, ReversalId(Payout(b, o)))
  {
    forall i | 0 <= i < |j| ensures IdOf(j[i]) !in {SubmitId(b, o), SettleId(b, o), ReversalId(Payout(b, o))} {
      assert PostingLinked(txs, j[i]);
    }
  }

  /** Submitting: the posting and the envelope come together. */
  lemma {:induction false} SubmitPost(j: seq<Posting>, txs: seq<Tx>, t: Tx)
    requires Linked(j, txs) && 0 < t.amount && t.fate == Open
    requires forall k :: 0 <= k < |txs| ==> txs[k].batch != t.batch
    ensures Post(j, SubmitOf(t)) == j + [SubmitOf(t)]
    ensures Linked(Post(j, SubmitOf(t)), txs + [t])
  {
    FreshBatch(j, txs, t.batch, t.owner);
    var grown, all := j + [SubmitOf(t)], txs + [t];
    ShapeGrows(j, SubmitOf(t));
    forall k {:trigger all[k]} | 0 <= k < |all| ensures TxLinked(grown, all[k]) {
      if k < |txs| {
        assert TxLinked(j, txs[k]);
      } else {
        assert grown[|j|] == SubmitOf(t);
      }
    }
    forall i | 0 <= i < |grown| ensures PostingLinked(all, grown[i]) {
      if i < |j| {
        assert PostingLinked(txs, j[i]);
        LinkKept(txs, t, j[i]);
      } else {
        assert SubmitOf(all[|txs|]) == grown[i];
      }
    }
  }

  lemma {:induction false} LinkKept(txs: seq<Tx>, t: Tx, p: Posting)
    requires PostingLinked(txs, p)
    ensures PostingLinked(txs + [t], p)
  {
    var all := txs + [t];
    match p {
      case Submitted(_, _, _, _) =>
        var k :| 0 <= k < |txs| && SubmitOf(txs[k]) == p;
        assert all[k] == txs[k];
      case Settled(b, o, amount) =>
        var k :| 0 <= k < |txs| && txs[k].batch == b && txs[k].owner == o && txs[k].amount == amount && txs[k].fate == Applied;
        assert all[k] == txs[k];
      case Reversal(r, original) =>
        var k :| 0 <= k < |txs| && r == Payout(txs[k].batch, txs[k].owner) && txs[k].fate in {Failed, Dead}
                 && original == EntriesOf(SubmitOf(txs[k]));
        assert all[k] == txs[k];
      case _ =>
    }
  }

  /** A settled or reversed payout tells the fate of its transaction. */
  lemma {:induction false} FateOfAnswer(j: seq<Posting>, txs: seq<Tx>, k: nat)
    requires Linked(j, txs) && k < |txs|
    ensures HasId(j, SettleId(txs[k].batch, txs[k].owner)) ==> txs[k].fate == Applied
    ensures HasId(j, ReversalId(Payout(txs[k].batch, txs[k].owner))) ==> txs[k].fate in {Failed, Dead}
  {
    var b, o := txs[k].batch, txs[k].owner;
    if HasId(j, SettleId(b, o)) {
      var i :| 0 <= i < |j| && IdOf(j[i]) == SettleId(b, o);
      assert PostingLinked(txs, j[i]);
      var m :| 0 <= m < |txs| && txs[m].batch == b && txs[m].fate == Applied;
    }
    if HasId(j, ReversalId(Payout(b, o))) {
      var i :| 0 <= i < |j| && IdOf(j[i]) == ReversalId(Payout(b, o));
      assert PostingLinked(txs, j[i]);
      var m :| 0 <= m < |txs| && Payout(b, o) == Payout(txs[m].batch, txs[m].owner) && txs[m].fate in {Failed, Dead};
    }
  }

  lemma {:induction false} SubmitPlace(j: seq<Posting>, txs: seq<Tx>, k: nat) returns (m: nat)
    requires Linked(j, txs) && k < |txs|
    ensures m < |j| && j[m] == SubmitOf(txs[k]) && IsSubmit(j[m], txs[k].batch, txs[k].owner)
  {
    assert TxLinked(j, txs[k]);
    m :| 0 <= m < |j| && j[m] == SubmitOf(txs[k]);
  }

  /** Settling a payout whose transaction was applied. */
  lemma {:induction false} SettlePost(j: seq<Posting>, txs: seq<Tx>, k: nat)
    requires Linked(j, txs) && k < |txs| && txs[k].fate == Applied
    ensures Linked(Post(j, Settled(txs[k].batch, txs[k].owner, txs[k].amount)), txs)
  {
    var p := Settled(txs[k].batch, txs[k].owner, txs[k].amount);
    if !HasId(j, IdOf(p)) {
      FateOfAnswer(j, txs, k);
      var m := SubmitPlace(j, txs, k);
      AnswerKeepsShape(j, p, m);
      assert PostingLinked(txs, p);
    }
  }

  /** Reversing a payout whose transaction can no longer be applied. */
  lemma {:induction false} RefundPost(j: seq<Posting>, txs: seq<Tx>, k: nat)
    requires Linked(j, txs) && k < |txs| && txs[k].fate in {Failed, Dead}
    ensures ReversalOf(j, txs[k].batch, txs[k].owner).original == EntriesOf(SubmitOf(txs[k]))
    ensures Linked(Post(j, ReversalOf(j, txs[k].batch, txs[k].owner)), txs)
  {
    var p := ReversalOf(j, txs[k].batch, txs[k].owner);
    FateOfAnswer(j, txs, k);
    var m := SubmitPlace(j, txs, k);
    ReadsBackSubmit(j, m, txs[k].batch, txs[k].owner);
    ReversalIsSound(j, BatchRef, Payout(txs[k].batch, txs[k].owner));
    if !HasId(j, IdOf(p)) {
      AnswerKeepsShape(j, p, m);
      assert PostingLinked(txs, p);
    }
  }

  /** The first answer to a submitted payout keeps the journal in shape. */
  lemma {:induction false} AnswerKeepsShape(j: seq<Posting>, p: Posting, m: nat)
    requires SoundJournal(j) && PayoutShape(j) && m < |j| && j[m].Submitted?
    requires Unanswered(j, j[m].batch, j[m].owner)
    requires p == Settled(j[m].batch, j[m].owner, j[m].amount)
             || p == Reversal(Payout(j[m].batch, j[m].owner), EntriesOf(j[m]))
    ensures PayoutShape(j + [p])
  {
    var grown := j + [p];
    forall i | 0 <= i < |grown| ensures Answers(grown, i) {
      if i < |j| {
        assert Answers(j, i);
        assert IdOf(j[i]) != SettleId(j[m].batch, j[m].owner);
        assert IdOf(j[i]) != ReversalId(Payout(j[m].batch, j[m].owner));
        AnswersGrow(j, p, i);
      } else {
        assert grown[m] == j[m] && IsSubmit(grown[m], j[m].batch, j[m].owner);
        HasIdGrows(j, p, SettleId(j[m].batch, j[m].owner));
        HasIdGrows(j, p, ReversalId(Payout(j[m].batch, j[m].owner)));
      }
    }
  }

  /** The chain decides an open transaction. */
  lemma {:induction false} DecidedLinks(j: seq<Posting>, txs: seq<Tx>, k: nat, fate: Fate)
    requires Linked(j, txs) && k < |txs| && txs[k].fate == Open && (txs[k].sent || fate != Applied)
    ensures Linked(j, txs[k := txs[k].(fate := fate)])
  {
    var all := txs[k := txs[k].(fate := fate)];
    forall i {:trigger all[i]} | 0 <= i < |all| ensures TxLinked(j, all[i]) {
      assert TxLinked(j, txs[i]);
      assert SubmitOf(all[i]) == SubmitOf(txs[i]);
    }
    forall i | 0 <= i < |j| ensures PostingLinked(all, j[i]) {
      assert PostingLinked(txs, j[i]);
      match j[i] {
        case Submitted(_, _, _, _) =>
          var m :| 0 <= m < |txs| && SubmitOf(txs[m]) == j[i];
          assert SubmitOf(all[m]) == j[i];
        case Settled(b, o, amount) =>
          var m :| 0 <= m < |txs| && txs[m].batch == b && txs[m].owner == o && txs[m].amount == amount && txs[m].fate == Applied;
          assert all[m] == txs[m];
        case Reversal(r, original) =>
          var m :| 0 <= m < |txs| && r == Payout(txs[m].batch, txs[m].owner) && txs[m].fate in {Failed, Dead}
                   && original == EntriesOf(SubmitOf(txs[m]));
          assert all[m] == txs[m];
        case _ =>
      }
    }
  }
}
