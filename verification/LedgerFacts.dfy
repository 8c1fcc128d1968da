/**
  What the journal guarantees about the entries: the three audit rules, the meaning of
  `inFlightFrom` and of `billedImpressions`, and when no amount leaves the 64-bit range.
  */
module LedgerFacts {
  import opened Common
  import opened Money
  import opened Sums
  import opened Ledger

  /* ---------- journal shape ---------- */

  ghost predicate UniqueIds(j: seq<Posting>)
  {
    forall i, k :: 0 <= i < k < |j| ==> IdOf(j[i]) != IdOf(j[k])
  }

  function RefOfKey(k: Key): RefId
  {
    match k
    case TopupKey(t, _) => Plain(t)
    case ImpressionKey(i, _) => Plain(i)
    case SubmitKey(b, o, _) => Payout(b, o)
    case SettledKey(b, o, _) => Payout(b, o)
    case ReversalKey(of) => ReversedRef(RefOfKey(of))
  }

  /** The posting an idempotency key belongs to. */
  function IdOfKey(k: Key): PostingId
  {
    match k
    case TopupKey(t, _) => TopupId(t)
    case ImpressionKey(i, _) => ShownId(i)
    case SubmitKey(b, o, _) => SubmitId(b, o)
    case SettledKey(b, o, _) => SettleId(b, o)
    case ReversalKey(of) => ReversalId(RefOfKey(of))
  }

  ghost predicate DistinctKeys(entries: seq<Entry>)
  {
    forall i, k :: 0 <= i < k < |entries| ==> entries[i].key != entries[k].key
  }

  function Amounts(): Entry -> int { (e: Entry) => e.amount }

  /** A group the ledger's operations can produce. */
  ghost predicate SoundPosting(p: Posting)
  {
    match p
    case Topup(_, _, amount) => 0 < amount
    case Shown(_, _, _, _, rate, bps) => 0 <= rate && ValidShare(bps)
    case Submitted(_, _, _, amount) => 0 < amount
    case Settled(_, _, _) => true
    case Reversal(refId, original) =>
      && 0 < |original|
      && Sum(original, Amounts()) == 0
      && DistinctKeys(original)
      && (forall i :: 0 <= i < |original| ==> original[i].refId == refId && RefOfKey(original[i].key) == refId)
      && (forall i :: 0 <= i < |original| ==> original[i].refType == original[0].refType)
  }

  ghost predicate SoundJournal(j: seq<Posting>)
  {
    UniqueIds(j) && forall i :: 0 <= i < |j| ==> SoundPosting(j[i])
  }

  /* ---------- audit rule 1: every reference sums to zero ---------- */

  function AmountUnder(refType: RefType, refId: RefId): Entry -> int
  {
    (e: Entry) => if e.refType == refType && e.refId == refId then e.amount else 0
  }

  ghost predicate ZeroSumRefs(entries: seq<Entry>)
  {
    forall t, r :: Sum(entries, AmountUnder(t, r)) == 0
  }

  lemma {:induction false} MirroredAmounts(original: seq<Entry>, refId: RefId)
    ensures Sum(EntriesOf(Reversal(refId, original)), Amounts()) == -Sum(original, Amounts())
  {
    if |original| > 0 {
      var front := original[..|original| - 1];
      var mirrored := EntriesOf(Reversal(refId, front));
      assert EntriesOf(Reversal(refId, original)) == mirrored + [Negated(original[|original| - 1])];
      SumAppend(mirrored, Negated(original[|original| - 1]), Amounts());
      MirroredAmounts(front, refId);
    }
  }

  lemma {:induction false} GroupBalances(p: Posting)
    requires SoundPosting(p)
    ensures Sum(EntriesOf(p), Amounts()) == 0
  {
    var g := EntriesOf(p);
    match p {
      case Topup(_, _, _) => SumTwo(g[0], g[1], Amounts());
      case Shown(_, _, _, _, _, _) => SumThree(g[0], g[1], g[2], Amounts());
      case Submitted(_, _, _, _) => SumTwo(g[0], g[1], Amounts());
      case Settled(_, _, _) => SumTwo(g[0], g[1], Amounts());
      case Reversal(refId, original) => MirroredAmounts(original, refId);
    }
  }

  /** A group carries one reference, so it adds its whole total to that reference and nothing elsewhere. */
  lemma {:induction false} GroupUnderOneRef(p: Posting, refType: RefType, refId: RefId)
    requires SoundPosting(p)
    ensures Sum(EntriesOf(p), AmountUnder(refType, refId)) == 0
  {
    var g := EntriesOf(p);
    GroupBalances(p);
    assert forall i :: 0 <= i < |g| ==> g[i].refType == g[0].refType && g[i].refId == g[0].refId;
    if g[0].refType == refType && g[0].refId == refId {
      SumSame(g, AmountUnder(refType, refId), Amounts());
    } else {
      SumZero(g, AmountUnder(refType, refId));
    }
  }

  lemma {:induction false} RefsSumToZero(j: seq<Posting>)
    requires SoundJournal(j)
    ensures ZeroSumRefs(Expand(j))
  {
    if |j| > 0 {
      var front, p := j[..|j| - 1], j[|j| - 1];
      RefsSumToZero(front);
      forall t, r ensures Sum(Expand(j), AmountUnder(t, r)) == 0 {
        SumConcat(Expand(front), EntriesOf(p), AmountUnder(t, r));
        GroupUnderOneRef(p, t, r);
      }
    }
  }

  /* ---------- audit rule 3: idempotency keys are unique ---------- */

  lemma {:induction false} GroupKeys(p: Posting)
    requires SoundPosting(p)
    ensures DistinctKeys(EntriesOf(p))
    ensures forall e :: e in EntriesOf(p) ==> IdOfKey(e.key) == IdOf(p)
  {
  }

  lemma {:induction false} EntryHasPosting(j: seq<Posting>, e: Entry)
    requires SoundJournal(j) && e in Expand(j)
    ensures HasId(j, IdOfKey(e.key))
    ensures exists i :: 0 <= i < |j| && e in EntriesOf(j[i])
  {
    var front, p := j[..|j| - 1], j[|j| - 1];
    if e in EntriesOf(p) {
      GroupKeys(p);
    } else {
      EntryHasPosting(front, e);
      var i :| 0 <= i < |front| && e in EntriesOf(front[i]);
      assert front[i] == j[i];
      GroupKeys(j[i]);
    }
  }

  lemma {:induction false} PostingHasEntries(j: seq<Posting>, i: nat, e: Entry)
    requires i < |j| && e in EntriesOf(j[i])
    ensures e in Expand(j)
  {
    if i < |j| - 1 {
      PostingHasEntries(j[..|j| - 1], i, e);
    }
  }

  lemma {:induction false} KeysAreUnique(j: seq<Posting>)
    requires SoundJournal(j)
    ensures DistinctKeys(Expand(j))
  {
    if |j| > 0 {
      var front, p := j[..|j| - 1], j[|j| - 1];
      KeysAreUnique(front);
      GroupKeys(p);
      forall e | e in Expand(front) ensures IdOfKey(e.key) != IdOf(p) {
        EntryHasPosting(front, e);
      }
    }
  }

  /* ---------- reading a group back by its reference ---------- */

  lemma {:induction false} KeepDistinct(entries: seq<Entry>, p: Entry -> bool)
    requires DistinctKeys(entries)
    ensures DistinctKeys(Keep(entries, p))
  {
    if |entries| > 0 {
      var front, last := entries[..|entries| - 1], entries[|entries| - 1];
      var kept := Keep(front, p);
      KeepDistinct(front, p);
      forall i | 0 <= i < |kept| ensures kept[i].key != last.key {
        assert kept[i] in kept && kept[i] in front;
      }
    }
  }

  /** What `reverse` copies always forms a group that balances, so the balance check never fires. */
  lemma {:induction false} ReversalIsSound(j: seq<Posting>, refType: RefType, refId: RefId)
    requires SoundJournal(j)
    requires |ByRef(Expand(j), refType, refId)| > 0
    ensures SoundPosting(Reversal(refId, ByRef(Expand(j), refType, refId)))
  {
    var entries := Expand(j);
    var original := ByRef(entries, refType, refId);
    KeysAreUnique(j);
    KeepDistinct(entries, UnderRef(refType, refId));
    RefsSumToZero(j);
    SumOfKept(entries, refType, refId);
    forall i | 0 <= i < |original|
      ensures original[i].refId == refId && RefOfKey(original[i].key) == refId && original[i].refType == refType
    {
      assert original[i] in original;
      EntryHasPosting(j, original[i]);
      var k :| 0 <= k < |j| && original[i] in EntriesOf(j[k]);
      EntryRefMatchesKey(j[k], original[i]);
    }
  }

  lemma {:induction false} EntryRefMatchesKey(p: Posting, e: Entry)
    requires SoundPosting(p) && e in EntriesOf(p)
    ensures RefOfKey(e.key) == e.refId
  {
  }

  lemma {:induction false} SumOfKept(entries: seq<Entry>, refType: RefType, refId: RefId)
    ensures Sum(ByRef(entries, refType, refId), Amounts()) == Sum(entries, AmountUnder(refType, refId))
  {
    if |entries| > 0 {
      var front, last := entries[..|entries| - 1], entries[|entries| - 1];
      SumOfKept(front, refType, refId);
      if UnderRef(refType, refId)(last) {
        SumAppend(ByRef(front, refType, refId), last, Amounts());
      }
    }
  }

  /* ---------- payouts in the journal ---------- */

  ghost predicate IsSubmit(p: Posting, b: Id, o: Id) { p.Submitted? && p.batch == b && p.owner == o }

  /** A settlement or reversal follows the submit it answers, and excludes the other answer. */
  ghost predicate Answers(j: seq<Posting>, i: nat)
    requires i < |j|
  {
    var p := j[i];
    && (p.Settled? ==>
         && (exists k :: 0 <= k < i && IsSubmit(j[k], p.batch, p.owner) && j[k].amount == p.amount)
         && !HasId(j, ReversalId(Payout(p.batch, p.owner))))
    && (p.Reversal? ==>
         && p.refId.Payout?
         && (exists k :: 0 <= k < i && IsSubmit(j[k], p.refId.batch, p.refId.owner) && p.original == EntriesOf(j[k]))
         && !HasId(j, SettleId(p.refId.batch, p.refId.owner)))
  }

  ghost predicate PayoutShape(j: seq<Posting>)
  {
    forall i {:trigger Answers(j, i)} :: 0 <= i < |j| ==> Answers(j, i)
  }

  predicate Unanswered(j: seq<Posting>, b: Id, o: Id)
  {
    !HasId(j, SettleId(b, o)) && !HasId(j, ReversalId(Payout(b, o)))
  }

  /** Payouts under the chosen references whose fate is still unknown. */
  function OpenUnder(j: seq<Posting>, chosen: RefId -> bool): Posting -> int
  {
    (p: Posting) =>
      if p.Submitted? && chosen(Payout(p.batch, p.owner)) && Unanswered(j, p.batch, p.owner) then p.amount else 0
  }

  /** Money sent from one account whose fate is still unknown. */
  function OpenWeight(j: seq<Posting>, from: Account): Posting -> int
  {
    (p: Posting) =>
      if p.Submitted? && Source(p.kind, p.owner) == from && Unanswered(j, p.batch, p.owner) then p.amount else 0
  }

  function OpenFrom(j: seq<Posting>, from: Account): int { Sum(j, OpenWeight(j, from)) }

  /** The references of the payouts that left an account. */
  ghost function RefsFrom(entries: seq<Entry>, from: Account): set<RefId>
  {
    set e | e in entries && e.typ == SubmitEntry && e.account == from :: e.refId
  }

  /** A reversal's reference with the `:reversal` suffix taken off. */
  function Stripped(e: Entry): RefId
  {
    if e.refType == ReversalRef && e.refId.ReversedRef? then e.refId.of else e.refId
  }

  function InBoxUnder(chosen: RefId -> bool): Entry -> int
  {
    (e: Entry) => if e.account == PayoutsInFlight && chosen(Stripped(e)) then e.amount else 0
  }

  ghost function AmongRefs(refs: set<RefId>): RefId -> bool { (r: RefId) => r in refs }

  /** `inFlightFrom`: what the shared box holds under the references of one account's payouts. */
  ghost function InFlightFrom(entries: seq<Entry>, from: Account): int
  {
    Sum(entries, InBoxUnder(AmongRefs(RefsFrom(entries, from))))
  }

  lemma {:induction false} HasIdGrows(j: seq<Posting>, p: Posting, id: PostingId)
    ensures HasId(j + [p], id) <==> HasId(j, id) || IdOf(p) == id
  {
    var grown := j + [p];
    if HasId(j, id) {
      var i :| 0 <= i < |j| && IdOf(j[i]) == id;
      assert IdOf(grown[i]) == id;
    }
    if IdOf(p) == id {
      assert IdOf(grown[|j|]) == id;
    }
  }

  lemma {:induction false} ShapeOfPrefix(front: seq<Posting>, p: Posting)
    requires PayoutShape(front + [p])
    ensures PayoutShape(front)
  {
    var j := front + [p];
    forall i | 0 <= i < |front| ensures Answers(front, i) {
      assert Answers(j, i) && j[i] == front[i];
      forall id ensures HasId(front, id) ==> HasId(j, id) {
        HasIdGrows(front, p, id);
      }
      if j[i].Settled? {
        var k :| 0 <= k < i && IsSubmit(j[k], j[i].batch, j[i].owner) && j[k].amount == j[i].amount;
        assert front[k] == j[k];
      }
      if j[i].Reversal? {
        var k :| 0 <= k < i && IsSubmit(j[k], j[i].refId.batch, j[i].refId.owner) && j[i].original == EntriesOf(j[k]);
        assert front[k] == j[k];
      }
    }
  }

  /** Which references leave an account, told from the journal. */
  lemma {:induction false} RefsAreSubmits(j: seq<Posting>, from: Account, b: Id, o: Id)
    requires SoundJournal(j) && from != PayoutsInFlight
    ensures Payout(b, o) in RefsFrom(Expand(j), from) <==>
            exists k :: 0 <= k < |j| && IsSubmit(j[k], b, o) && Source(j[k].kind, o) == from
  {
    var entries := Expand(j);
    if Payout(b, o) in RefsFrom(entries, from) {
      var e :| e in entries && e.typ == SubmitEntry && e.account == from && e.refId == Payout(b, o);
      EntryHasPosting(j, e);
      var k :| 0 <= k < |j| && e in EntriesOf(j[k]);
      SubmitEntryOf(j[k], e);
    }
    if k :| 0 <= k < |j| && IsSubmit(j[k], b, o) && Source(j[k].kind, o) == from {
      var e := EntriesOf(j[k])[0];
      PostingHasEntries(j, k, e);
      assert e.refId in RefsFrom(entries, from);
    }
  }

  lemma {:induction false} SubmitEntryOf(p: Posting, e: Entry)
    requires e in EntriesOf(p) && e.typ == SubmitEntry && e.account != PayoutsInFlight
    ensures p.Submitted? && e.refId == Payout(p.batch, p.owner) && e.account == Source(p.kind, p.owner)
  {}

  /** What one posting puts into the box, or takes out of it. */
  function IntoBox(p: Posting, chosen: RefId -> bool): int
  {
    match p
    case Submitted(_, b, o, amount) => if chosen(Payout(b, o)) then amount else 0
    case Settled(b, o, amount) => if chosen(Payout(b, o)) then -amount else 0
    case Reversal(r, original) => if |original| == 2 && chosen(r) then -original[1].amount else 0
    case _ => 0
  }

  lemma {:induction false} BoxEffect(j: seq<Posting>, i: nat, chosen: RefId -> bool)
    requires PayoutShape(j) && i < |j|
    ensures Sum(EntriesOf(j[i]), InBoxUnder(chosen)) == IntoBox(j[i], chosen)
  {
    var g, w := EntriesOf(j[i]), InBoxUnder(chosen);
    match j[i] {
      case Topup(_, _, _) => SumTwo(g[0], g[1], w);
      case Shown(_, _, _, _, _, _) => SumThree(g[0], g[1], g[2], w);
      case Submitted(kind, _, o, _) =>
        SumTwo(g[0], g[1], w);
        assert w(g[0]) == 0 && Stripped(g[1]) == Payout(j[i].batch, j[i].owner);
      case Settled(_, _, _) =>
        SumTwo(g[0], g[1], w);
        assert Stripped(g[0]) == Payout(j[i].batch, j[i].owner);
      case Reversal(r, original) =>
        assert Answers(j, i);
        var k :| 0 <= k < i && IsSubmit(j[k], r.batch, r.owner) && original == EntriesOf(j[k]);
        assert g == [Negated(original[0]), Negated(original[1])];
        SumTwo(g[0], g[1], w);
        assert Stripped(g[1]) == r && original[0].account == Source(j[k].kind, j[k].owner);
    }
  }

  /** The box under any choice of references holds exactly the unanswered payouts among them. */
  lemma {:induction false} BoxHoldsOpen(j: seq<Posting>, chosen: RefId -> bool)
    requires SoundJournal(j) && PayoutShape(j)
    ensures Sum(Expand(j), InBoxUnder(chosen)) == Sum(j, OpenUnder(j, chosen))
  {
    if |j| > 0 {
      var n := |j| - 1;
      var front, p := j[..n], j[n];
      assert j == front + [p];
      ShapeOfPrefix(front, p);
      BoxHoldsOpen(front, chosen);
      BoxEffect(j, n, chosen);
      SumConcat(Expand(front), EntriesOf(p), InBoxUnder(chosen));
      OpenMoves(j, chosen);
      hide SoundJournal, PayoutShape, EntriesOf, IntoBox;
    }
  }

  /** The unanswered payouts change by what the last posting moves into the box. */
  lemma {:induction false} OpenMoves(j: seq<Posting>, chosen: RefId -> bool)
    requires SoundJournal(j) && PayoutShape(j) && |j| > 0
    ensures var front := j[..|j| - 1];
            Sum(j, OpenUnder(j, chosen)) == Sum(front, OpenUnder(front, chosen)) + IntoBox(j[|j| - 1], chosen)
  {
    var n := |j| - 1;
    var front, p := j[..n], j[n];
    assert j == front + [p];
    assert Answers(j, n);
    SumAppend(front, p, OpenUnder(j, chosen));
    hide PayoutShape, HasId, Sum;
    if p.Settled? {
      var k :| 0 <= k < n && IsSubmit(j[k], p.batch, p.owner) && j[k].amount == p.amount;
      UniqueAnswer(front, p);
      AnswerClosesOne(front, p, k, p.batch, p.owner, chosen);
    } else if p.Reversal? {
      var k :| 0 <= k < n && IsSubmit(j[k], p.refId.batch, p.refId.owner) && p.original == EntriesOf(j[k]);
      UniqueAnswer(front, p);
      AnswerClosesOne(front, p, k, p.refId.batch, p.refId.owner, chosen);
    } else {
      OpenKept(front, p, chosen);
      if p.Submitted? {
        FreshSubmitIsOpen(front, p);
      }
    }
  }

  lemma {:induction false} OpenKept(front: seq<Posting>, p: Posting, chosen: RefId -> bool)
    requires !p.Settled? && !p.Reversal?
    ensures Sum(front, OpenUnder(front + [p], chosen)) == Sum(front, OpenUnder(front, chosen))
  {
    forall i | 0 <= i < |front| ensures OpenUnder(front, chosen)(front[i]) == OpenUnder(front + [p], chosen)(front[i]) {
      if front[i].Submitted? {
        HasIdGrows(front, p, SettleId(front[i].batch, front[i].owner));
        HasIdGrows(front, p, ReversalId(Payout(front[i].batch, front[i].owner)));
        assert Unanswered(front + [p], front[i].batch, front[i].owner) == Unanswered(front, front[i].batch, front[i].owner);
      }
    }
    SumSame(front, OpenUnder(front, chosen), OpenUnder(front + [p], chosen));
  }

  /** An answer is the first one its payout gets. */
  lemma {:induction false} UniqueAnswer(front: seq<Posting>, p: Posting)
    requires UniqueIds(front + [p]) && Answers(front + [p], |front|)
    requires p.Settled? || (p.Reversal? && p.refId.Payout?)
    ensures p.Settled? ==> Unanswered(front, p.batch, p.owner)
    ensures p.Reversal? ==> Unanswered(front, p.refId.batch, p.refId.owner)
  {
    var j := front + [p];
    assert j[|front|] == p;
    forall id | HasId(front, id) ensures id != IdOf(p) && HasId(j, id) {
      var i :| 0 <= i < |front| && IdOf(front[i]) == id;
      assert j[i] == front[i];
    }
  }

  /** An answered payout was submitted before the last posting. */
  lemma {:induction false} AnswersHaveSubmits(j: seq<Posting>, b: Id, o: Id)
    requires PayoutShape(j)
    ensures Unanswered(j, b, o) || exists k :: 0 <= k < |j| - 1 && IsSubmit(j[k], b, o)
  {
    if HasId(j, SettleId(b, o)) {
      var i :| 0 <= i < |j| && IdOf(j[i]) == SettleId(b, o);
      assert Answers(j, i);
    }
    if HasId(j, ReversalId(Payout(b, o))) {
      var i :| 0 <= i < |j| && IdOf(j[i]) == ReversalId(Payout(b, o));
      assert Answers(j, i);
    }
  }

  /** A payout submitted last has no answer yet. */
  lemma {:induction false} FreshSubmitIsOpen(front: seq<Posting>, p: Posting)
    requires SoundJournal(front + [p]) && PayoutShape(front + [p]) && p.Submitted?
    ensures Unanswered(front + [p], p.batch, p.owner)
  {
    var j := front + [p];
    AnswersHaveSubmits(j, p.batch, p.owner);
    assert j[|front|] == p;
    assert forall k :: 0 <= k < |front| && IsSubmit(j[k], p.batch, p.owner) ==> IdOf(j[k]) == IdOf(p);
  }

  lemma {:induction false} OtherStaysOpen(front: seq<Posting>, p: Posting, i: nat, k: nat, b: Id, o: Id)
    requires UniqueIds(front) && k < |front| && i < |front| && i != k && IsSubmit(front[k], b, o)
    requires IdOf(p) == SettleId(b, o) || IdOf(p) == ReversalId(Payout(b, o))
    ensures front[i].Submitted? ==>
            (Unanswered(front + [p], front[i].batch, front[i].owner) <==> Unanswered(front, front[i].batch, front[i].owner))
  {
    if front[i].Submitted? {
      assert IdOf(front[i]) != IdOf(front[k]);
      HasIdGrows(front, p, SettleId(front[i].batch, front[i].owner));
      HasIdGrows(front, p, ReversalId(Payout(front[i].batch, front[i].owner)));
    }
  }

  /** An answer takes exactly its own payout out of the open ones. */
  lemma {:induction false} AnswerClosesOne(front: seq<Posting>, p: Posting, k: nat, b: Id, o: Id, chosen: RefId -> bool)
    requires SoundJournal(front + [p]) && k < |front| && IsSubmit(front[k], b, o)
    requires Unanswered(front, b, o)
    requires IdOf(p) == SettleId(b, o) || IdOf(p) == ReversalId(Payout(b, o))
    ensures Sum(front + [p], OpenUnder(front + [p], chosen)) ==
            Sum(front, OpenUnder(front, chosen)) - (if chosen(Payout(b, o)) then front[k].amount else 0)
  {
    var j := front + [p];
    assert forall i :: 0 <= i < |front| ==> j[i] == front[i];
    HasIdGrows(front, p, IdOf(p));
    forall i | 0 <= i < |front| && i != k
      ensures OpenUnder(front, chosen)(front[i]) == OpenUnder(j, chosen)(front[i]) {
      OtherStaysOpen(front, p, i, k, b, o);
    }
    SumPoint(front, k, OpenUnder(front, chosen), OpenUnder(j, chosen));
    SumAppend(front, p, OpenUnder(j, chosen));
  }

  /** `inFlightFrom` reports exactly the account's own unanswered payouts. */
  lemma {:induction false} InFlightFromIsOpen(j: seq<Posting>, from: Account)
    requires SoundJournal(j) && PayoutShape(j) && from != PayoutsInFlight
    ensures InFlightFrom(Expand(j), from) == OpenFrom(j, from)
  {
    var chosen := AmongRefs(RefsFrom(Expand(j), from));
    BoxHoldsOpen(j, chosen);
    assert InFlightFrom(Expand(j), from) == Sum(j, OpenUnder(j, chosen));
    forall i | 0 <= i < |j| ensures OpenUnder(j, chosen)(j[i]) == OpenWeight(j, from)(j[i]) {
      OpenBySource(j, from, i);
    }
    hide InFlightFrom, Expand, PayoutShape, Sum, SoundJournal, OpenUnder, OpenWeight;
    SumSame(j, OpenUnder(j, chosen), OpenWeight(j, from));
  }

  /** A payout is chosen by the first pass exactly when it came out of the account. */
  lemma {:induction false} OpenBySource(j: seq<Posting>, from: Account, i: nat)
    requires SoundJournal(j) && PayoutShape(j) && from != PayoutsInFlight && i < |j|
    ensures OpenUnder(j, AmongRefs(RefsFrom(Expand(j), from)))(j[i]) == OpenWeight(j, from)(j[i])
  {
    if j[i].Submitted? {
      RefsAreSubmits(j, from, j[i].batch, j[i].owner);
      OneSource(j, from, i);
      hide Expand, PayoutShape, SoundJournal, RefsFrom, Unanswered, Source;
    }
  }

  /** A payout has one submit, so one source. */
  lemma {:induction false} OneSource(j: seq<Posting>, from: Account, i: nat)
    requires UniqueIds(j) && i < |j| && j[i].Submitted?
    ensures (exists k :: 0 <= k < |j| && IsSubmit(j[k], j[i].batch, j[i].owner) && Source(j[k].kind, j[i].owner) == from)
            <==> Source(j[i].kind, j[i].owner) == from
  {
    if k :| 0 <= k < |j| && IsSubmit(j[k], j[i].batch, j[i].owner) && Source(j[k].kind, j[i].owner) == from {
      assert IdOf(j[k]) == IdOf(j[i]);
    }
    assert IsSubmit(j[i], j[i].batch, j[i].owner);
  }

  function AnyRef(): RefId -> bool { (r: RefId) => true }

  /** The whole box, over all accounts. */
  lemma {:induction false} BoxBalance(j: seq<Posting>)
    requires SoundJournal(j) && PayoutShape(j)
    ensures Balance(j, PayoutsInFlight) == Sum(j, OpenUnder(j, AnyRef()))
    ensures 0 <= Balance(j, PayoutsInFlight)
  {
    BoxHoldsOpen(j, AnyRef());
    BalanceOfEntries(j, PayoutsInFlight);
    SumSame(Expand(j), InBoxUnder(AnyRef()), AmountIn(PayoutsInFlight));
    SumNonNegative(j, OpenUnder(j, AnyRef()));
  }

  /** The accounts money has been sent from, each listed once. */
  ghost predicate ListsSources(accounts: seq<Account>, j: seq<Posting>)
  {
    && (forall i, k :: 0 <= i < k < |accounts| ==> accounts[i] != accounts[k])
    && (forall i :: 0 <= i < |j| && j[i].Submitted? ==> Source(j[i].kind, j[i].owner) in accounts)
    && PayoutsInFlight !in accounts
  }

  ghost function InFlightFromIn(entries: seq<Entry>): Account -> int { (a: Account) => InFlightFrom(entries, a) }

  /** `inFlightFrom` over the source accounts partitions the shared box. */
  lemma {:induction false} InFlightPartition(j: seq<Posting>, accounts: seq<Account>)
    requires SoundJournal(j) && PayoutShape(j) && ListsSources(accounts, j)
    ensures Sum(accounts, InFlightFromIn(Expand(j))) == EntryBalance(Expand(j), PayoutsInFlight)
  {
    forall i | 0 <= i < |accounts| ensures InFlightFromIn(Expand(j))(accounts[i]) == RowSum(j, j)(accounts[i]) {
      InFlightFromIsOpen(j, accounts[i]);
    }
    SumSame(accounts, InFlightFromIn(Expand(j)), RowSum(j, j));
    SumOfRows(j, accounts, j);
    BoxBalance(j);
    BalanceOfEntries(j, PayoutsInFlight);
  }

  ghost function RowSum(part: seq<Posting>, j: seq<Posting>): Account -> int
  {
    (a: Account) => Sum(part, OpenWeight(j, a))
  }

  ghost function RowOf(p: Posting, j: seq<Posting>): Account -> int { (a: Account) => OpenWeight(j, a)(p) }

  lemma {:induction false} SumOfRows(part: seq<Posting>, accounts: seq<Account>, j: seq<Posting>)
    requires ListsSources(accounts, part)
    ensures Sum(accounts, RowSum(part, j)) == Sum(part, OpenUnder(j, AnyRef()))
  {
    if |part| == 0 {
      SumZero(accounts, RowSum(part, j));
    } else {
      var front, p := part[..|part| - 1], part[|part| - 1];
      SumOfRows(front, accounts, j);
      SumAdd(accounts, RowSum(front, j), RowOf(p, j), RowSum(part, j));
      if p.Submitted? {
        var k :| 0 <= k < |accounts| && accounts[k] == Source(p.kind, p.owner);
        SumPoint(accounts, k, (a: Account) => 0, RowOf(p, j));
        SumZero(accounts, (a: Account) => 0);
      } else {
        SumZero(accounts, RowOf(p, j));
      }
    }
  }

  /* ---------- distinct amounts covered by distinct postings ---------- */

  function Without(v: Posting -> int, q: Posting): Posting -> int { (p: Posting) => if p == q then 0 else v(p) }

  /** Amounts that each have a posting of their own, of at least that weight, add up to no more than the postings. */
  lemma {:induction false} Covered<T>(s: seq<T>, j: seq<Posting>, w: T -> int, v: Posting -> int, f: T -> Posting)
    requires UniqueIds(j) && forall i :: 0 <= i < |j| ==> 0 <= v(j[i])
    requires forall i {:trigger s[i]} :: 0 <= i < |s| ==> w(s[i]) <= 0 || (f(s[i]) in j && w(s[i]) <= v(f(s[i])))
    requires forall i, k :: 0 <= i < k < |s| && 0 < w(s[i]) && 0 < w(s[k]) ==> f(s[i]) != f(s[k])
    ensures Sum(s, w) <= Sum(j, v)
  {
    if |s| == 0 {
      SumNonNegative(j, v);
    } else {
      var front, x := s[..|s| - 1], s[|s| - 1];
      if w(x) <= 0 {
        Covered(front, j, w, v, f);
      } else {
        TakesOut(j, v, f(x));
        forall i {:trigger front[i]} | 0 <= i < |front|
          ensures w(front[i]) <= 0 || (f(front[i]) in j && w(front[i]) <= Without(v, f(x))(f(front[i]))) {
          assert front[i] == s[i];
        }
        Covered(front, j, w, Without(v, f(x)), f);
      }
    }
  }

  lemma {:induction false} TakesOut(j: seq<Posting>, v: Posting -> int, q: Posting)
    requires UniqueIds(j) && q in j
    ensures Sum(j, Without(v, q)) == Sum(j, v) - v(q)
  {
    var i :| 0 <= i < |j| && j[i] == q;
    forall m | 0 <= m < |j| && m != i ensures Without(v, q)(j[m]) == v(j[m]) {
      assert IdOf(j[m]) != IdOf(j[i]);
    }
    SumPoint(j, i, v, Without(v, q));
  }
}
