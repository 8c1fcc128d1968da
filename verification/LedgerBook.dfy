/**
  The ledger as the program keeps it: a store that appends entry groups once, and the book over it
  with its cached counter. Every operation is tied to the journal the proofs speak about.
  */
module LedgerBook {
  import opened Common
  import opened Money
  import opened Sums
  import opened Ledger
  import opened LedgerFacts

  datatype Failure = PartialConflict | NotPositive | Overdraws | NothingToReverse | Unbalanced | OutOfRange
  datatype Result<+T> = Ok(value: T) | Err(failure: Failure)

  ghost predicate HasKey(entries: seq<Entry>, k: Key) { exists i :: 0 <= i < |entries| && entries[i].key == k }

  /** Every running total of an accumulating loop stays within 64 bits. */
  ghost predicate NoOverflow(entries: seq<Entry>, w: Entry -> int)
  {
    forall n {:trigger Sum(entries[..n], w)} :: 0 <= n <= |entries| ==> InRange(Sum(entries[..n], w))
  }

  /* ---------- the store ---------- */

  class MemoryLedgerStore {
    var entries: seq<Entry>
    var byKey: map<Key, Entry>

    ghost predicate Valid()
      reads this
    {
      && DistinctKeys(entries)
      && (forall k :: k in byKey ==> byKey[k].key == k && byKey[k] in entries)
      && (forall i :: 0 <= i < |entries| ==> entries[i].key in byKey && byKey[entries[i].key] == entries[i])
    }

    constructor ()
      ensures Valid() && entries == []
    {
      entries, byKey := [], map[];
    }

    /** The entries already stored under the group's keys. */
    method Existing(group: seq<Entry>) returns (existing: seq<Entry>)
      requires Valid()
      ensures |existing| <= |group|
      ensures |existing| > 0 <==> exists m :: 0 <= m < |group| && HasKey(entries, group[m].key)
      ensures |existing| == |group| <==> forall m :: 0 <= m < |group| ==> HasKey(entries, group[m].key)
      ensures |existing| == |group| ==>
                forall m :: 0 <= m < |group| ==> existing[m] in entries && existing[m].key == group[m].key
    {
      KeysAreIndexed();
      existing := [];
      for i := 0 to |group|
        invariant |existing| <= i
        invariant |existing| > 0 <==> exists m :: 0 <= m < i && group[m].key in byKey
        invariant |existing| == i <==> forall m :: 0 <= m < i ==> group[m].key in byKey
        invariant |existing| == i ==> forall m :: 0 <= m < i ==> existing[m] == byKey[group[m].key]
      {
        if group[i].key in byKey {
          existing := existing + [byKey[group[i].key]];
        }
      }
    }

    /** Writes a group once. A repeat gets the entries first written under its keys; half a repeat is an error. */
    method Append(group: seq<Entry>) returns (r: Result<seq<Entry>>)
      requires Valid() && DistinctKeys(group)
      modifies this
      ensures Valid()
      ensures (forall i :: 0 <= i < |group| ==> !HasKey(old(entries), group[i].key)) ==>
                entries == old(entries) + group && r == Ok(group)
      ensures (exists i :: 0 <= i < |group| && HasKey(old(entries), group[i].key)) ==> entries == old(entries)
      ensures |group| > 0 && (forall i :: 0 <= i < |group| ==> HasKey(old(entries), group[i].key)) ==>
                r.Ok? && |r.value| == |group|
                && forall i :: 0 <= i < |group| ==> r.value[i] in entries && r.value[i].key == group[i].key
      ensures r.Err? <==> (exists i :: 0 <= i < |group| && HasKey(old(entries), group[i].key))
                          && (exists i :: 0 <= i < |group| && !HasKey(old(entries), group[i].key))
    {
      var existing := Existing(group);
      if |existing| > 0 {
        if |existing| != |group| {
          return Err(PartialConflict);
        }
        return Ok(existing);
      }
      WriteAll(group);
      r := Ok(group);
    }

    method WriteAll(group: seq<Entry>)
      requires Valid() && DistinctKeys(group) && forall i :: 0 <= i < |group| ==> !HasKey(entries, group[i].key)
      modifies this
      ensures Valid() && entries == old(entries) + group
    {
      for i := 0 to |group|
        invariant entries == old(entries) + group[..i] && Valid()
      {
        var e := group[i];
        assert forall m :: 0 <= m < |entries| ==> entries[m].key != e.key;
        entries, byKey := entries + [e], byKey[e.key := e];
      }
      assert group[..|group|] == group;
    }

    lemma {:induction false} KeysAreIndexed()
      requires Valid()
      ensures forall k :: k in byKey <==> HasKey(entries, k)
    {}

    /** Entries of one reference, oldest first. */
    method ReadRef(refType: RefType, refId: RefId) returns (r: seq<Entry>)
      ensures r == ByRef(entries, refType, refId)
    {
      r := [];
      for i := 0 to |entries|
        invariant r == ByRef(entries[..i], refType, refId)
      {
        assert entries[..i + 1] == entries[..i] + [entries[i]];
        if entries[i].refType == refType && entries[i].refId == refId {
          r := r + [entries[i]];
        }
      }
      assert entries[..|entries|] == entries;
    }

    /** Adds up the account's entries, checking the range at every step. */
    method ReadBalance(a: Account) returns (r: Checked<int>)
      ensures r == if NoOverflow(entries, AmountIn(a)) then Fine(EntryBalance(entries, a)) else MoneyError
    {
      var total := 0;
      assert entries[..0] == [];
      for i := 0 to |entries|
        invariant total == EntryBalance(entries[..i], a)
        invariant forall n {:trigger Sum(entries[..n], AmountIn(a))} :: 0 <= n <= i ==> InRange(Sum(entries[..n], AmountIn(a)))
      {
        SumPrefix(entries, i, AmountIn(a));
        if entries[i].account == a {
          total := total + entries[i].amount;
          if !InRange(total) {
            return MoneyError;
          }
        }
      }
      assert entries[..|entries|] == entries;
      r := Fine(total);
    }
  }

  /* ---------- counting billed impressions on entries ---------- */

  /** Advertiser lines of impressions count one, reversed ones count back. */
  function BilledEntry(campaign: Id): Entry -> int { (e: Entry) => BilledValue(e, campaign) }

  function BilledValue(e: Entry, campaign: Id): int
  {
    if e.campaign != Some(campaign) || !e.account.Advertiser? then 0
    else if e.typ == ImpressionEntry then 1
    else if e.typ == ReversalEntry && e.amount > 0 then -1
    else 0
  }

  function EntryBilled(entries: seq<Entry>, campaign: Id): int { Sum(entries, BilledEntry(campaign)) }

  /** An impression group counts once for its campaign; payments, and the reversals of payments, count nothing. */
  lemma {:induction false} GroupBilled(j: seq<Posting>, k: nat, campaign: Id)
    requires PayoutShape(j) && k < |j|
    ensures EntryBilled(EntriesOf(j[k]), campaign) == BilledWeight(campaign)(j[k])
  {
    var g := EntriesOf(j[k]);
    assert Answers(j, k);
    if j[k].Shown? {
      SumThree(g[0], g[1], g[2], BilledEntry(campaign));
    } else {
      assert forall i :: 0 <= i < |g| ==> g[i].campaign.None?;
      SumZero(g, BilledEntry(campaign));
    }
  }

  /** So the count over entries is the count over the journal. */
  lemma {:induction false} BilledEntries(j: seq<Posting>, campaign: Id)
    requires PayoutShape(j)
    ensures EntryBilled(Expand(j), campaign) == Billed(j, campaign)
  {
    if |j| > 0 {
      var front, p := j[..|j| - 1], j[|j| - 1];
      assert j == front + [p];
      ShapeOfPrefix(front, p);
      GroupBilled(j, |front|, campaign);
      hide PayoutShape, EntriesOf, BilledValue;
      BilledEntries(front, campaign);
      SumConcat(Expand(front), EntriesOf(p), BilledEntry(campaign));
    }
  }

  /* ---------- the book ---------- */

  /** The sum `#post` forms over a group, checking the range at every step. */
  method Total(group: seq<Entry>) returns (r: Checked<int>)
    ensures r == if NoOverflow(group, Amounts()) then Fine(Sum(group, Amounts())) else MoneyError
  {
    var total := 0;
    assert group[..0] == [];
    for i := 0 to |group|
      invariant total == Sum(group[..i], Amounts())
      invariant forall n {:trigger Sum(group[..n], Amounts())} :: 0 <= n <= i ==> InRange(Sum(group[..n], Amounts()))
    {
      SumPrefix(group, i, Amounts());
      total := total + group[i].amount;
      if !InRange(total) {
        return MoneyError;
      }
    }
    assert group[..|group|] == group;
    r := Fine(total);
  }

  class Book {
    const store: MemoryLedgerStore
    var billed: Option<map<Id, int>>
    ghost var journal: seq<Posting>

    ghost predicate Valid()
      reads this, store
    {
      && store.Valid() && store.entries == Expand(journal) && SoundJournal(journal)
      && (billed.Some? ==>
            forall c {:trigger EntryBilled(store.entries, c)} ::
              (if c in billed.value then billed.value[c] else 0) == EntryBilled(store.entries, c))
    }

    constructor ()
      ensures Valid() && fresh(store) && journal == [] && billed.None?
    {
      store := new MemoryLedgerStore();
      billed, journal := None, [];
    }

    /** `balance` */
    method Balance(a: Account) returns (r: Checked<int>)
      requires Valid()
      ensures r == if NoOverflow(store.entries, AmountIn(a)) then Fine(Ledger.Balance(journal, a)) else MoneyError
    {
      r := store.ReadBalance(a);
      BalanceOfEntries(journal, a);
    }

    /** `billedImpressions`: rebuilt on the first read after a write, whatever campaign asks. */
    method BilledImpressions(campaign: Id) returns (n: int)
      requires Valid()
      modifies this`billed
      ensures Valid() && n == EntryBilled(store.entries, campaign)
      ensures PayoutShape(journal) ==> n == Billed(journal, campaign)
    {
      if billed.None? {
        var m: map<Id, int> := map[];
        var entries := store.entries;
        for i := 0 to |entries|
          invariant forall c {:trigger EntryBilled(entries[..i], c)} ::
                      (if c in m then m[c] else 0) == EntryBilled(entries[..i], c)
        {
          var e := entries[i];
          forall c ensures EntryBilled(entries[..i + 1], c) == EntryBilled(entries[..i], c) + BilledValue(e, c) {
            SumPrefix(entries, i, BilledEntry(c));
          }
          if e.campaign.Some? && e.account.Advertiser? {
            var c := e.campaign.value;
            var before := if c in m then m[c] else 0;
            assert before == EntryBilled(entries[..i], c);
            if e.typ == ImpressionEntry {
              m := m[c := before + 1];
            } else if e.typ == ReversalEntry && e.amount > 0 {
              m := m[c := before - 1];
            }
          }
          forall c ensures (if c in m then m[c] else 0) == EntryBilled(entries[..i + 1], c) {
            assert EntryBilled(entries[..i], c) + BilledValue(e, c) == EntryBilled(entries[..i + 1], c);
          }
        }
        assert entries[..|entries|] == entries;
        billed := Some(m);
      }
      assert (if campaign in billed.value then billed.value[campaign] else 0) == EntryBilled(store.entries, campaign);
      n := if campaign in billed.value then billed.value[campaign] else 0;
      if PayoutShape(journal) {
        BilledEntries(journal, campaign);
      }
    }

    /** `#post`: checks the balance of the group, drops the cached count, appends. */
    method Post(group: seq<Entry>, ghost p: Posting) returns (r: Result<seq<Entry>>)
      requires Valid() && SoundPosting(p) && group == EntriesOf(p)
      requires p.Reversal? ==> !HasId(journal, IdOf(p))
      modifies this, store
      ensures Valid()
      ensures !NoOverflow(group, Amounts()) ==> r == Err(OutOfRange) && journal == old(journal) && billed == old(billed)
      ensures NoOverflow(group, Amounts()) ==>
                r.Ok? && billed.None? && journal == Ledger.Post(old(journal), p) && |r.value| == |group|
                && forall i :: 0 <= i < |group| ==> r.value[i] in store.entries && r.value[i].key == group[i].key
    {
      var total := Total(group);
      if total.MoneyError? {
        return Err(OutOfRange);
      }
      GroupBalances(p);
      if total.value != 0 {
        assert false;
        return Err(Unbalanced);
      }
      r := Write(group, p);
    }

    /** The cached count is dropped before the group reaches the store. */
    method Write(group: seq<Entry>, ghost p: Posting) returns (r: Result<seq<Entry>>)
      requires Valid() && SoundPosting(p) && group == EntriesOf(p)
      requires p.Reversal? ==> !HasId(journal, IdOf(p))
      modifies this, store
      ensures Valid() && r.Ok? && billed.None? && journal == Ledger.Post(old(journal), p) && |r.value| == |group|
      ensures forall i :: 0 <= i < |group| ==> r.value[i] in store.entries && r.value[i].key == group[i].key
    {
      GroupKeys(p);
      KeysMatchIds(journal, p);
      billed := None;
      r := store.Append(group);
      ExpandAppend(journal, p);
      journal := Ledger.Post(journal, p);
    }

    /** `deposit` */
    method Deposit(advertiser: Id, amount: Stroops, topup: Id) returns (r: Result<seq<Entry>>)
      requires Valid()
      modifies this, store
      ensures Valid()
      ensures amount <= 0 ==> r == Err(NotPositive) && journal == old(journal)
      ensures amount > 0 ==> r.Ok? && journal == Ledger.Post(old(journal), Topup(topup, advertiser, amount))
    {
      if amount <= 0 {
        return Err(NotPositive);
      }
      ghost var p := Topup(topup, advertiser, amount);
      var credit: int := amount;
      var g := [Entry(Advertiser(advertiser), credit, DepositEntry, TopupRef, Plain(topup), TopupKey(topup, OfAdvertiser), None, None, None),
                Entry(ExternalCash, -credit, DepositEntry, TopupRef, Plain(topup), TopupKey(topup, OfCash), None, None, None)];
      PartsOfTwo(g);
      r := Post(g, p);
    }

    /** `postImpression`: platform takes the remainder of the split. */
    method PostImpression(id: Id, advertiser: Id, publisher: Id, campaign: Id, rate: Stroops, bps: int)
      returns (r: Result<seq<Entry>>)
      requires Valid()
      modifies this, store
      ensures Valid()
      ensures rate < 0 || !ValidShare(bps) ==> r.Err? && journal == old(journal)
      ensures rate >= 0 && ValidShare(bps) ==>
                r.Ok? && journal == Ledger.Post(old(journal), Shown(id, advertiser, publisher, campaign, rate, bps))
    {
      if rate < 0 {
        return Err(NotPositive);
      }
      var split := SplitRevenue(rate, bps);
      if split.MoneyError? {
        return Err(OutOfRange);
      }
      var (share, rest) := split.value;
      var debit: int := rate;
      ghost var p := Shown(id, advertiser, publisher, campaign, rate, bps);
      var g := [Entry(Advertiser(advertiser), -debit, ImpressionEntry, ImpressionRef, Plain(id), ImpressionKey(id, OfAdvertiser),
                      Some(campaign), Some(publisher), Some(rate)),
                Entry(Publisher(publisher), share, ImpressionEntry, ImpressionRef, Plain(id), ImpressionKey(id, OfPublisher),
                      Some(campaign), Some(publisher), Some(rate)),
                Entry(PlatformRevenue, rest, ImpressionEntry, ImpressionRef, Plain(id), ImpressionKey(id, OfPlatform),
                      Some(campaign), Some(publisher), Some(rate))];
      PartsOfThree(g);
      r := Post(g, p);
    }

    /** `payoutSubmit`: refuses to overdraw, except that a repeat of the same payout passes. */
    method PayoutSubmit(kind: Kind, batch: Id, owner: Id, amount: Stroops) returns (r: Result<seq<Entry>>)
      requires Valid()
      modifies this, store
      ensures Valid()
      ensures var from := Source(kind, owner);
              var first := !HasId(old(journal), SubmitId(batch, owner));
              if amount <= 0 then r == Err(NotPositive) && journal == old(journal)
              else if first && !NoOverflow(old(store.entries), AmountIn(from)) then r == Err(OutOfRange) && journal == old(journal)
              else if first && Ledger.Balance(old(journal), from) < amount then r == Err(Overdraws) && journal == old(journal)
              else r.Ok? && journal == Ledger.Post(old(journal), Submitted(kind, batch, owner, amount))
    {
      if amount <= 0 {
        return Err(NotPositive);
      }
      var from := Source(kind, owner);
      ghost var p := Submitted(kind, batch, owner, amount);
      KeysMatchIds(journal, p);
      store.KeysAreIndexed();
      assert EntriesOf(p)[0].key == SubmitKey(batch, owner, OfPublisher);
      if SubmitKey(batch, owner, OfPublisher) !in store.byKey {
        var balance := Balance(from);
        if balance.MoneyError? {
          return Err(OutOfRange);
        }
        if balance.value < amount {
          return Err(Overdraws);
        }
      }
      var moved: int := amount;
      var g := [Entry(from, -moved, SubmitEntry, BatchRef, Payout(batch, owner), SubmitKey(batch, owner, OfPublisher),
                      None, Some(owner), None),
                Entry(PayoutsInFlight, moved, SubmitEntry, BatchRef, Payout(batch, owner), SubmitKey(batch, owner, OfInFlight),
                      None, Some(owner), None)];
      PartsOfTwo(g);
      r := Post(g, p);
    }

    /** `payoutSettled` */
    method PayoutSettled(batch: Id, owner: Id, amount: Stroops) returns (r: Result<seq<Entry>>)
      requires Valid()
      modifies this, store
      ensures Valid() && r.Ok? && journal == Ledger.Post(old(journal), Settled(batch, owner, amount))
    {
      ghost var p := Settled(batch, owner, amount);
      var moved: int := amount;
      var g := [Entry(PayoutsInFlight, -moved, SettledEntry, BatchRef, Payout(batch, owner), SettledKey(batch, owner, OfInFlight),
                      None, Some(owner), None),
                Entry(ExternalSettlement, moved, SettledEntry, BatchRef, Payout(batch, owner), SettledKey(batch, owner, OfExternal),
                      None, Some(owner), None)];
      PartsOfTwo(g);
      r := Post(g, p);
    }

    /** `reverse`: negates what is stored under the reference, once. */
    method Reverse(refType: RefType, refId: RefId) returns (r: Result<seq<Entry>>)
      requires Valid()
      modifies this, store
      ensures Valid()
      ensures var p := Reversal(refId, ByRef(old(store.entries), refType, refId));
              if p.original == [] then r == Err(NothingToReverse) && journal == old(journal)
              else if HasId(old(journal), ReversalId(refId)) then
                r == Ok(ByRef(store.entries, ReversalRef, ReversedRef(refId))) && journal == old(journal)
              else if NoOverflow(EntriesOf(p), Amounts()) then r.Ok? && journal == old(journal) + [p]
              else r == Err(OutOfRange) && journal == old(journal)
    {
      var original := store.ReadRef(refType, refId);
      if |original| == 0 {
        return Err(NothingToReverse);
      }
      var existing := store.ReadRef(ReversalRef, ReversedRef(refId));
      ReversedIffPresent(journal, refId);
      if |existing| > 0 {
        return Ok(existing);
      }
      ReversalIsSound(journal, refType, refId);
      var g := seq(|original|, i requires 0 <= i < |original| => Negated(original[i]));
      r := Post(g, Reversal(refId, original));
    }
  }

  lemma {:induction false} PartsOfTwo(g: seq<Entry>)
    requires |g| == 2 && InRange(g[0].amount) && g[1].amount == -g[0].amount
    ensures NoOverflow(g, Amounts())
  {
    assert g[..0] == [] && g[..1] == [g[0]] && g[..2] == [g[0], g[1]];
    SumAppend([], g[0], Amounts());
    assert [] + [g[0]] == [g[0]];
    SumTwo(g[0], g[1], Amounts());
  }

  lemma {:induction false} PartsOfThree(g: seq<Entry>)
    requires |g| == 3 && InRange(g[0].amount) && InRange(g[0].amount + g[1].amount)
    requires g[0].amount + g[1].amount + g[2].amount == 0
    ensures NoOverflow(g, Amounts())
  {
    assert g[..0] == [] && g[..1] == [g[0]] && g[..2] == [g[0], g[1]] && g[..3] == [g[0], g[1], g[2]];
    SumAppend([], g[0], Amounts());
    assert [] + [g[0]] == [g[0]];
    SumTwo(g[0], g[1], Amounts());
    SumThree(g[0], g[1], g[2], Amounts());
  }

  /** The keys of a group are all stored or none is, according to whether its posting was made before. */
  lemma {:induction false} KeysMatchIds(j: seq<Posting>, p: Posting)
    requires SoundJournal(j) && SoundPosting(p)
    ensures !HasId(j, IdOf(p)) ==> forall i :: 0 <= i < |EntriesOf(p)| ==> !HasKey(Expand(j), EntriesOf(p)[i].key)
    ensures HasId(j, IdOf(p)) && !p.Reversal? ==>
              forall i :: 0 <= i < |EntriesOf(p)| ==> HasKey(Expand(j), EntriesOf(p)[i].key)
  {
    hide HasId, HasKey, EntriesOf, Expand, SoundJournal, SoundPosting, IdOf;
    forall i | 0 <= i < |EntriesOf(p)| ensures HasKey(Expand(j), EntriesOf(p)[i].key) ==> HasId(j, IdOf(p)) {
      StoredKeyHasId(j, p, i);
    }
    if HasId(j, IdOf(p)) && !p.Reversal? {
      forall i | 0 <= i < |EntriesOf(p)| ensures HasKey(Expand(j), EntriesOf(p)[i].key) {
        StoredIdHasKey(j, p, i);
      }
    }
  }

  lemma {:induction false} StoredKeyHasId(j: seq<Posting>, p: Posting, i: nat)
    requires SoundJournal(j) && SoundPosting(p) && i < |EntriesOf(p)|
    ensures HasKey(Expand(j), EntriesOf(p)[i].key) ==> HasId(j, IdOf(p))
  {
    GroupKeys(p);
    var entries, g := Expand(j), EntriesOf(p);
    if HasKey(entries, g[i].key) {
      var k :| 0 <= k < |entries| && entries[k].key == g[i].key;
      assert g[i] in g;
      EntryHasPosting(j, entries[k]);
    }
  }

  lemma {:induction false} StoredIdHasKey(j: seq<Posting>, p: Posting, i: nat)
    requires SoundJournal(j) && SoundPosting(p) && i < |EntriesOf(p)| && HasId(j, IdOf(p)) && !p.Reversal?
    ensures HasKey(Expand(j), EntriesOf(p)[i].key)
  {
    var k :| 0 <= k < |j| && IdOf(j[k]) == IdOf(p);
    SameIdSameKeys(j[k], p);
    hide EntriesOf, IdOf, SoundPosting, SoundJournal, Expand;
    PostingHasEntries(j, k, EntriesOf(j[k])[i]);
  }

  /** Postings of one id write the same keys, reversals aside. */
  lemma {:induction false} SameIdSameKeys(p: Posting, q: Posting)
    requires IdOf(p) == IdOf(q) && !q.Reversal?
    ensures |EntriesOf(p)| == |EntriesOf(q)|
    ensures forall i :: 0 <= i < |EntriesOf(q)| ==> EntriesOf(p)[i].key == EntriesOf(q)[i].key
  {}

  lemma {:induction false} ReversalLeavesEntries(j: seq<Posting>, refId: RefId)
    requires SoundJournal(j) && HasId(j, ReversalId(refId))
    ensures ByRef(Expand(j), ReversalRef, ReversedRef(refId)) != []
  {
    var k :| 0 <= k < |j| && IdOf(j[k]) == ReversalId(refId);
    var e := EntriesOf(j[k])[0];
    PostingHasEntries(j, k, e);
    assert UnderRef(ReversalRef, ReversedRef(refId))(e);
    assert e in ByRef(Expand(j), ReversalRef, ReversedRef(refId));
  }

  lemma {:induction false} ReversedEntryOf(p: Posting, e: Entry, refId: RefId)
    requires e in EntriesOf(p) && e.refType == ReversalRef && e.refId == ReversedRef(refId) && SoundPosting(p)
    ensures IdOf(p) == ReversalId(refId)
  {}

  lemma {:induction false} ReversedIffPresent(j: seq<Posting>, refId: RefId)
    requires SoundJournal(j)
    ensures HasId(j, ReversalId(refId)) <==> ByRef(Expand(j), ReversalRef, ReversedRef(refId)) != []
  {
    var found := ByRef(Expand(j), ReversalRef, ReversedRef(refId));
    if HasId(j, ReversalId(refId)) {
      ReversalLeavesEntries(j, refId);
    }
    if found != [] {
      var e := found[0];
      assert e in found;
      EntryHasPosting(j, e);
      hide EntriesOf, Expand, IdOf, IdOfKey;
      var k :| 0 <= k < |j| && e in EntriesOf(j[k]);
      ReversedEntryOf(j[k], e, refId);
    }
  }
}
