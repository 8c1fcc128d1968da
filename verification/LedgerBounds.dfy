/**
  While the deposits made so far fit in 64 bits, every running total the ledger forms does too:
  a balance never raises a MoneyError, at any entry of the accumulating loop.
  */
module LedgerBounds {
  import opened Money
  import opened Sums
  import opened Ledger
  import opened LedgerFacts

  /** No internal account was below zero after any posting. */
  ghost predicate AlwaysSolvent(j: seq<Posting>)
  {
    forall n, a {:trigger Balance(j[..n], a)} :: 0 <= n <= |j| && Internal(a) ==> 0 <= Balance(j[..n], a)
  }

  /** The audit of `Ledger.audit`: an empty list of problems. */
  ghost predicate AuditClean(entries: seq<Entry>)
  {
    && ZeroSumRefs(entries)
    && (forall a :: Internal(a) ==> 0 <= EntryBalance(entries, a))
    && DistinctKeys(entries)
  }

  lemma {:induction false} AuditIsClean(j: seq<Posting>)
    requires SoundJournal(j) && AlwaysSolvent(j)
    ensures AuditClean(Expand(j))
  {
    RefsSumToZero(j);
    KeysAreUnique(j);
    assert j[..|j|] == j;
    forall a | Internal(a) ensures 0 <= EntryBalance(Expand(j), a) {
      BalanceOfEntries(j, a);
    }
  }

  function Deposits(j: seq<Posting>): int { -Balance(j, ExternalCash) }

  function InAny(accounts: set<Account>): Entry -> int
  {
    (e: Entry) => if e.account in accounts then e.amount else 0
  }

  lemma {:induction false} TotalOfSome(entries: seq<Entry>, accounts: set<Account>)
    requires forall a :: a in accounts ==> 0 <= EntryBalance(entries, a)
    ensures 0 <= Sum(entries, InAny(accounts))
  {
    if accounts == {} {
      SumZero(entries, InAny(accounts));
    } else {
      var a :| a in accounts;
      TotalOfSome(entries, accounts - {a});
      SumAdd(entries, InAny(accounts - {a}), AmountIn(a), InAny(accounts));
    }
  }

  lemma {:induction false} AmountsSumToZero(j: seq<Posting>)
    requires SoundJournal(j)
    ensures Sum(Expand(j), Amounts()) == 0
  {
    if |j| > 0 {
      var front, p := j[..|j| - 1], j[|j| - 1];
      AmountsSumToZero(front);
      GroupBalances(p);
      SumConcat(Expand(front), EntriesOf(p), Amounts());
    }
  }

  ghost function InternalBut(entries: seq<Entry>, a: Account): set<Account>
  {
    set e | e in entries && Internal(e.account) && e.account != a :: e.account
  }

  lemma {:induction false} SplitByAccount(entries: seq<Entry>, a: Account)
    requires Internal(a)
    ensures Sum(entries, Amounts()) ==
            Sum(entries, InAny(InternalBut(entries, a))) + EntryBalance(entries, a)
            + EntryBalance(entries, ExternalCash) + EntryBalance(entries, ExternalSettlement)
  {
    var others := InternalBut(entries, a);
    SumAdd(entries, InAny(others), AmountIn(a), InAny(others + {a}));
    SumAdd(entries, AmountIn(ExternalCash), AmountIn(ExternalSettlement), InAny({ExternalCash, ExternalSettlement}));
    forall i | 0 <= i < |entries|
      ensures Amounts()(entries[i]) ==
              InAny(others + {a})(entries[i]) + InAny({ExternalCash, ExternalSettlement})(entries[i]) {
      assert entries[i] in entries;
      assert Internal(entries[i].account) ==> entries[i].account in others + {a};
    }
    SumAdd(entries, InAny(others + {a}), InAny({ExternalCash, ExternalSettlement}), Amounts());
  }

  /** An internal account holds at most what was deposited and has not left the system. */
  lemma {:induction false} HeldAtMost(j: seq<Posting>, a: Account)
    requires SoundJournal(j) && Internal(a)
    requires forall b :: Internal(b) ==> 0 <= Balance(j, b)
    ensures Balance(j, a) <= Deposits(j) - Balance(j, ExternalSettlement)
  {
    var entries := Expand(j);
    forall b ensures EntryBalance(entries, b) == Balance(j, b) {
      BalanceOfEntries(j, b);
    }
    TotalOfSome(entries, InternalBut(entries, a));
    SplitByAccount(entries, a);
    AmountsSumToZero(j);
  }

  /** A posting writes each account at most once. */
  ghost predicate DistinctAccounts(g: seq<Entry>)
  {
    forall i, k :: 0 <= i < k < |g| ==> g[i].account != g[k].account
  }

  lemma {:induction false} GroupAccounts(j: seq<Posting>, i: nat)
    requires PayoutShape(j) && i < |j|
    ensures DistinctAccounts(EntriesOf(j[i]))
  {
    assert Answers(j, i);
    if j[i].Reversal? {
      var k :| 0 <= k < i && IsSubmit(j[k], j[i].refId.batch, j[i].refId.owner) && j[i].original == EntriesOf(j[k]);
    }
  }

  /** The weight counts entries of one account only. */
  ghost predicate OnlyOn(w: Entry -> int, a: Account) { forall e: Entry :: e.account != a ==> w(e) == 0 }

  /** So what is read of one account in the middle of a group is what was there before or after it. */
  lemma {:induction false} PartOfGroup(g: seq<Entry>, m: nat, a: Account, w: Entry -> int)
    requires DistinctAccounts(g) && m <= |g| && OnlyOn(w, a)
    ensures Sum(g[..m], w) == 0 || Sum(g[..m], w) == Sum(g, w)
  {
    if m == |g| {
      assert g[..m] == g;
    } else {
      var front, last := g[..|g| - 1], g[|g| - 1];
      assert g[..m] == front[..m];
      PartOfGroup(front, m, a, w);
      if last.account == a {
        SumZero(front, w);
      }
    }
  }

  /** Any prefix of the entries is a whole number of groups and part of the next. */
  lemma {:induction false} PrefixParts(j: seq<Posting>, k: nat) returns (n: nat, m: nat)
    requires k <= |Expand(j)|
    ensures n <= |j| && m <= (if n < |j| then |EntriesOf(j[n])| else 0)
    ensures Expand(j)[..k] == Expand(j[..n]) + (if n < |j| then EntriesOf(j[n])[..m] else [])
  {
    if |j| == 0 {
      n, m := 0, 0;
    } else {
      var front := j[..|j| - 1];
      var head := Expand(front);
      if k < |head| {
        n, m := PrefixParts(front, k);
        assert front[..n] == j[..n];
        assert Expand(j)[..k] == head[..k];
      } else {
        n, m := |front|, k - |head|;
        assert Expand(j)[..k] == head + EntriesOf(j[n])[..m];
      }
    }
  }

  /** One account's share of any prefix is its share of some number of whole groups. */
  lemma {:induction false} PrefixIsWhole(j: seq<Posting>, k: nat, a: Account, w: Entry -> int) returns (n: nat)
    requires PayoutShape(j) && k <= |Expand(j)| && OnlyOn(w, a)
    ensures n <= |j| && Sum(Expand(j)[..k], w) == Sum(Expand(j[..n]), w)
  {
    var m: nat;
    n, m := PrefixParts(j, k);
    if n < |j| {
      var g := EntriesOf(j[n]);
      SumConcat(Expand(j[..n]), g[..m], w);
      GroupAccounts(j, n);
      PartOfGroup(g, m, a, w);
      if Sum(g[..m], w) != 0 {
        assert j[..n + 1][..n] == j[..n];
        SumConcat(Expand(j[..n]), g, w);
        n := n + 1;
      }
    } else {
      assert Expand(j[..n]) + [] == Expand(j[..n]);
    }
  }

  lemma {:induction false} ExternalBalances(j: seq<Posting>)
    requires SoundJournal(j) && PayoutShape(j)
    ensures 0 <= Balance(j, ExternalSettlement) && 0 <= Deposits(j)
    ensures |j| > 0 ==> Deposits(j[..|j| - 1]) <= Deposits(j)
  {
    if |j| > 0 {
      var n := |j| - 1;
      var front, p := j[..n], j[n];
      assert j == front + [p];
      ShapeOfPrefix(front, p);
      ExternalBalances(front);
      OutwardOnly(j, n);
      hide SoundJournal, PayoutShape, EffectOf;
    }
  }

  /** Money never comes back from a settlement, and deposits are never taken back. */
  lemma {:induction false} OutwardOnly(j: seq<Posting>, n: nat)
    requires SoundJournal(j) && PayoutShape(j) && n < |j|
    ensures 0 <= EffectOf(j[n], ExternalSettlement) && EffectOf(j[n], ExternalCash) <= 0
  {
    var p := j[n];
    assert Answers(j, n);
    if p.Settled? {
      var k :| 0 <= k < n && IsSubmit(j[k], p.batch, p.owner) && j[k].amount == p.amount;
      assert SoundPosting(j[k]);
    }
    if p.Reversal? {
      var k :| 0 <= k < n && IsSubmit(j[k], p.refId.batch, p.refId.owner) && p.original == EntriesOf(j[k]);
      SumTwo(p.original[0], p.original[1], AmountIn(ExternalSettlement));
      SumTwo(p.original[0], p.original[1], AmountIn(ExternalCash));
    }
  }

  lemma {:induction false} DepositsOfPrefix(j: seq<Posting>, n: nat)
    requires SoundJournal(j) && PayoutShape(j) && n <= |j|
    ensures SoundJournal(j[..n]) && PayoutShape(j[..n]) && Deposits(j[..n]) <= Deposits(j)
  {
    if n == |j| {
      assert j[..n] == j;
    } else {
      var front := j[..|j| - 1];
      assert j == front + [j[|j| - 1]];
      ShapeOfPrefix(front, j[|j| - 1]);
      ExternalBalances(j);
      DepositsOfPrefix(front, n);
      assert front[..n] == j[..n];
    }
  }

  /** The running total of `balance` stays within the deposits, whichever account and however far the loop is. */
  lemma {:induction false} BalanceNeverOverflows(j: seq<Posting>, k: nat, a: Account)
    requires SoundJournal(j) && PayoutShape(j) && AlwaysSolvent(j)
    requires k <= |Expand(j)| && Deposits(j) <= MAX_STROOPS
    ensures InRange(EntryBalance(Expand(j)[..k], a))
    ensures Internal(a) ==> 0 <= EntryBalance(Expand(j)[..k], a) <= Deposits(j)
  {
    var n := PrefixIsWhole(j, k, a, AmountIn(a));
    BalanceOfEntries(j[..n], a);
    PrefixHolds(j, n, a);
  }

  /** What a prefix of the journal holds on one account. */
  lemma {:induction false} PrefixHolds(j: seq<Posting>, n: nat, a: Account)
    requires SoundJournal(j) && PayoutShape(j) && AlwaysSolvent(j) && n <= |j|
    ensures -Deposits(j) <= Balance(j[..n], a) <= Deposits(j)
    ensures Internal(a) ==> 0 <= Balance(j[..n], a)
  {
    DepositsOfPrefix(j, n);
    var part := j[..n];
    ExternalBalances(part);
    assert forall b :: Internal(b) ==> 0 <= Balance(part, b);
    HeldAtMost(part, PlatformRevenue);
    if Internal(a) {
      HeldAtMost(part, a);
    }
  }

  /** What one posting moves was there before it, or was deposited by it. */
  lemma {:induction false} MovesAtMost(j: seq<Posting>, n: nat, m: nat)
    requires SoundJournal(j) && PayoutShape(j) && AlwaysSolvent(j) && n < |j| && m <= |EntriesOf(j[n])|
    ensures -Deposits(j) <= Sum(EntriesOf(j[n])[..m], Amounts()) <= Deposits(j)
  {
    var p, g := j[n], EntriesOf(j[n]);
    PartAmounts(j, n, m);
    forall a ensures Balance(j[..n + 1], a) == Balance(j[..n], a) + EffectOf(p, a) {
      SumPrefix(j, n, Effect(a));
    }
    forall a ensures -Deposits(j) <= Balance(j[..n], a) <= Deposits(j) && (Internal(a) ==> 0 <= Balance(j[..n + 1], a)) {
      PrefixHolds(j, n, a);
      PrefixHolds(j, n + 1, a);
    }
    PrefixHolds(j, n + 1, ExternalCash);
    DepositsOfPrefix(j, n);
    ExternalBalances(j[..n]);
  }

  /** The part of a group written so far is worth at most what leaves, or enters, one account. */
  lemma {:induction false} PartAmounts(j: seq<Posting>, n: nat, m: nat)
    requires SoundJournal(j) && PayoutShape(j) && n < |j| && m <= |EntriesOf(j[n])|
    ensures var x, p := Sum(EntriesOf(j[n])[..m], Amounts()), j[n];
            match p
            case Topup(_, _, amount) => x == 0 || x == -EffectOf(p, ExternalCash)
            case Shown(_, adv, _, _, _, _) => EffectOf(p, Advertiser(adv)) <= x <= 0
            case Submitted(kind, _, owner, _) => x == 0 || (x == EffectOf(p, Source(kind, owner)) && x < 0)
            case Settled(_, _, _) => x == 0 || (x == EffectOf(p, PayoutsInFlight) && x < 0)
            case Reversal(_, _) => x == 0 || (x == -EffectOf(p, PayoutsInFlight) && x > 0)
  {
    var p, g := j[n], EntriesOf(j[n]);
    assert Answers(j, n) && SoundPosting(p);
    match p {
      case Shown(_, _, _, _, rate, bps) =>
        ShareBounds(rate, bps);
        PartOfThree(g, m);
      case Reversal(r, original) =>
        var k :| 0 <= k < n && IsSubmit(j[k], r.batch, r.owner) && original == EntriesOf(j[k]);
        assert SoundPosting(j[k]);
        SumTwo(original[0], original[1], AmountIn(PayoutsInFlight));
        PartOfTwo(g, m);
      case Settled(b, o, _) =>
        var k :| 0 <= k < n && IsSubmit(j[k], b, o) && j[k].amount == p.amount;
        assert SoundPosting(j[k]);
        PartOfTwo(g, m);
      case _ => PartOfTwo(g, m);
    }
  }

  lemma {:induction false} PartOfTwo(g: seq<Entry>, m: nat)
    requires |g| == 2 && g[0].amount + g[1].amount == 0 && m <= 2
    ensures Sum(g[..m], Amounts()) == (if m == 1 then g[0].amount else 0)
  {
    assert g[..0] == [] && g[..1] == [] + [g[0]] && g[..2] == [g[0], g[1]];
    SumAppend([], g[0], Amounts());
    SumTwo(g[0], g[1], Amounts());
  }

  lemma {:induction false} PartOfThree(g: seq<Entry>, m: nat)
    requires |g| == 3 && g[0].amount + g[1].amount + g[2].amount == 0 && m <= 3
    ensures Sum(g[..m], Amounts()) == (if m == 1 then g[0].amount else if m == 2 then g[0].amount + g[1].amount else 0)
  {
    assert g[..0] == [] && g[..1] == [] + [g[0]] && g[..2] == [g[0], g[1]] && g[..3] == [g[0], g[1], g[2]];
    SumAppend([], g[0], Amounts());
    SumTwo(g[0], g[1], Amounts());
    SumThree(g[0], g[1], g[2], Amounts());
  }

  /** The total of `audit` for one reference, however far its loop is. */
  lemma {:induction false} RefTotalNeverOverflows(j: seq<Posting>, k: nat, refType: RefType, refId: RefId)
    requires SoundJournal(j) && PayoutShape(j) && AlwaysSolvent(j)
    requires k <= |Expand(j)| && Deposits(j) <= MAX_STROOPS
    ensures InRange(Sum(Expand(j)[..k], AmountUnder(refType, refId)))
  {
    var w := AmountUnder(refType, refId);
    var n, m := PrefixParts(j, k);
    DepositsOfPrefix(j, n);
    RefsSumToZero(j[..n]);
    assert Sum(Expand(j[..n]), w) == 0;
    ExternalBalances(j);
    if n < |j| {
      var part := EntriesOf(j[n])[..m];
      SumConcat(Expand(j[..n]), part, w);
      MovesAtMost(j, n, m);
      OneRefPerGroup(j[n], m, refType, refId);
    } else {
      SumConcat(Expand(j[..n]), [], w);
    }
  }

  lemma {:induction false} OneRefPerGroup(p: Posting, m: nat, refType: RefType, refId: RefId)
    requires SoundPosting(p) && m <= |EntriesOf(p)|
    ensures var part := EntriesOf(p)[..m];
            Sum(part, AmountUnder(refType, refId)) in {0, Sum(part, Amounts())}
  {
    var g := EntriesOf(p);
    var part := g[..m];
    assert forall i :: 0 <= i < |g| ==> g[i].refType == g[0].refType && g[i].refId == g[0].refId;
    if g[0].refType == refType && g[0].refId == refId {
      SumSame(part, AmountUnder(refType, refId), Amounts());
    } else {
      SumZero(part, AmountUnder(refType, refId));
    }
  }

  /** The running total of `inFlightFrom`, whichever references it collects. */
  lemma {:induction false} InFlightNeverOverflows(j: seq<Posting>, k: nat, chosen: RefId -> bool)
    requires SoundJournal(j) && PayoutShape(j) && AlwaysSolvent(j)
    requires k <= |Expand(j)| && Deposits(j) <= MAX_STROOPS
    ensures 0 <= Sum(Expand(j)[..k], InBoxUnder(chosen)) <= MAX_STROOPS
  {
    var n := PrefixIsWhole(j, k, PayoutsInFlight, InBoxUnder(chosen));
    var part := j[..n];
    DepositsOfPrefix(j, n);
    BoxHoldsOpen(part, chosen);
    BoxBalance(part);
    SumNonNegative(part, OpenUnder(part, chosen));
    SumMono(part, OpenUnder(part, chosen), OpenUnder(part, AnyRef()));
    PrefixHolds(j, n, PayoutsInFlight);
  }
}
