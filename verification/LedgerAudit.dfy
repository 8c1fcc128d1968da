/** The read-only reports of the ledger: `audit` and `inFlightFrom`, as the loops that compute them. */
module LedgerAudit {
  import opened Money
  import opened Sums
  import opened Ledger
  import opened LedgerFacts
  import opened LedgerBounds
  import opened LedgerBook

  datatype Ref = Ref(typ: RefType, id: RefId)
  datatype Problem = RefNotZero(ref: Ref) | BelowZero(account: Account) | RepeatedKey(key: Key)

  function At<K>(m: map<K, int>, k: K): int { if k in m then m[k] else 0 }

  function RefOf(): Entry -> Ref { (e: Entry) => Ref(e.refType, e.refId) }
  function AccountOf(): Entry -> Account { (e: Entry) => e.account }

  /** The amounts filed under key k. */
  function Filed<K(==)>(keyOf: Entry -> K, k: K): Entry -> int { (e: Entry) => if keyOf(e) == k then e.amount else 0 }

  ghost predicate AllInRange<K(!new)>(entries: seq<Entry>, keyOf: Entry -> K)
  {
    forall k {:trigger Filed(keyOf, k)} :: NoOverflow(entries, Filed(keyOf, k))
  }

  lemma {:induction false} NoOverflowStep(entries: seq<Entry>, i: nat, w: Entry -> int)
    requires i < |entries|
    ensures NoOverflow(entries[..i + 1], w) <==> NoOverflow(entries[..i], w) && InRange(Sum(entries[..i + 1], w))
  {
    var p, q := entries[..i], entries[..i + 1];
    assert forall n :: 0 <= n <= i ==> p[..n] == q[..n];
    assert q[..i + 1] == q;
    if NoOverflow(q, w) {
      assert forall n {:trigger Sum(p[..n], w)} :: 0 <= n <= i ==> InRange(Sum(q[..n], w));
    }
  }

  lemma {:induction false} NoOverflowWhole(entries: seq<Entry>, w: Entry -> int)
    requires NoOverflow(entries, w)
    ensures InRange(Sum(entries, w))
  {
    assert entries[..|entries|] == entries;
  }

  lemma {:induction false} NoOverflowSame(entries: seq<Entry>, w: Entry -> int, v: Entry -> int)
    requires forall e :: w(e) == v(e)
    ensures NoOverflow(entries, w) <==> NoOverflow(entries, v)
  {
    forall n | 0 <= n <= |entries| ensures Sum(entries[..n], w) == Sum(entries[..n], v) {
      SumSame(entries[..n], w, v);
    }
  }

  /** Totals per key, added up entry by entry. */
  method Totals<K(==,!new)>(entries: seq<Entry>, keyOf: Entry -> K) returns (r: Checked<map<K, int>>)
    ensures r.Fine? <==> AllInRange(entries, keyOf)
    ensures r.Fine? ==> forall k {:trigger Filed(keyOf, k)} :: At(r.value, k) == Sum(entries, Filed(keyOf, k))
  {
    var m: map<K, int> := map[];
    for i := 0 to |entries|
      invariant forall k {:trigger Filed(keyOf, k)} :: At(m, k) == Sum(entries[..i], Filed(keyOf, k))
      invariant AllInRange(entries[..i], keyOf)
    {
      var k := keyOf(entries[i]);
      var total := At(m, k) + entries[i].amount;
      forall q ensures Sum(entries[..i + 1], Filed(keyOf, q)) == Sum(entries[..i], Filed(keyOf, q)) + (if q == k then entries[i].amount else 0) {
        SumPrefix(entries, i, Filed(keyOf, q));
      }
      if !InRange(total) {
        assert Sum(entries[..i + 1], Filed(keyOf, k)) == total;
        return MoneyError;
      }
      forall q ensures NoOverflow(entries[..i + 1], Filed(keyOf, q)) {
        NoOverflowWhole(entries[..i], Filed(keyOf, q));
        NoOverflowStep(entries, i, Filed(keyOf, q));
      }
      m := m[k := total];
    }
    assert entries[..|entries|] == entries;
    r := Fine(m);
  }

  /** Repeated keys, in the order they are met. */
  method RepeatedKeys(entries: seq<Entry>) returns (problems: seq<Problem>)
    ensures problems == [] <==> DistinctKeys(entries)
  {
    var seen: set<Key> := {};
    problems := [];
    for i := 0 to |entries|
      invariant forall k :: k in seen <==> HasKey(entries[..i], k)
      invariant problems == [] <==> DistinctKeys(entries[..i])
    {
      var k := entries[i].key;
      assert entries[..i + 1] == entries[..i] + [entries[i]];
      if k in seen {
        var m :| 0 <= m < i && entries[..i][m].key == k;
        assert entries[..i + 1][m].key == entries[..i + 1][i].key;
        problems := problems + [RepeatedKey(k)];
      }
      seen := seen + {k};
    }
    assert entries[..|entries|] == entries;
  }

  method NonZeroRefs(totals: map<Ref, int>) returns (problems: seq<Problem>)
    ensures problems == [] <==> forall r :: At(totals, r) == 0
  {
    problems := [];
    var left := totals.Keys;
    while left != {}
      invariant left <= totals.Keys
      invariant problems == [] <==> forall r :: r in totals.Keys - left ==> totals[r] == 0
    {
      var r :| r in left;
      left := left - {r};
      if totals[r] != 0 {
        problems := problems + [RefNotZero(r)];
      }
    }
    assert forall r :: r in totals ==> At(totals, r) == totals[r];
  }

  method NegativeAccounts(totals: map<Account, int>) returns (problems: seq<Problem>)
    ensures problems == [] <==> forall a :: Internal(a) ==> 0 <= At(totals, a)
  {
    problems := [];
    var left := totals.Keys;
    while left != {}
      invariant left <= totals.Keys
      invariant problems == [] <==> forall a :: a in totals.Keys - left && Internal(a) ==> 0 <= totals[a]
    {
      var a :| a in left;
      left := left - {a};
      if totals[a] < 0 && Internal(a) {
        problems := problems + [BelowZero(a)];
      }
    }
    assert forall a :: a in totals ==> At(totals, a) == totals[a];
  }

  /**
    `audit`, on any entries whatever: the list is empty exactly when the three rules hold, and a
    MoneyError can only come from a running total outside 64 bits.
    */
  method Audit(entries: seq<Entry>) returns (r: Checked<seq<Problem>>)
    ensures r.Fine? <==> AllInRange(entries, RefOf()) && AllInRange(entries, AccountOf())
    ensures r.Fine? ==> (r.value == [] <==> AuditClean(entries))
  {
    var refs := Totals(entries, RefOf());
    if refs.MoneyError? {
      return MoneyError;
    }
    var accounts := Totals(entries, AccountOf());
    if accounts.MoneyError? {
      return MoneyError;
    }
    var p1 := NonZeroRefs(refs.value);
    var p2 := NegativeAccounts(accounts.value);
    var p3 := RepeatedKeys(entries);
    RulesOfTotals(entries, refs.value, accounts.value);
    r := Fine(p1 + p2 + p3);
  }

  lemma {:induction false} RulesOfTotals(entries: seq<Entry>, refs: map<Ref, int>, accounts: map<Account, int>)
    requires forall k {:trigger Filed(RefOf(), k)} :: At(refs, k) == Sum(entries, Filed(RefOf(), k))
    requires forall k {:trigger Filed(AccountOf(), k)} :: At(accounts, k) == Sum(entries, Filed(AccountOf(), k))
    ensures (forall r :: At(refs, r) == 0) <==> ZeroSumRefs(entries)
    ensures (forall a :: Internal(a) ==> 0 <= At(accounts, a)) <==> (forall a :: Internal(a) ==> 0 <= EntryBalance(entries, a))
  {
    forall t, id ensures At(refs, Ref(t, id)) == Sum(entries, AmountUnder(t, id)) {
      SumSame(entries, Filed(RefOf(), Ref(t, id)), AmountUnder(t, id));
    }
    if ZeroSumRefs(entries) {
      forall r ensures At(refs, r) == 0 {
        assert r == Ref(r.typ, r.id);
        assert Sum(entries, AmountUnder(r.typ, r.id)) == 0;
      }
    }
    forall a ensures At(accounts, a) == EntryBalance(entries, a) {
      SumSame(entries, Filed(AccountOf(), a), AmountIn(a));
    }
  }

  /** `inFlightFrom`: first the references of the account's payouts, then what the box holds under them. */
  method InFlight(entries: seq<Entry>, from: Account) returns (r: Checked<int>)
    ensures r.Fine? <==> NoOverflow(entries, InBoxUnder(AmongRefs(RefsFrom(entries, from))))
    ensures r.Fine? ==> r.value == InFlightFrom(entries, from)
  {
    var refs: set<RefId> := {};
    for i := 0 to |entries|
      invariant refs == RefsFrom(entries[..i], from)
    {
      assert entries[..i + 1] == entries[..i] + [entries[i]];
      if entries[i].typ == SubmitEntry && entries[i].account == from {
        refs := refs + {entries[i].refId};
      }
    }
    assert entries[..|entries|] == entries;
    ghost var w := InBoxUnder(AmongRefs(refs));
    var total := 0;
    for i := 0 to |entries|
      invariant total == Sum(entries[..i], w) && NoOverflow(entries[..i], w)
    {
      SumPrefix(entries, i, w);
      NoOverflowStep(entries, i, w);
      NoOverflowWhole(entries[..i], w);
      if entries[i].account == PayoutsInFlight {
        var ref := Stripped(entries[i]);
        if ref in refs {
          total := total + entries[i].amount;
          if !InRange(total) {
            return MoneyError;
          }
        }
      }
    }
    r := Fine(total);
  }

  /* ---------- no report of a sound ledger overflows ---------- */

  lemma {:induction false} NoOverflowInJournal(j: seq<Posting>)
    requires SoundJournal(j) && PayoutShape(j) && AlwaysSolvent(j) && Deposits(j) <= MAX_STROOPS
    ensures forall a {:trigger AmountIn(a)} :: NoOverflow(Expand(j), AmountIn(a))
    ensures AllInRange(Expand(j), RefOf()) && AllInRange(Expand(j), AccountOf())
    ensures forall a {:trigger RefsFrom(Expand(j), a)} :: NoOverflow(Expand(j), InBoxUnder(AmongRefs(RefsFrom(Expand(j), a))))
    ensures forall k :: 0 <= k < |j| ==> NoOverflow(EntriesOf(j[k]), Amounts())
  {
    var entries := Expand(j);
    forall a ensures NoOverflow(entries, AmountIn(a)) && NoOverflow(entries, Filed(AccountOf(), a)) {
      forall n | 0 <= n <= |entries| ensures InRange(Sum(entries[..n], AmountIn(a))) {
        BalanceNeverOverflows(j, n, a);
      }
      NoOverflowSame(entries, AmountIn(a), Filed(AccountOf(), a));
    }
    forall r: Ref ensures NoOverflow(entries, Filed(RefOf(), r)) {
      forall n | 0 <= n <= |entries| ensures InRange(Sum(entries[..n], AmountUnder(r.typ, r.id))) {
        RefTotalNeverOverflows(j, n, r.typ, r.id);
      }
      NoOverflowSame(entries, AmountUnder(r.typ, r.id), Filed(RefOf(), r));
    }
    forall a ensures NoOverflow(entries, InBoxUnder(AmongRefs(RefsFrom(entries, a)))) {
      forall n | 0 <= n <= |entries| ensures InRange(Sum(entries[..n], InBoxUnder(AmongRefs(RefsFrom(entries, a))))) {
        InFlightNeverOverflows(j, n, AmongRefs(RefsFrom(entries, a)));
      }
    }
    forall k | 0 <= k < |j| ensures NoOverflow(EntriesOf(j[k]), Amounts()) {
      forall m | 0 <= m <= |EntriesOf(j[k])| ensures InRange(Sum(EntriesOf(j[k])[..m], Amounts())) {
        MovesAtMost(j, k, m);
      }
    }
  }
}
