/**
  The double-entry ledger (packages/server/src/ledger/ledger.ts, memory-store.ts, accounts.ts).

  The stored form is a sequence of entries. The journal, a sequence of postings, is the view the
  proofs use: a posting is one group of entries written together, and `Expand` gives its entries.
  */
module Ledger {
  import opened Common
  import opened Money
  import opened Sums

  datatype Account =
    | Publisher(owner: Id)
    | Advertiser(owner: Id)
    | PlatformRevenue
    | PayoutsInFlight
    | ExternalCash
    | ExternalSettlement

  /** The four kinds whose balance may not go below zero (NON_NEGATIVE). */
  predicate Internal(a: Account) { !a.ExternalCash? && !a.ExternalSettlement? }

  datatype EntryType = ImpressionEntry | DepositEntry | SubmitEntry | SettledEntry | ReversalEntry
  datatype RefType = ImpressionRef | TopupRef | BatchRef | ReversalRef
  datatype RefId = Plain(id: Id) | Payout(batch: Id, owner: Id) | ReversedRef(of: RefId)
  datatype Side = OfAdvertiser | OfPublisher | OfPlatform | OfCash | OfInFlight | OfExternal

  /** Idempotency keys, as structured values instead of joined strings. */
  datatype Key =
    | TopupKey(topup: Id, side: Side)
    | ImpressionKey(impression: Id, side: Side)
    | SubmitKey(batch: Id, owner: Id, side: Side)
    | SettledKey(batch: Id, owner: Id, side: Side)
    | ReversalKey(of: Key)

  datatype Entry = Entry(
    account: Account,
    amount: int,
    typ: EntryType,
    refType: RefType,
    refId: RefId,
    key: Key,
    campaign: Option<Id>,
    publisher: Option<Id>,
    rate: Option<int>)

  datatype Kind = PublisherKind | AdvertiserKind | PlatformKind

  /** The account a payout of this kind leaves; platform revenue has no owner. */
  function Source(kind: Kind, owner: Id): Account
  {
    match kind
    case PublisherKind => Publisher(owner)
    case AdvertiserKind => Advertiser(owner)
    case PlatformKind => PlatformRevenue
  }

  datatype Posting =
    | Topup(topup: Id, advertiser: Id, amount: int)
    | Shown(impression: Id, advertiser: Id, publisher: Id, campaign: Id, rate: int, bps: int)
    | Submitted(kind: Kind, batch: Id, owner: Id, amount: int)
    | Settled(batch: Id, owner: Id, amount: int)
    | Reversal(refId: RefId, original: seq<Entry>)

  /** What makes a second write of the same group the same group. */
  datatype PostingId =
    | TopupId(topup: Id)
    | ShownId(impression: Id)
    | SubmitId(batch: Id, owner: Id)
    | SettleId(batch: Id, owner: Id)
    | ReversalId(refId: RefId)

  function IdOf(p: Posting): PostingId
  {
    match p
    case Topup(t, _, _) => TopupId(t)
    case Shown(i, _, _, _, _, _) => ShownId(i)
    case Submitted(_, b, o, _) => SubmitId(b, o)
    case Settled(b, o, _) => SettleId(b, o)
    case Reversal(r, _) => ReversalId(r)
  }

  function Negated(e: Entry): Entry
  {
    Entry(e.account, -e.amount, ReversalEntry, ReversalRef, ReversedRef(e.refId), ReversalKey(e.key),
          e.campaign, e.publisher, e.rate)
  }

  /** The group of entries each operation of the ledger writes. */
  function EntriesOf(p: Posting): seq<Entry>
  {
    match p
    case Topup(t, adv, amount) =>
      [Entry(Advertiser(adv), amount, DepositEntry, TopupRef, Plain(t), TopupKey(t, OfAdvertiser), None, None, None),
       Entry(ExternalCash, -amount, DepositEntry, TopupRef, Plain(t), TopupKey(t, OfCash), None, None, None)]
    case Shown(i, adv, pub, camp, rate, bps) =>
      var share := PublisherShare(rate, bps);
      [Entry(Advertiser(adv), -rate, ImpressionEntry, ImpressionRef, Plain(i), ImpressionKey(i, OfAdvertiser),
             Some(camp), Some(pub), Some(rate)),
       Entry(Publisher(pub), share, ImpressionEntry, ImpressionRef, Plain(i), ImpressionKey(i, OfPublisher),
             Some(camp), Some(pub), Some(rate)),
       Entry(PlatformRevenue, rate - share, ImpressionEntry, ImpressionRef, Plain(i), ImpressionKey(i, OfPlatform),
             Some(camp), Some(pub), Some(rate))]
    case Submitted(kind, b, o, amount) =>
      [Entry(Source(kind, o), -amount, SubmitEntry, BatchRef, Payout(b, o), SubmitKey(b, o, OfPublisher),
             None, Some(o), None),
       Entry(PayoutsInFlight, amount, SubmitEntry, BatchRef, Payout(b, o), SubmitKey(b, o, OfInFlight),
             None, Some(o), None)]
    case Settled(b, o, amount) =>
      [Entry(PayoutsInFlight, -amount, SettledEntry, BatchRef, Payout(b, o), SettledKey(b, o, OfInFlight),
             None, Some(o), None),
       Entry(ExternalSettlement, amount, SettledEntry, BatchRef, Payout(b, o), SettledKey(b, o, OfExternal),
             None, Some(o), None)]
    case Reversal(_, original) => seq(|original|, i requires 0 <= i < |original| => Negated(original[i]))
  }

  function Expand(j: seq<Posting>): seq<Entry>
  {
    if |j| == 0 then [] else Expand(j[..|j| - 1]) + EntriesOf(j[|j| - 1])
  }

  lemma {:induction false} ExpandAppend(j: seq<Posting>, p: Posting)
    ensures Expand(j + [p]) == Expand(j) + EntriesOf(p)
  {
    assert (j + [p])[..|j|] == j;
  }

  predicate HasId(j: seq<Posting>, id: PostingId) { exists i :: 0 <= i < |j| && IdOf(j[i]) == id }

  /** A first write appends the group; a repeated one changes nothing (memory-store.ts `append`). */
  function Post(j: seq<Posting>, p: Posting): seq<Posting>
  {
    if HasId(j, IdOf(p)) then j else j + [p]
  }

  /* ---------- reading a group back by its reference ---------- */

  function UnderRef(refType: RefType, refId: RefId): Entry -> bool
  {
    (e: Entry) => e.refType == refType && e.refId == refId
  }

  /** `byRef` */
  function ByRef(entries: seq<Entry>, refType: RefType, refId: RefId): seq<Entry>
  {
    Keep(entries, UnderRef(refType, refId))
  }

  /* ---------- balances ---------- */

  function AmountIn(a: Account): Entry -> int { (e: Entry) => if e.account == a then e.amount else 0 }

  /** `balance`: the sum of the account's entries. */
  function EntryBalance(entries: seq<Entry>, a: Account): int { Sum(entries, AmountIn(a)) }

  /** What one posting does to one account. */
  function EffectOf(p: Posting, a: Account): int
  {
    match p
    case Topup(_, adv, amount) =>
      (if a == Advertiser(adv) then amount else 0) - (if a == ExternalCash then amount else 0)
    case Shown(_, adv, pub, _, rate, bps) =>
      (if a == Publisher(pub) then PublisherShare(rate, bps) else 0)
      + (if a == PlatformRevenue then rate - PublisherShare(rate, bps) else 0)
      - (if a == Advertiser(adv) then rate else 0)
    case Submitted(kind, _, o, amount) =>
      (if a == PayoutsInFlight then amount else 0) - (if a == Source(kind, o) then amount else 0)
    case Settled(_, _, amount) =>
      (if a == ExternalSettlement then amount else 0) - (if a == PayoutsInFlight then amount else 0)
    case Reversal(_, original) => -EntryBalance(original, a)
  }

  function Effect(a: Account): Posting -> int { (p: Posting) => EffectOf(p, a) }

  function Balance(j: seq<Posting>, a: Account): int { Sum(j, Effect(a)) }

  function BilledWeight(campaign: Id): Posting -> int
  {
    (p: Posting) => if p.Shown? && p.campaign == campaign then 1 else 0
  }

  /** `billedImpressions`, on the journal */
  function Billed(j: seq<Posting>, campaign: Id): int { Sum(j, BilledWeight(campaign)) }

  lemma {:induction false} SumTwo<T>(x: T, y: T, w: T -> int)
    ensures Sum([x, y], w) == w(x) + w(y)
  {
    assert [x, y] == [x] + [y] && [x] == [] + [x];
    SumAppend([x], y, w);
    SumAppend([], x, w);
  }

  lemma {:induction false} SumThree<T>(x: T, y: T, z: T, w: T -> int)
    ensures Sum([x, y, z], w) == w(x) + w(y) + w(z)
  {
    assert [x, y, z] == [x, y] + [z];
    SumAppend([x, y], z, w);
    SumTwo(x, y, w);
  }

  lemma {:induction false} NegatedSum(original: seq<Entry>, refId: RefId, a: Account)
    ensures EntryBalance(EntriesOf(Reversal(refId, original)), a) == -EntryBalance(original, a)
  {
    var mirrored := EntriesOf(Reversal(refId, original));
    if |original| > 0 {
      var front := original[..|original| - 1];
      assert mirrored == EntriesOf(Reversal(refId, front)) + [Negated(original[|original| - 1])];
      SumAppend(EntriesOf(Reversal(refId, front)), Negated(original[|original| - 1]), AmountIn(a));
      NegatedSum(front, refId, a);
    }
  }

  /** The effect table above is what the written entries add up to. */
  lemma {:induction false} EntriesEffect(p: Posting, a: Account)
    ensures EntryBalance(EntriesOf(p), a) == EffectOf(p, a)
  {
    var g := EntriesOf(p);
    match p {
      case Topup(_, _, _) => SumTwo(g[0], g[1], AmountIn(a));
      case Shown(_, _, _, _, _, _) => SumThree(g[0], g[1], g[2], AmountIn(a));
      case Submitted(_, _, _, _) => SumTwo(g[0], g[1], AmountIn(a));
      case Settled(_, _, _) => SumTwo(g[0], g[1], AmountIn(a));
      case Reversal(refId, original) => NegatedSum(original, refId, a);
    }
  }

  /** The balance read from entries is the balance of the journal. */
  lemma {:induction false} BalanceOfEntries(j: seq<Posting>, a: Account)
    ensures EntryBalance(Expand(j), a) == Balance(j, a)
  {
    if |j| > 0 {
      BalanceOfEntries(j[..|j| - 1], a);
      EntriesEffect(j[|j| - 1], a);
      SumConcat(Expand(j[..|j| - 1]), EntriesOf(j[|j| - 1]), AmountIn(a));
    }
  }
}
