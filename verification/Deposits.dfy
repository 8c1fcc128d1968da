/** Crediting deposits by scanning the chain's payment history (packages/server/src/advertisers/deposits.ts). */
module Deposits {
  import opened Common
  import opened Money
  import opened Sums
  import opened Ledger
  import opened LedgerBook

  /** One record of the history; `topup` stands for the transaction hash and operation id together. */
  datatype Payment = Payment(
    topup: Id, isPayment: bool, toUs: bool, ourAsset: bool, successful: Option<bool>, sender: Id, amount: int)

  /** Money that reached us in our asset. */
  predicate Matches(p: Payment)
  {
    p.isPayment && p.toUs && p.ourAsset && p.successful != Some(false) && p.amount > 0
  }

  function Credit(p: Payment): Posting { Topup(p.topup, p.sender, p.amount) }

  /** One round of the loop. A deposit out of range throws, which is logged and skipped. */
  function Scanned(j: seq<Posting>, p: Payment, known: Id -> bool): seq<Posting>
  {
    if Matches(p) && known(p.sender) && InRange(p.amount) then Post(j, Credit(p)) else j
  }

  function ScannedAll(j: seq<Posting>, ps: seq<Payment>, known: Id -> bool): seq<Posting>
  {
    if |ps| == 0 then j else Scanned(ScannedAll(j, ps[..|ps| - 1], known), ps[|ps| - 1], known)
  }

  /** The ledger, and how much of the history is behind the saved cursor. */
  datatype Scan = Scan(journal: seq<Posting>, cursor: nat)

  datatype Event =
    | Poll(size: nat, known: Id -> bool)                    // a page, taken in and the cursor saved
    | PollDies(size: nat, known: Id -> bool, done: nat)     // the server stops after some records of it
    | OtherPosting(posting: Posting)                        // anything else the ledger writes

  predicate Possible(h: seq<Payment>, s: Scan, e: Event)
  {
    match e
    case Poll(size, _) => s.cursor + size <= |h|
    case PollDies(size, _, done) => s.cursor + size <= |h| && done <= size
    case OtherPosting(p) => forall i :: 0 <= i < |h| ==> IdOf(p) != TopupId(h[i].topup)
  }

  function Step(h: seq<Payment>, s: Scan, e: Event): Scan
  {
    if !Possible(h, s, e) then s
    else
      match e
      case Poll(size, known) => Scan(ScannedAll(s.journal, h[s.cursor..s.cursor + size], known), s.cursor + size)
      case PollDies(size, known, done) => s.(journal := ScannedAll(s.journal, h[s.cursor..s.cursor + done], known))
      case OtherPosting(p) => s.(journal := Post(s.journal, p))
  }

  function Run(h: seq<Payment>, events: seq<Event>): Scan
  {
    if |events| == 0 then Scan([], 0) else Step(h, Run(h, events[..|events| - 1]), events[|events| - 1])
  }

  ghost predicate UniqueTopups(h: seq<Payment>) { forall i, k :: 0 <= i < k < |h| ==> h[i].topup != h[k].topup }

  /** The address is an advertiser's whenever somebody looks. */
  ghost predicate AlwaysKnown(events: seq<Event>, sender: Id)
  {
    forall i :: 0 <= i < |events| ==> (events[i].Poll? || events[i].PollDies? ==> events[i].known(sender))
  }

  ghost predicate NeverKnown(events: seq<Event>, sender: Id)
  {
    forall i :: 0 <= i < |events| ==> (events[i].Poll? || events[i].PollDies? ==> !events[i].known(sender))
  }

  function Same(t: PostingId): Posting -> int { (p: Posting) => if IdOf(p) == t then 1 else 0 }

  /** How often a payment was credited. */
  function Times(j: seq<Posting>, p: Payment): int { Sum(j, Same(TopupId(p.topup))) }

  /** What the journal may say about a payment: nothing, or one credit of its amount to its sender. */
  ghost predicate CreditedAtMostOnce(j: seq<Posting>, p: Payment)
  {
    && 0 <= Times(j, p) <= 1
    && (Times(j, p) == 1 <==> HasId(j, TopupId(p.topup)))
    && (HasId(j, TopupId(p.topup)) ==> Credit(p) in j && Matches(p))
  }

  /** Scanning part of the history, again or for the first time. */
  lemma {:induction false} ScanCredits(h: seq<Payment>, j: seq<Posting>, from: nat, upTo: nat, known: Id -> bool, i: nat)
    requires UniqueTopups(h) && from <= upTo <= |h| && i < |h| && CreditedAtMostOnce(j, h[i])
    ensures var j' := ScannedAll(j, h[from..upTo], known);
            && CreditedAtMostOnce(j', h[i])
            && (HasId(j', TopupId(h[i].topup)) <==>
                  HasId(j, TopupId(h[i].topup)) || (from <= i < upTo && Matches(h[i]) && known(h[i].sender) && InRange(h[i].amount)))
    decreases upTo
  {
    if from < upTo {
      ScanNext(h, j, from, upTo, known);
      ScanCredits(h, j, from, upTo - 1, known, i);
      assert upTo - 1 != i ==> h[upTo - 1].topup != h[i].topup;
      var before := ScannedAll(j, h[from..upTo - 1], known);
      hide ScannedAll, CreditedAtMostOnce, UniqueTopups, HasId, Scanned, Matches, InRange;
    }
  }

  lemma {:induction false} ScanNext(h: seq<Payment>, j: seq<Posting>, from: nat, upTo: nat, known: Id -> bool)
    requires from < upTo <= |h|
    ensures ScannedAll(j, h[from..upTo], known) == Scanned(ScannedAll(j, h[from..upTo - 1], known), h[upTo - 1], known)
  {
    assert h[from..upTo][..upTo - from - 1] == h[from..upTo - 1];
  }

  /**
    For any split of the history into pages, with the server dying anywhere between crediting and saving
    the cursor: a payment is never credited twice nor otherwise than its amount to its sender; every
    matching payment behind the cursor from an address that was known all along is credited; and one from
    an address that never was is not.
    */
  lemma {:induction false} DepositsExactlyOnce(h: seq<Payment>, events: seq<Event>, i: nat)
    requires UniqueTopups(h) && i < |h|
    ensures var s := Run(h, events);
            && CreditedAtMostOnce(s.journal, h[i])
            && (Matches(h[i]) && InRange(h[i].amount) && AlwaysKnown(events, h[i].sender) && i < s.cursor ==> Times(s.journal, h[i]) == 1)
            && (NeverKnown(events, h[i].sender) ==> Times(s.journal, h[i]) == 0)
            && (!(Matches(h[i]) && InRange(h[i].amount)) ==> Times(s.journal, h[i]) == 0)
            && s.cursor <= |h|
  {
    if |events| == 0 {
      assert forall t :: !HasId([], t);
    } else {
      var front, e := events[..|events| - 1], events[|events| - 1];
      var sender := h[i].sender;
      DepositsExactlyOnce(h, front, i);
      var s := Run(h, front);
      CreditsStep(h, s, e, i);
      OnceIsCredited(s.journal, h[i]);
      OnceIsCredited(Run(h, events).journal, h[i]);
      assert AlwaysKnown(events, sender) ==> AlwaysKnown(front, sender) && (e.Poll? || e.PollDies? ==> e.known(sender));
      assert NeverKnown(events, sender) ==> NeverKnown(front, sender) && (e.Poll? || e.PollDies? ==> !e.known(sender));
      hide CreditedAtMostOnce, Step, HasId, Times, UniqueTopups, AlwaysKnown, NeverKnown;
    }
  }

  /**
    The scan catches up: one finished page over the rest puts the cursor at the end of the history, and with it
    every matching payment of an address that was known all along is credited.
    */
  lemma {:induction false} ScanCatchesUp(h: seq<Payment>, events: seq<Event>, known: Id -> bool, i: nat)
    requires UniqueTopups(h) && i < |h| && Matches(h[i]) && InRange(h[i].amount)
    requires AlwaysKnown(events, h[i].sender) && known(h[i].sender)
    ensures var rest := |h| - Run(h, events).cursor;
            rest >= 0 && Run(h, events + [Poll(rest, known)]).cursor == |h| && Times(Run(h, events + [Poll(rest, known)]).journal, h[i]) == 1
  {
    DepositsExactlyOnce(h, events, i);
    var last := Poll(|h| - Run(h, events).cursor, known);
    assert (events + [last])[..|events|] == events;
    DepositsExactlyOnce(h, events + [last], i);
    hide ScannedAll, Times, CreditedAtMostOnce, Matches;
  }

  /** What one event does to a payment's credit. */
  lemma {:induction false} CreditsStep(h: seq<Payment>, s: Scan, e: Event, i: nat)
    requires UniqueTopups(h) && i < |h| && CreditedAtMostOnce(s.journal, h[i]) && s.cursor <= |h|
    ensures var s' := Step(h, s, e);
            var creditable := Matches(h[i]) && InRange(h[i].amount);
            && CreditedAtMostOnce(s'.journal, h[i]) && s'.cursor <= |h|
            && (HasId(s.journal, TopupId(h[i].topup)) ==> HasId(s'.journal, TopupId(h[i].topup)))
            && (HasId(s'.journal, TopupId(h[i].topup)) ==>
                  HasId(s.journal, TopupId(h[i].topup)) || (creditable && (e.Poll? || e.PollDies?) && e.known(h[i].sender)))
            && (creditable && s.cursor <= i < s'.cursor && e.Poll? && e.known(h[i].sender) ==> HasId(s'.journal, TopupId(h[i].topup)))
            && (s.cursor <= i < s'.cursor ==> e.Poll?)
  {
    hide CreditedAtMostOnce, ScannedAll;
    if Possible(h, s, e) {
      match e {
        case Poll(size, known) => ScanCredits(h, s.journal, s.cursor, s.cursor + size, known, i);
        case PollDies(size, known, done) => ScanCredits(h, s.journal, s.cursor, s.cursor + done, known, i);
        case OtherPosting(p) => OtherCredits(s.journal, p, h[i]);
      }
    }
  }

  /** A posting of another id leaves a payment's credit as it is. */
  lemma {:induction false} OtherCredits(j: seq<Posting>, p: Posting, q: Payment)
    requires CreditedAtMostOnce(j, q) && IdOf(p) != TopupId(q.topup)
    ensures CreditedAtMostOnce(Post(j, p), q) && (HasId(Post(j, p), TopupId(q.topup)) <==> HasId(j, TopupId(q.topup)))
  {
    if !HasId(j, IdOf(p)) {
      SumAppend(j, p, Same(TopupId(q.topup)));
      assert forall i :: 0 <= i < |j| ==> (j + [p])[i] == j[i];
      assert (j + [p])[|j|] == p;
    }
  }

  lemma {:induction false} OnceIsCredited(j: seq<Posting>, p: Payment)
    ensures CreditedAtMostOnce(j, p) ==> (Times(j, p) == 1 <==> HasId(j, TopupId(p.topup))) && Times(j, p) in {0, 1}
  {}

  /* ---------- the object ---------- */

  function Counted(known: Id -> bool): Payment -> int
  {
    (p: Payment) => if Matches(p) && known(p.sender) && InRange(p.amount) then 1 else 0
  }

  function Stray(known: Id -> bool): Payment -> int { (p: Payment) => if Matches(p) && !known(p.sender) then 1 else 0 }

  class DepositWatcher {
    const book: Book
    /** How many records of the history are done with. */
    var cursor: nat

    constructor (book: Book)
      ensures this.book == book && cursor == 0
    {
      this.book, cursor := book, 0;
    }

    /** `#poll`, on the page the chain answered with. The cursor moves last. */
    method TakePage(page: seq<Payment>, known: Id -> bool) returns (credited: nat, unmatched: nat)
      requires book.Valid()
      modifies this, book, book.store
      ensures book.Valid() && book.journal == ScannedAll(old(book.journal), page, known)
      ensures cursor == old(cursor) + |page|
      ensures credited == Sum(page, Counted(known)) && unmatched == Sum(page, Stray(known))
    {
      credited, unmatched := 0, 0;
      for i := 0 to |page|
        invariant book.Valid() && book.journal == ScannedAll(old(book.journal), page[..i], known)
        invariant cursor == old(cursor)
        invariant credited == Sum(page[..i], Counted(known)) && unmatched == Sum(page[..i], Stray(known))
      {
        var p := page[i];
        assert page[..i + 1][..i] == page[..i];
        SumPrefix(page, i, Counted(known));
        SumPrefix(page, i, Stray(known));
        if !p.isPayment || !p.toUs || !p.ourAsset || p.successful == Some(false) || p.amount <= 0 {
          continue;
        }
        if !known(p.sender) {
          unmatched := unmatched + 1;
          continue;
        }
        if InRange(p.amount) {
          var r := book.Deposit(p.sender, p.amount, p.topup);
          credited := credited + 1;
        }
      }
      assert page[..|page|] == page;
      if |page| > 0 {
        cursor := cursor + |page|;
      }
    }
  }
}
