/**
  Payouts as the program keeps them: the record store, the phases of a withdrawal, and the recovery
  loop. Every method performs one step of the money machine, with its writes in the program's order.
  */
module PayoutDesk {
  import opened Common
  import opened Money
  import opened Sums
  import opened Ledger
  import opened LedgerFacts
  import opened LedgerBook
  import opened Serving
  import opened World
  import opened RangeChecks
  import opened PayoutLinks
  import opened WorldWithdrawals
  import opened WorldPayouts
  import opened WorldAudit
  import opened AdServer

  /* ---------- packages/server/src/payouts/store.ts ---------- */

  function OfBatch(batch: Id): Item -> bool { (it: Item) => it.batch == batch }

  ghost predicate Undecided(items: seq<Item>, receipts: set<Id>, batch: Id)
  {
    batch in receipts && exists i :: 0 <= i < |items| && items[i].batch == batch && items[i].state == ItemSubmitted
  }

  /** How many records of a batch may still change. */
  function Movable(batch: Id): Item -> int { (it: Item) => if it.batch == batch && it.state != ItemSettled then 1 else 0 }

  function NewItems(batch: Id, owed: seq<(Id, int)>): seq<Item>
  {
    seq(|owed|, i requires 0 <= i < |owed| => Item(batch, owed[i].0, owed[i].1, ItemSubmitted))
  }

  lemma {:induction false} NoneOfBatch(items: seq<Item>, batch: Id)
    requires Keep(items, OfBatch(batch)) == []
    ensures forall i :: 0 <= i < |items| ==> items[i].batch != batch
  {
    forall i | 0 <= i < |items| ensures items[i].batch != batch {
      assert items[i] in items;
      assert !OfBatch(batch)(items[i]);
    }
  }

  class MemoryPayoutStore {
    var items: seq<Item>
    /** Batches whose signed envelope is stored. */
    var receipts: set<Id>

    constructor ()
      ensures items == [] && receipts == {}
    {
      items, receipts := [], {};
    }

    /** `byBatch` */
    method ByBatch(batch: Id) returns (r: seq<Item>)
      ensures r == Keep(items, OfBatch(batch))
    {
      r := [];
      assert Keep(items[..0], OfBatch(batch)) == [];
      hide Keep;
      for i := 0 to |items|
        invariant r == Keep(items[..i], OfBatch(batch))
      {
        KeepNext(items, i, OfBatch(batch));
        if items[i].batch == batch {
          r := r + [items[i]];
        }
      }
      assert items[..|items|] == items;
    }

    /**
      `recordSubmit`: a batch already recorded is left alone. A payee without an operation raises an
      error, after the envelope was stored and before any record is.
      */
    method RecordSubmit(batch: Id, operations: set<Id>, owed: seq<(Id, int)>) returns (r: Option<seq<Item>>)
      modifies this
      ensures (exists i :: 0 <= i < |old(items)| && old(items)[i].batch == batch) ==>
                items == old(items) && receipts == old(receipts) && r == Some(Keep(items, OfBatch(batch)))
      ensures (forall i :: 0 <= i < |old(items)| ==> old(items)[i].batch != batch) ==>
                && receipts == old(receipts) + {batch}
                && (if forall i :: 0 <= i < |owed| ==> owed[i].0 in operations
                    then items == old(items) + NewItems(batch, owed) && r == Some(NewItems(batch, owed))
                    else items == old(items) && r == None)
    {
      var known := ByBatch(batch);
      if |known| > 0 {
        assert known[0] in items;
        return Some(known);
      }
      NoneOfBatch(items, batch);
      receipts := receipts + {batch};
      var added: seq<Item> := [];
      for i := 0 to |owed|
        modifies {}
        invariant |added| == i && forall m :: 0 <= m < i ==> owed[m].0 in operations
        invariant forall m :: 0 <= m < i ==> added[m] == Item(batch, owed[m].0, owed[m].1, ItemSubmitted)
      {
        if owed[i].0 !in operations {
          return None;
        }
        added := added + [Item(batch, owed[i].0, owed[i].1, ItemSubmitted)];
      }
      assert added == NewItems(batch, owed);
      items := items + added;
      r := Some(added);
    }

    /** `markSettled` and `markFailed`: every record of the batch that is not settled, in place. */
    method Transition(batch: Id, state: ItemState) returns (n: int)
      modifies this`items
      ensures items == ItemsMarked(old(items), batch, state)
      ensures n == Sum(old(items), Movable(batch))
    {
      n := 0;
      ghost var was := items;
      for i := 0 to |items|
        invariant |items| == |was| && n == Sum(was[..i], Movable(batch))
        invariant forall m :: 0 <= m < |was| ==> items[m] == if m < i then ItemsMarked(was, batch, state)[m] else was[m]
      {
        SumPrefix(was, i, Movable(batch));
        var it := items[i];
        if it.batch == batch && it.state != ItemSettled {
          items := items[i := it.(state := state)];
          n := n + 1;
        }
      }
      assert was[..|was|] == was;
      assert items == ItemsMarked(was, batch, state);
    }

    /** `unresolved`: each undecided batch once. */
    method Unresolved() returns (r: seq<Id>)
      ensures forall b :: b in r <==> Undecided(items, receipts, b)
      ensures forall i, k :: 0 <= i < k < |r| ==> r[i] != r[k]
    {
      r := [];
      for i := 0 to |items|
        invariant forall b :: b in r <==> Undecided(items[..i], receipts, b)
        invariant forall m, k :: 0 <= m < k < |r| ==> r[m] != r[k]
      {
        var b := items[i].batch;
        assert items[..i + 1] == items[..i] + [items[i]];
        if items[i].state == ItemSubmitted && b in receipts && b !in r {
          r := r + [b];
        }
      }
      assert items[..|items|] == items;
    }
  }

  /** `stateFromSettlement`: only three of the four answers decide anything. */
  function StateFromSettlement(a: Answer): (r: Option<ItemState>)
    ensures r.Some? <==> a in {SaysSettled, SaysFailed, SaysExpired}
    ensures r == Some(ItemSettled) <==> a == SaysSettled
  {
    match a
    case SaysSettled => Some(ItemSettled)
    case SaysFailed => Some(ItemFailed)
    case SaysExpired => Some(ItemFailed)
    case SaysPending => None
    case Throws => None
  }

  /**
    Settled is the last stop: whatever is marked later, a settled record stays settled, other batches
    stay as they were, and the batch is not asked about again.
    */
  lemma {:induction false} SettledIsFinal(items: seq<Item>, receipts: set<Id>, batch: Id, state: ItemState, i: nat)
    requires i < |items| && state != ItemSubmitted
    ensures var marked := ItemsMarked(items, batch, state);
            && (items[i].state == ItemSettled ==> marked[i] == items[i])
            && (items[i].batch != batch ==> marked[i] == items[i])
            && marked[i] == items[i].(state := marked[i].state)
            && !Undecided(marked, receipts, batch)
            && (forall b :: b != batch ==> (Undecided(marked, receipts, b) <==> Undecided(items, receipts, b)))
            && ItemsMarked(marked, batch, state) == marked
  {
    var marked := ItemsMarked(items, batch, state);
    forall b | b != batch ensures Undecided(marked, receipts, b) <==> Undecided(items, receipts, b) {
      if Undecided(items, receipts, b) {
        var k :| 0 <= k < |items| && items[k].batch == b && items[k].state == ItemSubmitted;
        assert marked[k] == items[k];
      }
      if Undecided(marked, receipts, b) {
        var k :| 0 <= k < |marked| && marked[k].batch == b && marked[k].state == ItemSubmitted;
        assert marked[k] == items[k];
      }
    }
  }

  /* ---------- packages/server/src/payouts/withdraw.ts, runner.ts ---------- */

  class PayoutDesk {
    const server: Pipeline
    const book: Book
    const store: MemoryPayoutStore
    var procs: map<nat, Proc>

    constructor (server: Pipeline)
      requires server.Valid() && server.rest.txs == []
      ensures this.server == server && Valid() && procs == map[] && fresh(store)
    {
      this.server := server;
      this.book := server.book;
      store := new MemoryPayoutStore();
      procs := map[];
    }

    /** Amounts are in range by their type. */
    ghost predicate Valid()
      reads this, server, server.book, server.book.store
    {
      && server.Valid() && book == server.book
      && (forall q :: q in procs ==> InRange(procs[q].amount))
      && (forall k :: 0 <= k < |server.rest.txs| ==> InRange(server.rest.txs[k].amount))
    }

    ghost function State(): World
      reads this, server, server.book, server.selector, store
    {
      server.State().(items := store.items, procs := procs)
    }

    /** What that ceiling is read from can be added up. */
    ghost predicate LimitFits(kind: Kind, owner: Id)
      reads this, server, server.book, server.book.store, server.selector, book, book.store, store
    {
      && NoOverflow(book.store.entries, AmountIn(Source(kind, owner)))
      && (kind.AdvertiserKind? ==> SpendableFits(State(), owner) && ReserveFits(State(), owner))
    }

    /** The ceiling each kind of withdrawal reads. */
    method Limit(kind: Kind, owner: Id) returns (r: Checked<int>)
      requires Valid()
      ensures r.Fine? <==> LimitFits(kind, owner)
      ensures r.Fine? ==> r.value == WithdrawLimit(State(), kind, owner)
    {
      match kind {
        case AdvertiserKind =>
          TotalsStay(server.State(), State());
          ItemsDoNotMatter(server.State(), State(), owner);
          hide SpendableFits, ReserveFits, MoneyFits, AllFit, Machine.Spendable, Machine.PoolReserve;
          r := server.Spendable(owner);
          if r.Fine? {
            var reserved := server.PoolReserve(owner);
            if reserved.MoneyError? {
              return MoneyError;
            }
            var left := r.value - reserved.value;
            r := Fine(if left > 0 then left else 0);
          }
        case PublisherKind => r := book.Balance(Publisher(owner));
        case PlatformKind => r := book.Balance(PlatformRevenue);
      }
    }

    /** First checks of `withdraw` and `#run`: nothing else under way for this owner, and within the ceiling. */
    method Begin(pid: nat, kind: Kind, owner: Id, amount: Stroops) returns (r: Checked<bool>)
      requires Valid() && pid !in procs
      modifies this
      ensures Valid()
      ensures r.Fine? ==> (r.value <==> MayWithdraw(old(State()), kind, owner, amount))
      ensures r.Fine? ==> State() == old(State()).(procs := if r.value then old(procs)[pid := Proc(kind, owner, amount, Validating)] else old(procs))
      ensures r.Fine? ==> State() == Machine.Begin(old(State()), pid, kind, owner, amount)
      ensures r.MoneyError? ==> State() == old(State())
      ensures old(LimitFits(kind, owner)) ==> r.Fine?
    {
      if exists q :: q in procs && procs[q].kind == kind && procs[q].owner == owner {
        return Fine(false);
      }
      if amount < 1 {
        return Fine(false);
      }
      var limit := Limit(kind, owner);
      if limit.MoneyError? {
        return MoneyError;
      }
      if amount > limit.value {
        return Fine(false);
      }
      procs := procs[pid := Proc(kind, owner, amount, Validating)];
      r := Fine(true);
    }

    /** The envelope is signed: the ceiling is read again, then ledger, then record; no one runs in between. */
    method OnPrepared(pid: nat, ok: bool) returns (r: Checked<bool>)
      requires Valid() && pid in procs && procs[pid].phase.Preparing?
      requires TxAt(State(), procs[pid].phase.batch) < 0 && Payouts(State())
      requires forall i :: 0 <= i < |store.items| ==> store.items[i].batch != procs[pid].phase.batch
      modifies this, server`rest, book, book.store, store
      ensures Valid()
      ensures r.Fine? ==> State() == Prepared(old(State()), pid, ok, Survives)
      ensures r.MoneyError? ==> State() == EndProc(old(State()), pid)
      ensures old(LimitFits(procs[pid].kind, procs[pid].owner)) ==> r.Fine?
    {
      var p := procs[pid];
      var b := p.phase.batch;
      PreparedUnfolds(State(), pid, ok);
      assert ProcLinked(State(), State().procs[pid]);
      FreshBatch(book.journal, server.rest.txs, b, p.owner);
      assert State().procs == procs && State().journal == book.journal;
      hide Valid, State, Prepared, WithdrawLimit, Payouts, NoOverflow, HasId, TxAt, Balance, Post;
      if !ok {
        DropProc(pid);
        return Fine(false);
      }
      var limit := Limit(p.kind, p.owner);
      if limit.MoneyError? || p.amount > limit.value {
        DropProc(pid);
        return if limit.MoneyError? then MoneyError else Fine(false);
      }
      var submitted := Submit(p.kind, b, p.owner, p.amount);
      if submitted {
        SetPhase(pid, Sending(b));
      } else {
        DropProc(pid);
      }
      r := Fine(submitted);
    }

    /** The withdrawal is over. */
    method DropProc(pid: nat)
      requires Valid()
      modifies this`procs
      ensures Valid() && State() == EndProc(old(State()), pid) && procs == old(procs) - {pid}
    {
      hide PayoutShape, SoundJournal, Expand, EntryBilled;
      procs := procs - {pid};
    }

    /** The withdrawal waits for something else. */
    method SetPhase(pid: nat, phase: Phase)
      requires Valid() && pid in procs
      modifies this`procs
      ensures Valid() && procs == old(procs)[pid := old(procs)[pid].(phase := phase)]
      ensures State() == old(State()).(procs := procs)
    {
      hide PayoutShape, SoundJournal, Expand, EntryBilled;
      procs := procs[pid := procs[pid].(phase := phase)];
    }

    /** Ledger first, then the record. `payoutSubmit` refuses to overdraw. */
    method Submit(kind: Kind, b: Id, owner: Id, amount: int) returns (ok: bool)
      requires Valid() && 0 < amount && InRange(amount) && NoOverflow(book.store.entries, AmountIn(Source(kind, owner)))
      requires !HasId(book.journal, SubmitId(b, owner)) && forall i :: 0 <= i < |store.items| ==> store.items[i].batch != b
      modifies server`rest, book, book.store, store
      ensures Valid()
      ensures ok <==> amount <= old(Balance(book.journal, Source(kind, owner)))
      ensures var w := old(State());
              State() == if ok then w.(journal := Post(w.journal, Submitted(kind, b, owner, amount)),
                                       txs := w.txs + [Tx(kind, b, owner, amount, true, Open)],
                                       items := w.items + [Item(b, owner, amount, ItemSubmitted)])
                         else w
    {
      ShapeGrows(book.journal, Submitted(kind, b, owner, amount));
      hide PayoutShape, SoundJournal, Expand, NoOverflow, HasId, EntryBilled, EntriesOf, EffectOf, Source;
      var posted := book.PayoutSubmit(kind, b, owner, amount);
      if posted.Err? {
        return false;
      }
      Record(kind, b, owner, amount);
      ok := true;
    }

    /** The signed envelope and its record. */
    method Record(kind: Kind, b: Id, owner: Id, amount: int)
      requires Valid() && InRange(amount) && forall i :: 0 <= i < |store.items| ==> store.items[i].batch != b
      modifies server`rest, store
      ensures Valid()
      ensures var w := old(State());
              State() == w.(txs := w.txs + [Tx(kind, b, owner, amount, true, Open)],
                            items := w.items + [Item(b, owner, amount, ItemSubmitted)])
    {
      hide PayoutShape, SoundJournal, Expand, EntryBilled;
      var recorded := store.RecordSubmit(b, {owner}, [(owner, amount)]);
      assert NewItems(b, [(owner, amount)]) == [Item(b, owner, amount, ItemSubmitted)];
      server.rest := server.rest.(txs := server.rest.txs + [Tx(kind, b, owner, amount, true, Open)]);
    }

    /** The ledger's side of a settlement. */
    method EnterSettled(batch: Id, owner: Id, amount: int, ghost k: nat)
      requires Valid() && Linked(book.journal, server.rest.txs)
      requires k < |server.rest.txs| && SameMoney(server.rest.txs[k], batch, owner, amount) && server.rest.txs[k].fate == Applied
      modifies book, book.store
      ensures Valid() && book.journal == Post(old(book.journal), Settled(batch, owner, amount))
    {
      SettlePost(book.journal, server.rest.txs, k);
      hide Linked, SoundJournal;
      var r := book.PayoutSettled(batch, owner, amount);
    }

    /** The ledger's side of a refund: what is stored under the payout, reversed once. */
    method EnterReversed(batch: Id, owner: Id, ghost k: nat)
      requires Valid() && Linked(book.journal, server.rest.txs) && k < |server.rest.txs|
      requires server.rest.txs[k].batch == batch && server.rest.txs[k].owner == owner && server.rest.txs[k].fate in {Failed, Dead}
      modifies book, book.store
      ensures Valid() && book.journal == Post(old(book.journal), ReversalOf(old(book.journal), batch, owner))
    {
      ReverseWorks(book.journal, server.rest.txs, k);
      hide Linked, SoundJournal, NoOverflow, PayoutShape, EntriesOf, Expand, ByRef, HasId;
      var r := book.Reverse(BatchRef, Payout(batch, owner));
    }

    /** Ledger, then record. */
    method Conclude(batch: Id, owner: Id, amount: int, a: Answer, ghost k: nat)
      requires Valid() && Payouts(State()) && k < |server.rest.txs| && SameMoney(server.rest.txs[k], batch, owner, amount)
      requires a in {SaysSettled, SaysFailed, SaysExpired} && Truthful(server.rest.txs[k].fate, a)
      modifies book, book.store, store
      ensures Valid() && store.receipts == old(store.receipts)
      ensures State() == Concluded(old(State()), batch, owner, amount, a)
    {
      ghost var w := State();
      RefundIsPossible(w, batch, owner, amount, a, k);
      assert Linked(book.journal, server.rest.txs);
      EnterAnswer(batch, owner, amount, a, k);
      hide ReversalOf, Valid, Payouts, SameMoney, Truthful, Linked, Post;
      var n := store.Transition(batch, if a == SaysSettled then ItemSettled else ItemFailed);
    }

    /** The ledger's side of either answer. */
    method EnterAnswer(batch: Id, owner: Id, amount: int, a: Answer, ghost k: nat)
      requires Valid() && Linked(book.journal, server.rest.txs) && k < |server.rest.txs|
      requires SameMoney(server.rest.txs[k], batch, owner, amount)
      requires a in {SaysSettled, SaysFailed, SaysExpired} && Truthful(server.rest.txs[k].fate, a)
      modifies book, book.store
      ensures Valid()
      ensures State() == old(State()).(journal := Post(old(book.journal), if a == SaysSettled then Settled(batch, owner, amount)
                                                                         else ReversalOf(old(book.journal), batch, owner)))
    {
      hide Linked, ReversalOf, Post;
      if a == SaysSettled {
        EnterSettled(batch, owner, amount, k);
      } else {
        EnterReversed(batch, owner, k);
      }
    }

    /** `reconcile` answered: settle, give up waiting, ask again, or refund. */
    method OnAnswer(pid: nat, a: Answer)
      requires Valid() && Payouts(State()) && pid in procs && procs[pid].phase.Asking?
      requires var k := TxAt(State(), procs[pid].phase.batch); k >= 0 && Truthful(State().txs[k].fate, a)
      modifies this, book, book.store, store
      ensures Valid() && State() == Answered(old(State()), pid, a, false)
    {
      var p := procs[pid];
      AnsweredUnfolds(State(), pid, a, TxAt(State(), p.phase.batch));
      assert State().procs == procs;
      hide Valid, State, Answered, Concluded, Payouts, Truthful, TxAt;
      if a != SaysPending && a != Throws {
        Finish(pid, a);
      } else if (a == Throws && p.phase.first) || p.phase.left <= 0 {
        DropProc(pid);
      } else {
        SetPhase(pid, Asking(p.phase.batch, p.phase.left - CONFIRM_POLL_MS, false));
      }
    }

    /** A decisive answer ends the withdrawal. */
    method Finish(pid: nat, a: Answer)
      requires Valid() && Payouts(State()) && pid in procs && procs[pid].phase.Asking?
      requires var k := TxAt(State(), procs[pid].phase.batch); k >= 0 && Truthful(State().txs[k].fate, a)
      requires a in {SaysSettled, SaysFailed, SaysExpired}
      modifies this, book, book.store, store
      ensures Valid()
      ensures var p := old(procs[pid]);
              State() == EndProc(Concluded(old(State()), p.phase.batch, p.owner, p.amount, a), pid)
    {
      var p := procs[pid];
      ghost var k := TxAt(State(), p.phase.batch);
      AskedAbout(State(), pid, k);
      assert State().txs == server.rest.txs && State().procs == procs;
      hide Valid, State, Payouts, Concluded, TxAt, Truthful;
      Conclude(p.phase.batch, p.owner, p.amount, a, k);
      DropProc(pid);
    }

    /**
      `resumeUnresolved`: every batch open at the start is asked about once; a definite answer is entered
      and the batch is closed, anything else leaves it open for the next round.
      */
    method ResumeUnresolved(answers: Id -> Answer) returns (resolved: nat, ghost open: seq<Id>)
      requires Valid() && Payouts(State()) && OneRecordEach(store.items)
      requires forall k :: 0 <= k < |server.rest.txs| ==> Truthful(server.rest.txs[k].fate, answers(server.rest.txs[k].batch))
      modifies book, book.store, store
      ensures Valid() && Payouts(State()) && OneRecordEach(store.items)
      ensures forall b :: b in open <==> Undecided(old(store.items), old(store.receipts), b)
      ensures State() == ResumeEach(old(State()), open, answers)
      ensures forall b :: Undecided(store.items, store.receipts, b) <==>
                          Undecided(old(store.items), old(store.receipts), b) && StateFromSettlement(answers(b)).None?
    {
      var list := store.Unresolved();
      open := list;
      resolved := 0;
      ghost var w := State();
      ghost var items, receipts := store.items, store.receipts;
      ResumeNone(w, list, answers);
      StillOpenNone(items, receipts, list, answers);
      hide Valid, State, Payouts, OneRecordEach, StateFromSettlement, Truthful, Undecided, ResumeBatch, ResumeEach, StillOpen;
      for i := 0 to |list|
        invariant Valid() && Payouts(State()) && OneRecordEach(store.items) && store.receipts == receipts
        invariant State() == ResumeEach(w, list[..i], answers)
        invariant StillOpen(store.items, items, receipts, list[..i], answers)
      {
        ResumeNext(w, list, i, answers);
        NextIsOpen(store.items, items, receipts, list, i, answers);
        ghost var before := store.items;
        var done := ResumeOne(list[i], answers(list[i]));
        StillOpenNext(before, store.items, items, receipts, list, i, answers);
        if done {
          resolved := resolved + 1;
        }
      }
      assert list[..|list|] == list;
      StillOpenAll(store.items, items, receipts, list, answers);
    }

    /** One batch of that loop. */
    method ResumeOne(batch: Id, a: Answer) returns (done: bool)
      requires Valid() && Payouts(State()) && OneRecordEach(store.items) && Undecided(store.items, store.receipts, batch)
      requires forall k :: 0 <= k < |server.rest.txs| && server.rest.txs[k].batch == batch ==> Truthful(server.rest.txs[k].fate, a)
      modifies book, book.store, store
      ensures Valid() && Payouts(State()) && OneRecordEach(store.items) && store.receipts == old(store.receipts)
      ensures done <==> StateFromSettlement(a).Some?
      ensures State() == ResumeBatch(old(State()), batch, a)
      ensures forall b :: Undecided(store.items, store.receipts, b) <==>
                          Undecided(old(store.items), old(store.receipts), b) && (b == batch ==> !done)
    {
      assert State().txs == server.rest.txs && State().items == store.items;
      hide Valid, State, Undecided, Payouts, OneRecordEach, ResumeBatch, Concluded, Truthful;
      ghost var m, k := ResumeFacts(State(), store.receipts, batch, a);
      done := StateFromSettlement(a).Some?;
      if done {
        CloseBatch(batch, a, m, k);
      }
    }

    /** A decided batch is read back and concluded: withdrawals write one record per batch. */
    method CloseBatch(batch: Id, a: Answer, ghost m: nat, ghost k: nat)
      requires Valid() && Payouts(State()) && k < |State().txs| && Truthful(State().txs[k].fate, a)
      requires m < |State().items| && Keep(State().items, OfBatch(batch)) == [State().items[m]]
      requires SameMoney(State().txs[k], batch, State().items[m].owner, State().items[m].amount)
      requires a in {SaysSettled, SaysFailed, SaysExpired}
      modifies book, book.store, store
      ensures Valid() && store.receipts == old(store.receipts)
      ensures State() == Concluded(old(State()), batch, old(State()).items[m].owner, old(State()).items[m].amount, a)
    {
      assert State().txs == server.rest.txs && State().items == store.items;
      hide Valid, State, Payouts, Concluded, Truthful, SameMoney;
      var records := store.ByBatch(batch);
      Conclude(batch, records[0].owner, records[0].amount, a, k);
    }
  }

  /** What one round of the recovery loop amounts to. */
  lemma {:induction false} ResumeFacts(w: World, receipts: set<Id>, batch: Id, a: Answer) returns (m: nat, k: nat)
    requires Payouts(w) && OneRecordEach(w.items) && Undecided(w.items, receipts, batch)
    requires forall k :: 0 <= k < |w.txs| && w.txs[k].batch == batch ==> Truthful(w.txs[k].fate, a)
    ensures k < |w.txs| && Truthful(w.txs[k].fate, a) && m < |w.items|
    ensures Keep(w.items, OfBatch(batch)) == [w.items[m]] && SameMoney(w.txs[k], batch, w.items[m].owner, w.items[m].amount)
    ensures var w' := ResumeBatch(w, batch, a);
            && Payouts(w') && OneRecordEach(w'.items)
            && w' == (if StateFromSettlement(a).None? then w else Concluded(w, batch, w.items[m].owner, w.items[m].amount, a))
            && forall b :: Undecided(w'.items, receipts, b) <==>
                           Undecided(w.items, receipts, b) && (b == batch ==> StateFromSettlement(a).None?)
  {
    m := RecordAt(w.items, batch);
    k := TxAt(w, batch);
    OneRecord(w.items, batch);
    RecordHasTx(w, m, k);
    ResumeUnfolds(w, m, k, a);
    PayoutsResume(w, m, a, false);
    hide Payouts, Resume, Truthful, SameMoney, TxAt, RecordAt;
    if StateFromSettlement(a).Some? {
      ConcludedFacts(w, receipts, batch, a, m, k);
    }
    hide Concluded, OneRecordEach, Undecided, Keep;
  }

  /** A decided batch is closed, and only that one. */
  lemma {:induction false} ConcludedFacts(w: World, receipts: set<Id>, batch: Id, a: Answer, m: nat, k: nat)
    requires Payouts(w) && OneRecordEach(w.items) && m < |w.items| && k < |w.txs| && StateFromSettlement(a).Some?
    requires Undecided(w.items, receipts, batch) && w.items[m].batch == batch
    requires SameMoney(w.txs[k], batch, w.items[m].owner, w.items[m].amount) && Truthful(w.txs[k].fate, a)
    ensures var items := Concluded(w, batch, w.items[m].owner, w.items[m].amount, a).items;
            && OneRecordEach(items)
            && forall b :: Undecided(items, receipts, b) <==> Undecided(w.items, receipts, b) && b != batch
  {
    ConcludedItems(w, batch, w.items[m].owner, w.items[m].amount, a, k);
    MarkingKeepsOne(w.items, batch, StateFromSettlement(a).value);
    SettledIsFinal(w.items, receipts, batch, StateFromSettlement(a).value, m);
    hide ItemsMarked, Concluded, OneRecordEach, Undecided, Payouts, SameMoney;
  }

  lemma {:induction false} ConcludedItems(w: World, batch: Id, owner: Id, amount: int, a: Answer, k: nat)
    requires Payouts(w) && k < |w.txs| && SameMoney(w.txs[k], batch, owner, amount) && Truthful(w.txs[k].fate, a)
    requires StateFromSettlement(a).Some?
    ensures Concluded(w, batch, owner, amount, a).items == ItemsMarked(w.items, batch, StateFromSettlement(a).value)
  {
    RefundIsPossible(w, batch, owner, amount, a, k);
    hide ReversalOf, Payouts, Post;
  }

  /** After the batches in done: open are those that were, but for the ones whose answer decided. */
  ghost predicate StillOpen(items: seq<Item>, was: seq<Item>, receipts: set<Id>, done: seq<Id>, answers: Id -> Answer)
  {
    forall b :: Undecided(items, receipts, b) <==>
                Undecided(was, receipts, b) && (b in done ==> StateFromSettlement(answers(b)).None?)
  }

  lemma {:induction false} NextIsOpen(items: seq<Item>, was: seq<Item>, receipts: set<Id>, list: seq<Id>, i: nat, answers: Id -> Answer)
    requires i < |list| && StillOpen(items, was, receipts, list[..i], answers) && Undecided(was, receipts, list[i])
    requires forall m, k :: 0 <= m < k < |list| ==> list[m] != list[k]
    ensures Undecided(items, receipts, list[i])
  {
    assert list[i] !in list[..i];
    hide Undecided;
  }

  lemma {:induction false} StillOpenNext(items: seq<Item>, next: seq<Item>, was: seq<Item>, receipts: set<Id>, list: seq<Id>, i: nat,
                                         answers: Id -> Answer)
    requires i < |list| && StillOpen(items, was, receipts, list[..i], answers)
    requires forall m, k :: 0 <= m < k < |list| ==> list[m] != list[k]
    requires forall b :: Undecided(next, receipts, b) <==>
                         Undecided(items, receipts, b) && (b == list[i] ==> StateFromSettlement(answers(list[i])).None?)
    ensures StillOpen(next, was, receipts, list[..i + 1], answers)
  {
    assert list[..i + 1] == list[..i] + [list[i]];
    assert list[i] !in list[..i];
    hide Undecided, StateFromSettlement;
  }

  lemma {:induction false} StillOpenNone(items: seq<Item>, receipts: set<Id>, list: seq<Id>, answers: Id -> Answer)
    ensures StillOpen(items, items, receipts, list[..0], answers)
  {}

  lemma {:induction false} StillOpenAll(items: seq<Item>, was: seq<Item>, receipts: set<Id>, list: seq<Id>, answers: Id -> Answer)
    requires StillOpen(items, was, receipts, list, answers) && forall b :: b in list <==> Undecided(was, receipts, b)
    ensures forall b :: Undecided(items, receipts, b) <==> Undecided(was, receipts, b) && StateFromSettlement(answers(b)).None?
  {}

  lemma {:induction false} ResumeNone(w: World, list: seq<Id>, answers: Id -> Answer)
    ensures ResumeEach(w, list[..0], answers) == w
  {}

  lemma {:induction false} ResumeNext(w: World, list: seq<Id>, i: nat, answers: Id -> Answer)
    requires i < |list|
    ensures ResumeEach(w, list[..i + 1], answers) == ResumeBatch(ResumeEach(w, list[..i], answers), list[i], answers(list[i]))
  {
    assert list[..i + 1][..i] == list[..i];
  }

  /** Withdrawals record one payment per batch. */
  ghost predicate OneRecordEach(items: seq<Item>)
  {
    forall i, k :: 0 <= i < k < |items| ==> items[i].batch != items[k].batch
  }

  function RecordAt(items: seq<Item>, batch: Id): (k: int)
    ensures -1 <= k < |items|
    ensures 0 <= k ==> items[k].batch == batch
    ensures k == -1 ==> forall i :: 0 <= i < |items| ==> items[i].batch != batch
  {
    LastIndex(items, OfBatch(batch))
  }

  function ResumeBatch(w: World, batch: Id, a: Answer): World
  {
    var k := RecordAt(w.items, batch);
    if k < 0 then w else Resume(w, k, a, false)
  }

  function ResumeEach(w: World, open: seq<Id>, answers: Id -> Answer): World
  {
    if |open| == 0 then w
    else ResumeBatch(ResumeEach(w, open[..|open| - 1], answers), open[|open| - 1], answers(open[|open| - 1]))
  }

  lemma {:induction false} OneRecord(items: seq<Item>, batch: Id)
    requires OneRecordEach(items)
    ensures Keep(items, OfBatch(batch)) == if RecordAt(items, batch) < 0 then [] else [items[RecordAt(items, batch)]]
  {
    if |items| > 0 {
      var front, last := items[..|items| - 1], items[|items| - 1];
      OneRecord(front, batch);
      if last.batch == batch {
        assert RecordAt(front, batch) < 0;
      } else {
        assert RecordAt(items, batch) == RecordAt(front, batch);
      }
    }
  }

  lemma {:induction false} MarkingKeepsOne(items: seq<Item>, batch: Id, state: ItemState)
    requires OneRecordEach(items)
    ensures OneRecordEach(ItemsMarked(items, batch, state))
  {}

  lemma {:induction false} RecordHasTx(w: World, m: nat, k: int)
    requires Payouts(w) && m < |w.items| && k == TxAt(w, w.items[m].batch)
    ensures 0 <= k && SameMoney(w.txs[k], w.items[m].batch, w.items[m].owner, w.items[m].amount)
  {
    assert ItemLinked(w, w.items[m]);
    var i :| 0 <= i < |w.txs| && SameMoney(w.txs[i], w.items[m].batch, w.items[m].owner, w.items[m].amount);
  }

  lemma {:induction false} ResumeUnfolds(w: World, m: nat, k: nat, a: Answer)
    requires m < |w.items| && w.items[m].state == ItemSubmitted && k == TxAt(w, w.items[m].batch) && Truthful(w.txs[k].fate, a)
    ensures Resume(w, m, a, false) ==
            if StateFromSettlement(a).None? then w else Concluded(w, w.items[m].batch, w.items[m].owner, w.items[m].amount, a)
  {
    hide Settle, Refund;
  }

  lemma {:induction false} AskedAbout(w: World, pid: nat, k: nat)
    requires Payouts(w) && pid in w.procs && Signed(w.procs[pid].phase)
    requires k < |w.txs| && w.txs[k].batch == w.procs[pid].phase.batch
    ensures SameMoney(w.txs[k], w.procs[pid].phase.batch, w.procs[pid].owner, w.procs[pid].amount)
  {
    var p := w.procs[pid];
    assert ProcLinked(w, p);
    var m :| 0 <= m < |w.txs| && SameMoney(w.txs[m], p.phase.batch, p.owner, p.amount);
  }

  /** `reverse` finds the submit, and what it copies is in range. */
  lemma {:induction false} RefundFits(j: seq<Posting>, txs: seq<Tx>, k: nat)
    requires Linked(j, txs) && k < |txs| && txs[k].fate in {Failed, Dead} && InRange(txs[k].amount)
    ensures NoOverflow(EntriesOf(ReversalOf(j, txs[k].batch, txs[k].owner)), Amounts())
  {
    RefundPost(j, txs, k);
    hide ReversalOf;
    PartsOfTwo(EntriesOf(Reversal(Payout(txs[k].batch, txs[k].owner), EntriesOf(SubmitOf(txs[k])))));
  }

  lemma {:induction false} ReverseWorks(j: seq<Posting>, txs: seq<Tx>, k: nat)
    requires Linked(j, txs) && k < |txs| && txs[k].fate in {Failed, Dead} && InRange(txs[k].amount)
    ensures var p := ReversalOf(j, txs[k].batch, txs[k].owner);
            && p.original != [] && NoOverflow(EntriesOf(p), Amounts()) && PayoutShape(Post(j, p))
            && Post(j, p) == if HasId(j, ReversalId(Payout(txs[k].batch, txs[k].owner))) then j else j + [p]
  {
    RefundPost(j, txs, k);
    RefundFits(j, txs, k);
  }

  lemma {:induction false} RefundIsPossible(w: World, batch: Id, owner: Id, amount: int, a: Answer, k: nat)
    requires Payouts(w) && k < |w.txs| && SameMoney(w.txs[k], batch, owner, amount) && Truthful(w.txs[k].fate, a)
    ensures a in {SaysFailed, SaysExpired} ==> ReversalOf(w.journal, batch, owner).original != []
  {
    if a in {SaysFailed, SaysExpired} {
      RefundPost(w.journal, w.txs, k);
    }
  }

  /* ---------- one record per batch, in every run ---------- */

  /** Batch by batch, the records of the next world are those of this one. */
  ghost predicate SameBatches(items: seq<Item>, items': seq<Item>)
  {
    |items'| == |items| && forall i :: 0 <= i < |items| ==> items'[i].batch == items[i].batch
  }

  lemma {:induction false} RecordsOfPay(cfg: Config, w: World, e: PayEvent)
    requires Payouts(w) && OneRecordEach(w.items)
    ensures OneRecordEach(PayStep(cfg, w, e).items)
  {
    var w' := PayStep(cfg, w, e);
    if e.DoPrepared? {
      hide Prepared;
      var t := PreparedCases(w, e.pid, e.ok, e.submitCrash);
      if t.Some? {
        forall i | 0 <= i < |w.items| ensures w.items[i].batch != t.value.batch {
          assert ItemLinked(w, w.items[i]);
        }
      }
    } else {
      hide Prepared, Begin, Validated, Sent, ChainDecides, Answered, Resume, Payouts;
      if e.DoAnswered? {
        AnsweredBatches(w, e.pid, e.answer, e.crash);
      } else if e.DoResume? {
        ResumedBatches(w, e.k, e.answer, e.crash);
      }
      assert SameBatches(w.items, w'.items);
    }
  }

  lemma {:induction false} AnsweredBatches(w: World, pid: nat, a: Answer, crash: bool)
    ensures SameBatches(w.items, Answered(w, pid, a, crash).items)
  {
    hide Truthful, TxAt, ReversalOf, Post;
  }

  lemma {:induction false} ResumedBatches(w: World, k: nat, a: Answer, crash: bool)
    ensures SameBatches(w.items, Resume(w, k, a, crash).items)
  {
    hide Truthful, TxAt, ReversalOf, Post, Expand, ByRef;
    if k < |w.items| && Resume(w, k, a, crash).items != w.items {
      assert Resume(w, k, a, crash).items == ItemsMarked(w.items, w.items[k].batch, if a == SaysSettled then ItemSettled else ItemFailed);
    }
    hide Resume;
  }

  lemma {:induction false} OneRecordPerBatch(cfg: Config, events: seq<Event>)
    ensures Good(Run(cfg, Empty(), events)) && OneRecordEach(Run(cfg, Empty(), events).items)
  {
    Reachable(cfg, events);
    if |events| > 0 {
      var before, last := events[..|events| - 1], events[|events| - 1];
      OneRecordPerBatch(cfg, before);
      hide AdStep, PayStep, MarketStep;
      if last.Pay? {
        RecordsOfPay(cfg, Run(cfg, Empty(), before), last.pay);
      }
    }
  }
}
