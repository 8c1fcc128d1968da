/** A run in which a crash between the ledger entry and the record leaves a payout in flight for ever. */
module WitnessPayout {
  import opened Common
  import opened Sums
  import opened Ledger
  import opened World
  import opened WorldPayments
  import opened WorldWitness

  const BATCH: Id := Id(11)
  const ASKED: int := 4_000_000

  function Asked(): seq<Event>
  {
    [Pay(DoDeposit(SPONSOR, FUNDS, Id(9))), Pay(DoBegin(0, AdvertiserKind, SPONSOR, ASKED)), Pay(DoValidated(0, true, BATCH))]
  }

  function Stranded(): seq<Event> { Asked() + [Pay(DoPrepared(0, true, AfterLedger))] }

  lemma {:induction false} OneDeposit(j: seq<Posting>)
    requires j == [Topup(Id(9), SPONSOR, FUNDS)]
    ensures Balance(j, Advertiser(SPONSOR)) == FUNDS
  {
    var a := Advertiser(SPONSOR);
    SumAppend([], j[0], Effect(a));
    assert j == [] + [j[0]];
    assert Effect(a)(j[0]) == EffectOf(j[0], a) == FUNDS;
    hide EffectOf;
  }

  lemma {:induction false} FundsAreSpendable(w: World)
    requires w.journal == [Topup(Id(9), SPONSOR, FUNDS)] && w.deliveries == [] && w.impressions == [] && w.pools == []
    ensures WithdrawLimit(w, AdvertiserKind, SPONSOR) == FUNDS && Balance(w.journal, Advertiser(SPONSOR)) == FUNDS
  {
    OneDeposit(w.journal);
    hide Balance;
    assert LiveSum(w, RateOf(SPONSOR)) == 0 && PendingSum(w, RateOf(SPONSOR)) == 0;
    assert PoolReserve(w, SPONSOR) == 0;
  }

  /** The withdrawal waits for its envelope to be signed. */
  ghost predicate Signing(w: World)
  {
    && w.journal == [Topup(Id(9), SPONSOR, FUNDS)] && w.deliveries == [] && w.impressions == [] && w.pools == []
    && w.txs == [] && w.items == []
    && w.procs == map[0 := Proc(AdvertiserKind, SPONSOR, ASKED, Preparing(BATCH))]
  }

  lemma {:induction false} AsksAndWaits(w: World)
    requires w == Empty().(journal := [Topup(Id(9), SPONSOR, FUNDS)])
    ensures Signing(Validated(Begin(w, 0, AdvertiserKind, SPONSOR, ASKED), 0, true, BATCH))
  {
    FundsAreSpendable(w);
    hide WithdrawLimit;
    assert !Busy(w, AdvertiserKind, SPONSOR);
  }

  lemma {:induction false} GetsToSigning()
    ensures Signing(Run(CFG, Empty(), Asked()))
  {
    var e := Asked();
    var w := Deposit(Empty(), SPONSOR, FUNDS, Id(9));
    assert w == Empty().(journal := [Topup(Id(9), SPONSOR, FUNDS)]);
    AsksAndWaits(w);
    assert Run(CFG, Empty(), []) == Empty();
    hide Run, Signing, Begin, Validated, Deposit, Empty;
    RunExtends([], e[0]);
    RunExtends([e[0]], e[1]);
    RunExtends([e[0], e[1]], e[2]);
    assert [] + [e[0]] == [e[0]] && [e[0]] + [e[1]] == [e[0], e[1]] && [e[0], e[1]] + [e[2]] == e;
  }

  lemma {:induction false} DiesAfterLedger(w: World)
    requires Signing(w)
    ensures var w' := Prepared(w, 0, true, AfterLedger);
            && w'.items == [] && w'.txs == [Tx(AdvertiserKind, BATCH, SPONSOR, ASKED, false, Open)]
            && w'.journal == [Topup(Id(9), SPONSOR, FUNDS), Submitted(AdvertiserKind, BATCH, SPONSOR, ASKED)]
  {
    FundsAreSpendable(w);
    hide WithdrawLimit;
    assert Post(w.journal, Submitted(AdvertiserKind, BATCH, SPONSOR, ASKED)) == w.journal + [Submitted(AdvertiserKind, BATCH, SPONSOR, ASKED)];
  }

  /** The ledger holds the payout, no record of it exists, and whatever happens later it is never settled nor given back. */
  lemma {:induction false} CrashStrandsThePayout()
    ensures var w := Run(CFG, Empty(), Stranded());
            && |w.txs| == 1 && !Recorded(w, w.txs[0].batch) && !IsAnswered(w, w.txs[0])
            && Submitted(AdvertiserKind, BATCH, SPONSOR, ASKED) in w.journal
            && forall after: seq<Event> :: !IsAnswered(Run(CFG, w, after), w.txs[0])
  {
    hide Run, Prepared, WithdrawLimit, Balance;
    var w := Run(CFG, Empty(), Stranded());
    GetsToSigning();
    RunExtends(Asked(), Pay(DoPrepared(0, true, AfterLedger)));
    DiesAfterLedger(Run(CFG, Empty(), Asked()));
    assert w == Prepared(Run(CFG, Empty(), Asked()), 0, true, AfterLedger);
    hide Stranded, Asked, Step;
    assert w.journal[1] in w.journal;
    ResolvableIffRecorded(CFG, Stranded(), 0);
  }
}
