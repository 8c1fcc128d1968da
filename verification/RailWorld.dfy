/**
  The rail and the money machine together: the server believes whatever the rail answers, and the answers
  come from a reading of the chain and a reading of the clock (packages/payments/src/stellar-rail.ts:237-259,
  packages/server/src/payouts/withdraw.ts:201-233).

  Each batch has an envelope that says what the chain will do with it in the end; the world's fates foretell that.
  */
module RailWorld {
  import opened Common
  import opened Ledger
  import opened Serving
  import opened World
  import opened WorldPayments
  import opened Rail

  /** What one question to the rail sees: the chain as it stood at `view`, then the clock; or nothing at all. */
  datatype Reading = Seen(view: int, clock: int) | Lost

  datatype RailEvent =
    | AtServer(event: Event)                                        // anything but the chain and its answers
    | AnswersProc(pid: nat, reading: Reading, crash: bool)         // a running withdrawal hears from the rail
    | AnswersRecord(k: nat, reading: Reading, crash: bool)         // so does the recovery of a record

  type Envelopes = Id -> Envelope

  /** An envelope that never left the server enters no ledger. */
  function EnvelopeOf(env: Envelopes, t: Tx): Envelope
  {
    if t.sent then env(t.batch) else env(t.batch).(inclusion := None)
  }

  function Says(env: Envelopes, t: Tx, reading: Reading): Answer
  {
    match reading
    case Seen(view, clock) => Reconcile(EnvelopeOf(env, t), view, clock)
    case Lost => Throws
  }

  predicate FromChain(e: Event) { e.Pay? && (e.pay.DoAnswered? || e.pay.DoResume? || e.pay.DoChain?) }

  /** The newest transaction's fate is foretold. */
  function Foretell(env: Envelopes, w: World): Event
  {
    if |w.txs| == 0 then Tick(0) else Pay(DoChain(|w.txs| - 1, FinalFate(EnvelopeOf(env, w.txs[|w.txs| - 1]))))
  }

  function FateSaid(a: Answer, fate: Fate): Fate
  {
    match a
    case SaysSettled => Applied
    case SaysFailed => Fate.Failed
    case SaysExpired => Dead
    case _ => fate
  }

  /** The world the server takes itself to be in after an answer about transaction k. */
  function Believed(w: World, k: nat, a: Answer): World
    requires k < |w.txs|
  {
    w.(txs := w.txs[k := w.txs[k].(fate := FateSaid(a, w.txs[k].fate))])
  }

  /** The transaction an event asks about, if it asks at all. */
  function AskedAbout(w: World, e: RailEvent): Option<nat>
  {
    match e
    case AtServer(_) => None
    case AnswersProc(pid, _, _) =>
      if pid in w.procs && w.procs[pid].phase.Asking? && TxAt(w, w.procs[pid].phase.batch) >= 0
      then Some(TxAt(w, w.procs[pid].phase.batch)) else None
    case AnswersRecord(i, _, _) =>
      if i < |w.items| && TxAt(w, w.items[i].batch) >= 0 then Some(TxAt(w, w.items[i].batch)) else None
  }

  /** The machine's event for hearing an answer. */
  function Hearing(e: RailEvent, a: Answer): Event
    requires !e.AtServer?
  {
    match e
    case AnswersProc(pid, _, crash) => Pay(DoAnswered(pid, a, crash))
    case AnswersRecord(i, _, crash) => Pay(DoResume(i, a, crash))
  }

  /** The server acts on an answer as though it were true; what the chain does stays what it is. */
  function RailStep(env: Envelopes, cfg: Config, w: World, e: RailEvent): World
  {
    if e.AtServer? then
      if FromChain(e.event) then w
      else
        var w' := Step(cfg, w, e.event);
        Step(cfg, w', Foretell(env, w'))
    else
      var k := AskedAbout(w, e);
      if k.None? then w
      else
        var a := Says(env, w.txs[k.value], e.reading);
        Step(cfg, Believed(w, k.value, a), Hearing(e, a)).(txs := w.txs)
  }

  function RailRun(env: Envelopes, cfg: Config, events: seq<RailEvent>): World
  {
    if |events| == 0 then Empty() else RailStep(env, cfg, RailRun(env, cfg, events[..|events| - 1]), events[|events| - 1])
  }

  /* ---------- when answers are true ---------- */

  /** The chain was seen at or after the time bound, or the clock had not passed it. */
  predicate Sound(e: Envelope, r: Reading) { r.Seen? ==> e.maxTime <= r.view || r.clock <= e.maxTime }

  predicate SoundAt(env: Envelopes, w: World, e: RailEvent)
  {
    var k := AskedAbout(w, e);
    k.Some? ==> Sound(env(w.txs[k.value].batch), e.reading)
  }

  ghost predicate AllSound(env: Envelopes, cfg: Config, events: seq<RailEvent>)
  {
    forall n :: 0 <= n < |events| ==> SoundAt(env, RailRun(env, cfg, events[..n]), events[n])
  }

  ghost predicate AllBounded(env: Envelopes) { forall b :: Bounded(env(b)) }

  lemma {:induction false} SoundIsTruthful(env: Envelopes, t: Tx, r: Reading)
    requires Bounded(env(t.batch)) && Sound(env(t.batch), r) && t.fate == FinalFate(EnvelopeOf(env, t))
    ensures Truthful(t.fate, Says(env, t, r)) && FateSaid(Says(env, t, r), t.fate) == t.fate
  {}

  /** The world's fates are what the envelopes say. */
  ghost predicate Decided(env: Envelopes, w: World)
  {
    forall k :: 0 <= k < |w.txs| ==> w.txs[k].fate == FinalFate(EnvelopeOf(env, w.txs[k]))
  }

  /** Short of the chain itself, a step adds at most one transaction, and its fate is open. */
  lemma {:induction false} TxsGrow(cfg: Config, w: World, e: Event)
    requires !FromChain(e)
    ensures var txs := Step(cfg, w, e).txs;
            txs == w.txs || (|txs| == |w.txs| + 1 && txs[..|w.txs|] == w.txs && txs[|w.txs|].fate == Open)
  {
    hide AdStep, MarketStep, Deposit, Begin, Validated, Sent, Answered, Resume, ChainDecides, WithdrawLimit, TxAt, Post, Balance;
  }

  lemma {:induction false} PlainDecides(env: Envelopes, cfg: Config, w: World, e: Event)
    requires Decided(env, w) && !FromChain(e)
    ensures Decided(env, RailStep(env, cfg, w, AtServer(e)))
  {
    var w' := Step(cfg, w, e);
    TxsGrow(cfg, w, e);
    hide Step;
    Foretold(env, cfg, w, w');
  }

  lemma {:induction false} Foretold(env: Envelopes, cfg: Config, w: World, w': World)
    requires Decided(env, w)
    requires w'.txs == w.txs || (|w'.txs| == |w.txs| + 1 && w'.txs[..|w.txs|] == w.txs && w'.txs[|w.txs|].fate == Open)
    ensures Decided(env, Step(cfg, w', Foretell(env, w')))
  {
    forall k | 0 <= k < |w.txs| ensures w'.txs[k] == w.txs[k] {
      assert w'.txs[..|w.txs|][k] == w.txs[k];
    }
    if |w'.txs| > 0 {
      LastDecided(env, w');
      assert Step(cfg, w', Foretell(env, w')) == ChainDecides(w', |w'.txs| - 1, FinalFate(EnvelopeOf(env, w'.txs[|w'.txs| - 1])));
      hide Step, ChainDecides, FinalFate, EnvelopeOf;
    }
  }

  lemma {:induction false} LastDecided(env: Envelopes, w: World)
    requires |w.txs| > 0
    ensures var last := |w.txs| - 1;
            var t := w.txs[last];
            var fate := FinalFate(EnvelopeOf(env, t));
            && ChainDecides(w, last, fate).txs == (if t.fate == Open then w.txs[last := t.(fate := fate)] else w.txs)
            && FinalFate(EnvelopeOf(env, t.(fate := fate))) == fate
  {}

  /** A sound answer is heard as the machine hears a truthful one. */
  lemma {:induction false} SoundAnswerIsAStep(env: Envelopes, cfg: Config, w: World, e: RailEvent)
    requires Decided(env, w) && AllBounded(env) && !e.AtServer? && AskedAbout(w, e).Some? && SoundAt(env, w, e)
    ensures RailStep(env, cfg, w, e) == Step(cfg, w, Hearing(e, Says(env, w.txs[AskedAbout(w, e).value], e.reading)))
    ensures RailStep(env, cfg, w, e).txs == w.txs
  {
    var k := AskedAbout(w, e).value;
    var a := Says(env, w.txs[k], e.reading);
    SoundIsTruthful(env, w.txs[k], e.reading);
    assert w.txs[k := w.txs[k]] == w.txs;
    assert Believed(w, k, a) == w;
    hide Answered, Resume;
  }

  /** What the machine does for one event. */
  function AtWorld(env: Envelopes, cfg: Config, w: World, e: RailEvent): seq<Event>
  {
    if e.AtServer? then (if FromChain(e.event) then [] else [e.event, Foretell(env, Step(cfg, w, e.event))])
    else
      var k := AskedAbout(w, e);
      if k.None? then [] else [Hearing(e, Says(env, w.txs[k.value], e.reading))]
  }

  function AllAtWorld(env: Envelopes, cfg: Config, events: seq<RailEvent>): seq<Event>
  {
    if |events| == 0 then []
    else
      var front := events[..|events| - 1];
      AllAtWorld(env, cfg, front) + AtWorld(env, cfg, RailRun(env, cfg, front), events[|events| - 1])
  }

  lemma {:induction false} SoundStep(env: Envelopes, cfg: Config, w: World, e: RailEvent)
    requires Decided(env, w) && AllBounded(env) && SoundAt(env, w, e)
    ensures RailStep(env, cfg, w, e) == Run(cfg, w, AtWorld(env, cfg, w, e)) && Decided(env, RailStep(env, cfg, w, e))
  {
    if e.AtServer? {
      if !FromChain(e.event) {
        PlainDecides(env, cfg, w, e.event);
        RunTwo(cfg, w, e.event, Foretell(env, Step(cfg, w, e.event)));
      }
    } else if AskedAbout(w, e).Some? {
      SoundAnswerIsAStep(env, cfg, w, e);
      RunOne(cfg, w, Hearing(e, Says(env, w.txs[AskedAbout(w, e).value], e.reading)));
    }
    hide Step, Resume, Foretell, Says, Hearing;
  }

  /** While every reading is sound, the server with the rail goes through a run of the money machine. */
  lemma {:induction false} SoundRunIsARun(env: Envelopes, cfg: Config, events: seq<RailEvent>)
    requires AllBounded(env) && AllSound(env, cfg, events)
    ensures RailRun(env, cfg, events) == Run(cfg, Empty(), AllAtWorld(env, cfg, events))
    ensures Decided(env, RailRun(env, cfg, events))
  {
    if |events| > 0 {
      var front, e := events[..|events| - 1], events[|events| - 1];
      forall n | 0 <= n < |front| ensures SoundAt(env, RailRun(env, cfg, front[..n]), front[n]) {
        assert front[..n] == events[..n];
      }
      SoundRunIsARun(env, cfg, front);
      var w := RailRun(env, cfg, front);
      assert SoundAt(env, w, e);
      hide Run, RailStep, AtWorld, Decided, SoundAt;
      SoundStep(env, cfg, w, e);
      RunSplits(cfg, Empty(), AllAtWorld(env, cfg, front), AtWorld(env, cfg, w, e));
    }
  }

  /* ---------- no double payment under the rail ---------- */

  /**
    Settled means the chain applies the payout, reversed that it does not, never both, and the chain pays
    nobody more in the end than the ledger took for it.
    */
  ghost predicate Safe(env: Envelopes, w: World)
  {
    && (forall k :: 0 <= k < |w.txs| ==> SafeTx(env, w, w.txs[k]))
    && (forall owner {:trigger ChainPaid(w, owner)} :: ChainPaid(w, owner) <= Debited(w.journal, owner))
  }

  ghost predicate SafeTx(env: Envelopes, w: World, t: Tx)
  {
    && t.fate == FinalFate(EnvelopeOf(env, t))
    && !(IsSettled(w.journal, t) && IsReversed(w.journal, t))
    && (IsSettled(w.journal, t) ==> t.fate == Applied)
    && (IsReversed(w.journal, t) ==> t.fate != Applied)
  }

  /** Over every run whose readings are all sound. */
  lemma {:induction false} SoundReadingsAreSafe(env: Envelopes, cfg: Config, events: seq<RailEvent>)
    requires AllBounded(env) && AllSound(env, cfg, events)
    ensures Safe(env, RailRun(env, cfg, events))
  {
    var w, flat := RailRun(env, cfg, events), AllAtWorld(env, cfg, events);
    SoundRunIsARun(env, cfg, events);
    hide Run, RailRun, AllAtWorld, AllSound;
    forall owner ensures ChainPaid(w, owner) <= Debited(w.journal, owner) {
      NoDoublePayment(cfg, flat, owner);
    }
    NoDoublePayment(cfg, flat, EMPTY);
    hide IsSettled, IsReversed, FinalFate;
    forall k | 0 <= k < |w.txs| ensures SafeTx(env, w, w.txs[k]) {}
  }
}
