/**
  The two ends of the reporting link: the server goes through a run of the money machine and the client
  through a run of its queue, so what was proved of either speaks of the link.
  */
module LinkRuns {
  import opened Common
  import opened Serving
  import opened World
  import opened WorldBilling
  import opened AdServer
  import opened QueueRuns
  import L = Link
  import Q = Queue

  function Ingests(publisher: Id, batch: seq<Report>): seq<Event>
  {
    seq(|batch|, i requires 0 <= i < |batch| => Ad(DoIngest(publisher, batch[i], NoCrash)))
  }

  /** What one event of the link does at the server, step by step. */
  function AtServer(ends: L.Ends, n: L.Net, e: L.Event): seq<Event>
  {
    match e
    case Arrives(k) => if k >= |n.requests| then [] else Ingests(ends.publisher, n.requests[k])
    case ArrivesAndDies(k, taken, crash) =>
      if k >= |n.requests| || taken >= |n.requests[k]| then []
      else Ingests(ends.publisher, n.requests[k][..taken])
           + [Ad(DoIngest(ends.publisher, n.requests[k][taken], crash)), Ad(DoRestart)]
    case Other(event) => [event]
    case _ => []
  }

  function ServerEvents(ends: L.Ends, events: seq<L.Event>): seq<Event>
  {
    if |events| == 0 then []
    else
      var front := events[..|events| - 1];
      ServerEvents(ends, front) + AtServer(ends, L.Run(ends, front), events[|events| - 1])
  }

  lemma {:induction false} BatchIsARun(cfg: Config, w: World, publisher: Id, batch: seq<Report>)
    ensures Run(cfg, w, Ingests(publisher, batch)) == IngestMany(cfg, w, publisher, batch)
  {
    if |batch| > 0 {
      var front := batch[..|batch| - 1];
      BatchIsARun(cfg, w, publisher, front);
      assert Ingests(publisher, batch)[..|front|] == Ingests(publisher, front);
    }
  }

  lemma {:induction false} DyingIsARun(cfg: Config, w: World, publisher: Id, batch: seq<Report>, taken: nat, crash: IngestCrash)
    requires taken < |batch|
    ensures Run(cfg, w, Ingests(publisher, batch[..taken]) + [Ad(DoIngest(publisher, batch[taken], crash)), Ad(DoRestart)]) ==
            Reboot(Ingest(cfg, IngestMany(cfg, w, publisher, batch[..taken]), publisher, batch[taken], crash))
  {
    var first, last := Ingests(publisher, batch[..taken]), Ad(DoIngest(publisher, batch[taken], crash));
    BatchIsARun(cfg, w, publisher, batch[..taken]);
    RunNext(cfg, w, first, last);
    RunNext(cfg, w, first + [last], Ad(DoRestart));
    assert first + [last] + [Ad(DoRestart)] == first + [last, Ad(DoRestart)];
    hide Run, Ingest, IngestMany, Reboot, Ingests;
  }

  /** The world at the end of the link is a run of the machine: every result about runs speaks of the link too. */
  lemma {:induction false} LinkIsARun(ends: L.Ends, events: seq<L.Event>)
    ensures L.Run(ends, events).world == Run(ends.cfg, Empty(), ServerEvents(ends, events))
  {
    if |events| > 0 {
      var front, e := events[..|events| - 1], events[|events| - 1];
      var n := L.Run(ends, front);
      LinkIsARun(ends, front);
      hide Run;
      StepIsARun(ends, n, e);
      RunSplits(ends.cfg, Empty(), ServerEvents(ends, front), AtServer(ends, n, e));
      hide L.Step, AtServer;
    }
  }

  lemma {:induction false} StepIsARun(ends: L.Ends, n: L.Net, e: L.Event)
    ensures L.Step(ends, n, e).world == Run(ends.cfg, n.world, AtServer(ends, n, e))
  {
    match e {
      case Arrives(k) => if k < |n.requests| { BatchIsARun(ends.cfg, n.world, ends.publisher, n.requests[k]); }
      case ArrivesAndDies(k, taken, crash) =>
        if k < |n.requests| && taken < |n.requests[k]| {
          DyingIsARun(ends.cfg, n.world, ends.publisher, n.requests[k], taken, crash);
        }
      case Other(event) =>
        assert [event][..0] == [];
      case _ =>
    }
  }

  /** Exactly-once billing, over a link that loses, delays and repeats messages and ends that die. */
  lemma {:induction false} BilledOnceOverTheLink(ends: L.Ends, events: seq<L.Event>)
    ensures BilledOnce(L.Run(ends, events).world)
  {
    LinkIsARun(ends, events);
    ExactlyOnceBilling(ends.cfg, ServerEvents(ends, events));
  }

  /* ---------- the client ---------- */

  /** What one event of the link writes at the client. */
  function AtClient(n: L.Net, e: L.Event): seq<Q.Op>
  {
    match e
    case Produced(r) => [Q.Add(r)]
    case ProducedTorn(r, cut) => [Q.TornAdd(r, cut)]
    case Compacted(p) => [Q.Compact(p)]
    case Answered(k) => if k < |n.responses| then [Q.Mark(n.responses[k])] else []
    case AnsweredTorn(k, whole, cut) => if k < |n.responses| then [Q.TornMark(n.responses[k], whole, cut)] else []
    case _ => []
  }

  function ClientWrites(ends: L.Ends, events: seq<L.Event>): seq<Q.Op>
  {
    if |events| == 0 then []
    else
      var front := events[..|events| - 1];
      ClientWrites(ends, front) + AtClient(L.Run(ends, front), events[|events| - 1])
  }

  lemma {:induction false} ClientStep(ends: L.Ends, n: L.Net, e: L.Event, ops: seq<Q.Op>)
    requires n.disk == Q.DoAll(ops, ends.maxEntries)
    ensures L.Step(ends, n, e).disk == Q.DoAll(ops + AtClient(n, e), ends.maxEntries)
  {
    var more := AtClient(n, e);
    if |more| == 1 {
      DoNext(ops, more[0], ends.maxEntries);
      assert more == [more[0]];
    } else {
      assert ops + more == ops;
    }
    hide Q.Do, Q.DoAll, IngestMany, Ingest, Step, L.Done;
  }

  lemma {:induction false} ClientIsARun(ends: L.Ends, events: seq<L.Event>)
    ensures L.Run(ends, events).disk == Q.DoAll(ClientWrites(ends, events), ends.maxEntries)
  {
    if |events| > 0 {
      var front, e := events[..|events| - 1], events[|events| - 1];
      ClientIsARun(ends, front);
      ClientStep(ends, L.Run(ends, front), e, ClientWrites(ends, front));
      hide L.Step, AtClient, Q.DoAll;
    }
  }

  /** Whatever the client marks, in full or in part, the server had judged. */
  lemma {:induction false} MarksWereJudged(ends: L.Ends, events: seq<L.Event>)
    ensures forall k, id :: 0 <= k < |ClientWrites(ends, events)| && id in Reached(ClientWrites(ends, events)[k])
              ==> L.Judged(ends, events, id)
  {
    if |events| > 0 {
      var front, e := events[..|events| - 1], events[|events| - 1];
      var before, ops := ClientWrites(ends, front), ClientWrites(ends, events);
      assert events == front + [e];
      MarksWereJudged(ends, front);
      L.NothingMarkedEarly(ends, front);
      var n := L.Run(ends, front);
      forall k, id | 0 <= k < |ops| && id in Reached(ops[k]) ensures L.Judged(ends, events, id) {
        if k < |before| {
          assert ops[k] == before[k];
        } else {
          NewMark(n, e, ops[k], id);
        }
        hide L.Judged, L.Run, Reached, AtClient;
        L.JudgedStays(ends, front, e, id);
      }
    }
  }

  lemma {:induction false} NewMark(n: L.Net, e: L.Event, op: Q.Op, id: Id)
    requires op in AtClient(n, e) && id in Reached(op)
    ensures (e.Answered? || e.AnsweredTorn?) && e.response < |n.responses| && id in n.responses[e.response]
  {}

  /** The server never stored a verdict on this record, and no compaction dropped it among the oldest. */
  ghost predicate Kept(ends: L.Ends, events: seq<L.Event>, r: Q.Record)
  {
    !L.Judged(ends, events, r.id) && !Dropped(ClientWrites(ends, events), ends.maxEntries, r)
  }

  /**
    Nothing is lost end to end: over any run of the link, a record that landed on a line of its own and
    on which the server never stored a verdict is still pending, in its place, unless a compaction
    dropped it among the oldest. What is pending is given by its positions among the client's writes.
    */
  lemma {:induction false} UnjudgedStaysPending(ends: L.Ends, events: seq<L.Event>) returns (at: seq<nat>)
    ensures var ops := ClientWrites(ends, events);
            && Increasing(at, |ops|) && AllWrite(ops, at)
            && Q.Pending(L.Run(ends, events).disk) == RecordsAt(ops, at)
            && (forall i :: 0 <= i < |ops| && Writes(ops[i]) && Lands(ops, i) && Kept(ends, events, ops[i].record) ==> i in at)
  {
    var ops := ClientWrites(ends, events);
    ClientIsARun(ends, events);
    MarksWereJudged(ends, events);
    at := PendingAfterTears(ops, ends.maxEntries);
    hide Reached, Lands, Dropped, L.Judged, ClientWrites, L.Run, Surely, RecordsAt;
    forall i | 0 <= i < |ops| && Writes(ops[i]) && Lands(ops, i) && Kept(ends, events, ops[i].record) ensures i in at {
      assert Unmarked(ops, ops[i].record.id);
    }
  }
}
