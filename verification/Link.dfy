/**
  The reporting link end to end: a client's queue files, a network that loses, delays and repeats
  messages, and the server's money machine (packages/cli/src/daemon/sync.ts `#flush`,
  packages/server/src/impressions/ingest.ts).
  */
module Link {
  import opened Common
  import opened Serving
  import opened World
  import opened WorldShape
  import opened AdServer
  import Q = Queue

  const BATCH: nat := 500

  /** One client and the server; what was sent may arrive any number of times, at any later moment, or never. */
  datatype Net = Net(world: World, disk: Q.Disk, requests: seq<seq<Report>>, responses: seq<seq<Id>>)

  /** Who reports, how records are put on the wire, and how the two ends are configured. */
  datatype Ends = Ends(cfg: Config, publisher: Id, wire: Q.Record -> Report, maxEntries: nat)

  datatype Event =
    | Produced(record: Q.Record)                     // the turn machine finished an impression
    | ProducedTorn(record: Q.Record, cut: Q.Cut)     // the client dies writing it
    | Compacted(progress: Q.Progress)                // possibly cut off by a crash of the client
    | Flush                                          // a batch is put on the wire
    | Arrives(request: nat)                          // the server takes a batch in and answers
    | ArrivesAndDies(request: nat, taken: nat, crash: IngestCrash)   // it takes in a part and is restarted
    | Answered(response: nat)                        // an answer reaches the client
    | AnsweredTorn(response: nat, whole: nat, cut: Q.Cut)   // the client dies marking what it lists
    | Other(event: Machine.Event)                    // anything else at the server

  function Wired(ends: Ends, rs: seq<Q.Record>): seq<Report>
  {
    seq(|rs|, i requires 0 <= i < |rs| => ends.wire(rs[i]))
  }

  function FirstOf<T>(s: seq<T>, n: nat): (r: seq<T>)
    ensures r <= s && |r| == Min(|s|, n)
  {
    if |s| > n then s[..n] else s
  }

  function IdsOf(rejected: seq<(Id, Reason)>): seq<Id>
  {
    seq(|rejected|, i requires 0 <= i < |rejected| => rejected[i].0)
  }

  /** The identifiers an answer lists: accepted, rejected and duplicate alike. */
  function Done(ends: Ends, w: World, batch: seq<Report>): seq<Id>
  {
    AcceptedIn(ends.cfg, w, ends.publisher, batch) + IdsOf(RejectedIn(ends.cfg, w, ends.publisher, batch))
    + DuplicatesIn(ends.cfg, w, ends.publisher, batch)
  }

  function Step(ends: Ends, n: Net, e: Event): Net
  {
    match e
    case Produced(r) => n.(disk := Q.Do(n.disk, Q.Add(r), ends.maxEntries))
    case ProducedTorn(r, cut) => n.(disk := Q.Do(n.disk, Q.TornAdd(r, cut), ends.maxEntries))
    case Compacted(p) => n.(disk := Q.Do(n.disk, Q.Compact(p), ends.maxEntries))
    case Flush =>
      var batch := FirstOf(Q.Pending(n.disk), BATCH);
      if |batch| == 0 then n else n.(requests := n.requests + [Wired(ends, batch)])
    case Arrives(k) =>
      if k >= |n.requests| then n
      else n.(world := IngestMany(ends.cfg, n.world, ends.publisher, n.requests[k]),
              responses := n.responses + [Done(ends, n.world, n.requests[k])])
    case ArrivesAndDies(k, taken, crash) =>
      if k >= |n.requests| || taken >= |n.requests[k]| then n
      else
        var w := IngestMany(ends.cfg, n.world, ends.publisher, n.requests[k][..taken]);
        n.(world := Reboot(Ingest(ends.cfg, w, ends.publisher, n.requests[k][taken], crash)))
    case Answered(k) =>
      if k >= |n.responses| then n else n.(disk := Q.Do(n.disk, Q.Mark(n.responses[k]), ends.maxEntries))
    case AnsweredTorn(k, whole, cut) =>
      if k >= |n.responses| then n else n.(disk := Q.Do(n.disk, Q.TornMark(n.responses[k], whole, cut), ends.maxEntries))
    case Other(event) => n.(world := Machine.Step(ends.cfg, n.world, event))
  }

  function Start(): Net { Net(Empty(), Q.Disk(Q.NO_RECORDS, Q.NONE_SENT), [], []) }

  function Run(ends: Ends, events: seq<Event>): Net
  {
    if |events| == 0 then Start() else Step(ends, Run(ends, events[..|events| - 1]), events[|events| - 1])
  }

  /* ---------- what the server has judged ---------- */

  ghost predicate AllSeen(w: World, publisher: Id, batch: seq<Report>)
  {
    forall i :: 0 <= i < |batch| ==> Seen(w.impressions, publisher, batch[i].id)
  }

  ghost predicate StillSeen(w: World, w': World, publisher: Id)
  {
    forall id :: Seen(w.impressions, publisher, id) ==> Seen(w'.impressions, publisher, id)
  }

  /** Taking a batch in leaves a record of every event in it, and of everything that had one. */
  lemma {:induction false} BatchIsRecorded(cfg: Config, w: World, publisher: Id, batch: seq<Report>)
    ensures AllSeen(IngestMany(cfg, w, publisher, batch), publisher, batch)
    ensures StillSeen(w, IngestMany(cfg, w, publisher, batch), publisher)
  {
    if |batch| > 0 {
      var front, last := batch[..|batch| - 1], batch[|batch| - 1];
      BatchIsRecorded(cfg, w, publisher, front);
      OneIsRecorded(cfg, IngestMany(cfg, w, publisher, front), publisher, last);
      OneMoreSeen(w, IngestMany(cfg, w, publisher, front), IngestMany(cfg, w, publisher, batch), publisher, batch);
      hide Ingest, Seen, AllSeen, StillSeen;
    }
  }

  lemma {:induction false} OneMoreSeen(w: World, w1: World, w2: World, publisher: Id, batch: seq<Report>)
    requires |batch| > 0 && AllSeen(w1, publisher, batch[..|batch| - 1]) && StillSeen(w, w1, publisher)
    requires StillSeen(w1, w2, publisher) && Seen(w2.impressions, publisher, batch[|batch| - 1].id)
    ensures AllSeen(w2, publisher, batch) && StillSeen(w, w2, publisher)
  {
    hide Seen;
    var front := batch[..|batch| - 1];
    forall i | 0 <= i < |batch| ensures Seen(w2.impressions, publisher, batch[i].id) {
      if i < |front| {
        assert Seen(w1.impressions, publisher, front[i].id);
      }
    }
  }

  lemma {:induction false} OneIsRecorded(cfg: Config, w: World, publisher: Id, ev: Report)
    ensures Seen(Ingest(cfg, w, publisher, ev, NoCrash).impressions, publisher, ev.id)
    ensures StillSeen(w, Ingest(cfg, w, publisher, ev, NoCrash), publisher)
  {
    var w' := Ingest(cfg, w, publisher, ev, NoCrash);
    GrownIsSeen(w.impressions, w'.impressions, publisher);
    if |w'.impressions| > |w.impressions| {
      assert w'.impressions[|w.impressions|].id == ev.id && w'.impressions[|w.impressions|].publisher == publisher;
    }
  }

  lemma {:induction false} GrownIsSeen(a: seq<Impression>, b: seq<Impression>, publisher: Id)
    requires |a| <= |b| && forall i :: 0 <= i < |a| ==> b[i].publisher == a[i].publisher && b[i].id == a[i].id
    ensures forall id :: Seen(a, publisher, id) ==> Seen(b, publisher, id)
  {
    forall id | Seen(a, publisher, id) ensures Seen(b, publisher, id) {
      var i :| 0 <= i < |a| && a[i].publisher == publisher && a[i].id == id;
      assert b[i].publisher == publisher && b[i].id == id;
    }
  }

  ghost predicate Names(batch: seq<Report>, id: Id) { exists i :: 0 <= i < |batch| && batch[i].id == id }

  lemma {:induction false} ListsNameTheBatch(cfg: Config, w: World, publisher: Id, batch: seq<Report>)
    ensures forall id :: id in AcceptedIn(cfg, w, publisher, batch) ==> Names(batch, id)
    ensures forall p :: p in RejectedIn(cfg, w, publisher, batch) ==> Names(batch, p.0)
    ensures forall id :: id in DuplicatesIn(cfg, w, publisher, batch) ==> Names(batch, id)
  {
    if |batch| > 0 {
      var front, last := batch[..|batch| - 1], batch[|batch| - 1];
      ListsNameTheBatch(cfg, w, publisher, front);
      forall id | Names(front, id) ensures Names(batch, id) {
        var i :| 0 <= i < |front| && front[i].id == id;
        assert batch[i].id == id;
      }
      assert Names(batch, last.id);
      hide Names, IngestMany, VerdictOn;
    }
  }

  /** An answer lists only events of its batch. */
  lemma {:induction false} AnswersNameTheBatch(ends: Ends, w: World, batch: seq<Report>, id: Id)
    requires id in Done(ends, w, batch)
    ensures Names(batch, id)
  {
    ListsNameTheBatch(ends.cfg, w, ends.publisher, batch);
    var rejected := RejectedIn(ends.cfg, w, ends.publisher, batch);
    if id in IdsOf(rejected) {
      var i :| 0 <= i < |rejected| && IdsOf(rejected)[i] == id;
      assert rejected[i] in rejected;
    }
  }

  /** The server stored a verdict on this id at some moment of the run. */
  ghost predicate Judged(ends: Ends, events: seq<Event>, id: Id)
  {
    exists n :: 0 <= n <= |events| && SeenAt(ends, events[..n], id)
  }

  ghost predicate SeenAt(ends: Ends, events: seq<Event>, id: Id)
  {
    Seen(Run(ends, events).world.impressions, ends.publisher, id)
  }

  lemma {:induction false} JudgedStays(ends: Ends, events: seq<Event>, e: Event, id: Id)
    requires Judged(ends, events, id)
    ensures Judged(ends, events + [e], id)
  {
    var n :| 0 <= n <= |events| && SeenAt(ends, events[..n], id);
    assert (events + [e])[..n] == events[..n];
  }

  lemma {:induction false} SeenNow(ends: Ends, events: seq<Event>, id: Id)
    requires SeenAt(ends, events, id)
    ensures Judged(ends, events, id)
  {
    assert events[..|events|] == events;
  }

  ghost predicate AllJudged(ends: Ends, events: seq<Event>)
  {
    var n := Run(ends, events);
    && (forall id :: id in Q.ReadSent(n.disk.sent) ==> Judged(ends, events, id))
    && (forall k, id :: 0 <= k < |n.responses| && id in n.responses[k] ==> Judged(ends, events, id))
  }

  lemma {:induction false} SentFrom(ends: Ends, n: Net, e: Event, id: Id)
    requires id in Q.ReadSent(Step(ends, n, e).disk.sent)
    ensures id in Q.ReadSent(n.disk.sent) ||
            ((e.Answered? || e.AnsweredTorn?) && e.response < |n.responses| && id in n.responses[e.response])
  {
    hide IngestMany, Ingest, Reboot, Machine.Step;
    match e {
      case Answered(k) => if k < |n.responses| { Q.MarkedIds(n.disk.sent, n.responses[k]); }
      case AnsweredTorn(k, whole, cut) =>
        if k < |n.responses| && whole < |n.responses[k]| {
          Q.TornIsBetween(n.disk.sent, n.responses[k], whole, cut);
        }
      case Compacted(p) => Q.CompactedSent(n.disk, ends.maxEntries, p);
      case _ =>
    }
  }

  lemma {:induction false} MarkedWereJudged(ends: Ends, front: seq<Event>, e: Event, id: Id)
    requires AllJudged(ends, front) && id in Q.ReadSent(Run(ends, front + [e]).disk.sent)
    ensures Judged(ends, front + [e], id)
  {
    assert (front + [e])[..|front|] == front;
    SentFrom(ends, Run(ends, front), e, id);
    hide Judged, Step, Run;
    JudgedStays(ends, front, e, id);
  }

  lemma {:induction false} AnsweredWereJudged(ends: Ends, front: seq<Event>, e: Event, k: nat, id: Id)
    requires AllJudged(ends, front)
    requires k < |Run(ends, front + [e]).responses| && id in Run(ends, front + [e]).responses[k]
    ensures Judged(ends, front + [e], id)
  {
    assert (front + [e])[..|front|] == front;
    NewResponses(ends, Run(ends, front), e);
    if k < |Run(ends, front).responses| {
      hide Judged, Step, Run;
      JudgedStays(ends, front, e, id);
    } else {
      AnswerIsJudged(ends, front, e, id);
    }
  }

  /**
    Nothing is marked as sent before the server has stored a verdict on it: through lost requests, lost
    answers, repeated and late ones, and crashes on both sides.
    */
  lemma {:induction false} NothingMarkedEarly(ends: Ends, events: seq<Event>)
    ensures AllJudged(ends, events)
  {
    if |events| > 0 {
      var front, e := events[..|events| - 1], events[|events| - 1];
      var n' := Run(ends, events);
      assert events == front + [e];
      NothingMarkedEarly(ends, front);
      hide Run, Judged;
      forall id | id in Q.ReadSent(n'.disk.sent) ensures Judged(ends, events, id) {
        MarkedWereJudged(ends, front, e, id);
      }
      forall k, id | 0 <= k < |n'.responses| && id in n'.responses[k] ensures Judged(ends, events, id) {
        AnsweredWereJudged(ends, front, e, k, id);
      }
    }
  }

  lemma {:induction false} NewResponses(ends: Ends, n: Net, e: Event)
    ensures var n' := Step(ends, n, e);
            && |n.responses| <= |n'.responses| <= |n.responses| + 1
            && forall k :: 0 <= k < |n.responses| ==> n'.responses[k] == n.responses[k]
  {}

  lemma {:induction false} AnswerIsJudged(ends: Ends, front: seq<Event>, e: Event, id: Id)
    requires var n, n' := Run(ends, front), Step(ends, Run(ends, front), e);
             |n'.responses| > |n.responses| && id in n'.responses[|n.responses|]
    ensures Judged(ends, front + [e], id)
  {
    var n := Run(ends, front);
    var batch := n.requests[e.request];
    assert (front + [e])[..|front|] == front;
    AnswersNameTheBatch(ends, n.world, batch, id);
    BatchIsRecorded(ends.cfg, n.world, ends.publisher, batch);
    hide IngestMany, Done, Seen;
    SeenNow(ends, front + [e], id);
  }

  /* ---------- sending again ---------- */

  /** Clearing out old records is the one event that forgets a verdict. */
  predicate Forgets(e: Machine.Event) { e.Ad? && e.ad.DoVacuum? }

  lemma {:induction false} SeenPersists(cfg: Config, w: World, e: Machine.Event, publisher: Id)
    requires !Forgets(e)
    ensures forall id :: Seen(w.impressions, publisher, id) ==> Seen(Machine.Step(cfg, w, e).impressions, publisher, id)
  {
    hide AdStep, PayStep, MarketStep, Seen;
    if e.Ad? {
      SeenPersistsAd(cfg, w, e.ad, publisher);
    }
  }

  lemma {:induction false} SeenPersistsAd(cfg: Config, w: World, e: AdEvent, publisher: Id)
    requires !e.DoVacuum?
    ensures forall id :: Seen(w.impressions, publisher, id) ==> Seen(AdStep(cfg, w, e).impressions, publisher, id)
  {
    hide Serve, Ingest, Verify, Seen;
    match e {
      case DoIngest(p, ev, crash) =>
        var accepted, k := IngestCases(cfg, w, p, ev, crash);
        GrownIsSeen(w.impressions, AdStep(cfg, w, e).impressions, publisher);
      case DoVerify(k, o, crash) =>
        var posted, decided := VerifyCases(cfg, w, k, o, crash);
        GrownIsSeen(w.impressions, AdStep(cfg, w, e).impressions, publisher);
      case _ =>
    }
  }

  lemma {:induction false} AllSeenAfter(cfg: Config, w: World, events: seq<Machine.Event>, publisher: Id, batch: seq<Report>)
    requires AllSeen(w, publisher, batch) && forall i :: 0 <= i < |events| ==> !Forgets(events[i])
    ensures AllSeen(Machine.Run(cfg, w, events), publisher, batch)
  {
    if |events| > 0 {
      AllSeenAfter(cfg, w, events[..|events| - 1], publisher, batch);
      SeenPersists(cfg, Machine.Run(cfg, w, events[..|events| - 1]), events[|events| - 1], publisher);
      hide Seen, Machine.Step;
    }
  }

  lemma {:induction false} SeenIsDuplicate(cfg: Config, w: World, publisher: Id, batch: seq<Report>)
    requires AllSeen(w, publisher, batch)
    ensures IngestMany(cfg, w, publisher, batch) == w
    ensures AcceptedIn(cfg, w, publisher, batch) == [] && RejectedIn(cfg, w, publisher, batch) == []
    ensures DuplicatesIn(cfg, w, publisher, batch) == seq(|batch|, i requires 0 <= i < |batch| => batch[i].id)
  {
    if |batch| > 0 {
      var front, last := batch[..|batch| - 1], batch[|batch| - 1];
      SeenIsDuplicate(cfg, w, publisher, front);
      assert IngestOne(cfg, w.deliveries, w.impressions, w.now, publisher, last).verdict == Duplicate;
    }
  }

  /**
    A batch sent again yields duplicates only and changes nothing, however much else happened at the
    server since it was first taken in, restarts included, as long as its records are kept.
    */
  lemma {:induction false} ResendingYieldsDuplicates(cfg: Config, w: World, publisher: Id, batch: seq<Report>, since: seq<Machine.Event>)
    requires forall i :: 0 <= i < |since| ==> !Forgets(since[i])
    ensures var later := Machine.Run(cfg, IngestMany(cfg, w, publisher, batch), since);
            && IngestMany(cfg, later, publisher, batch) == later
            && AcceptedIn(cfg, later, publisher, batch) == [] && RejectedIn(cfg, later, publisher, batch) == []
            && DuplicatesIn(cfg, later, publisher, batch) == seq(|batch|, i requires 0 <= i < |batch| => batch[i].id)
  {
    BatchIsRecorded(cfg, w, publisher, batch);
    AllSeenAfter(cfg, IngestMany(cfg, w, publisher, batch), since, publisher, batch);
    hide IngestMany, Machine.Run, Seen;
    SeenIsDuplicate(cfg, Machine.Run(cfg, IngestMany(cfg, w, publisher, batch), since), publisher, batch);
  }

  /** Every event of a batch is in its answer, so a batch that was answered is never sent again. */
  lemma {:induction false} EveryEventIsAnswered(ends: Ends, w: World, batch: seq<Report>, i: nat)
    requires i < |batch|
    ensures batch[i].id in Done(ends, w, batch)
  {
    var front, last := batch[..|batch| - 1], batch[|batch| - 1];
    var before := RejectedIn(ends.cfg, w, ends.publisher, front);
    var rejected := RejectedIn(ends.cfg, w, ends.publisher, batch);
    assert |before| <= |rejected| && forall k :: 0 <= k < |before| ==> rejected[k] == before[k];
    assert forall id :: id in IdsOf(before) ==> id in IdsOf(rejected) by {
      forall id | id in IdsOf(before) ensures id in IdsOf(rejected) {
        var k :| 0 <= k < |before| && IdsOf(before)[k] == id;
        assert IdsOf(rejected)[k] == id;
      }
    }
    if i < |front| {
      EveryEventIsAnswered(ends, w, front, i);
    } else if VerdictOn(ends.cfg, IngestMany(ends.cfg, w, ends.publisher, front), ends.publisher, last).Refused? {
      assert IdsOf(rejected)[|before|] == last.id;
    }
  }

  /** The record's own identifier is what travels. */
  ghost predicate OwnIds(ends: Ends) { forall r :: ends.wire(r).id == r.id }

  lemma {:induction false} FlushSends(ends: Ends, n: Net)
    requires |Q.Pending(n.disk)| > 0
    ensures var batch := FirstOf(Q.Pending(n.disk), 500); Step(ends, n, Flush) == n.(requests := n.requests + [Wired(ends, batch)])
  {
    hide Q.Pending;
  }

  lemma {:induction false} MarkedIsGone(d: Q.Disk, ids: seq<Id>, max: nat, r: Q.Record)
    requires !d.sent.loose && r.id in ids
    ensures r !in Q.Pending(Q.Do(d, Q.Mark(ids), max))
  {
    Q.MarksReadBack(d.sent, ids, 0, Q.Nothing);
    Q.PendingIsUnsent(d, Q.AppendSent(d.sent, ids));
    hide Q.Pending, Q.AppendSent, Q.ReadSent;
  }

  /** What an answer lists is no longer pending once it is marked. */
  lemma {:induction false} AnswerIsMarked(ends: Ends, n: Net, k: nat, r: Q.Record)
    requires k < |n.responses| && !n.disk.sent.loose && r.id in n.responses[k]
    ensures r !in Q.Pending(Step(ends, n, Answered(k)).disk)
  {
    hide Q.Pending, Q.Do, Machine.Step, IngestMany, Ingest, Reboot, Done;
    MarkedIsGone(n.disk, n.responses[k], ends.maxEntries, r);
  }

  /**
    When nothing is lost, one exchange delivers: the oldest pending records, up to five hundred, are judged by the
    server and no longer pending.
    */
  lemma {:induction false} ExchangeDelivers(ends: Ends, n: Net, i: nat)
    requires OwnIds(ends) && !n.disk.sent.loose && i < |Q.Pending(n.disk)| && i < 500
    ensures var r := Q.Pending(n.disk)[i];
            var arrived := Step(ends, Step(ends, n, Flush), Arrives(|n.requests|));
            && Seen(arrived.world.impressions, ends.publisher, r.id)
            && r !in Q.Pending(Step(ends, arrived, Answered(|n.responses|)).disk)
  {
    var pending := Q.Pending(n.disk);
    var batch := FirstOf(pending, 500);
    var sent := Wired(ends, batch);
    var r := pending[i];
    assert batch[i] == r && sent[i].id == r.id;
    FlushSends(ends, n);
    var n1 := Step(ends, n, Flush);
    var n2 := Step(ends, n1, Arrives(|n.requests|));
    BatchIsRecorded(ends.cfg, n.world, ends.publisher, sent);
    EveryEventIsAnswered(ends, n.world, sent, i);
    assert n2.world == IngestMany(ends.cfg, n.world, ends.publisher, sent) && n2.responses == n.responses + [Done(ends, n.world, sent)];
    AnswerIsMarked(ends, n2, |n.responses|, r);
    hide Q.Pending, Done, IngestMany, Seen;
  }

  /* ---------- the client's side as the program has it ---------- */

  class Sync {
    const queue: Q.ImpressionQueue

    constructor (queue: Q.ImpressionQueue)
      ensures this.queue == queue
    {
      this.queue := queue;
    }

    /** `#flush`: no answer, or one that cannot be read, leaves the queue as it is. */
    method FlushOnce(ends: Ends, answer: seq<Report> -> Option<seq<Id>>, fault: Option<(nat, Q.Cut)>) returns (sent: seq<Report>)
      modifies queue
      ensures sent == Wired(ends, FirstOf(old(Q.Pending(queue.disk)), 500))
      ensures queue.disk == if |sent| == 0 || answer(sent).None? then old(queue.disk)
                            else Q.Do(old(queue.disk), Marking(answer(sent).value, fault), queue.maxEntries)
    {
      var pending := queue.Waiting();
      var batch := if |pending| > BATCH then pending[..BATCH] else pending;
      sent := Wired(ends, batch);
      hide Q.Pending, Q.Do, Marking;
      if |batch| == 0 {
        return;
      }
      var done := answer(sent);
      if done.Some? {
        Mark(done.value, fault);
      }
    }

    method Mark(ids: seq<Id>, fault: Option<(nat, Q.Cut)>)
      modifies queue`disk
      ensures queue.disk == Q.Do(old(queue.disk), Marking(ids, fault), queue.maxEntries)
    {
      if |ids| > 0 {
        queue.MarkSent(ids, fault);
      }
    }
  }

  /** What reaches the disk of a mark: all of it, or what a fault let through. */
  function Marking(ids: seq<Id>, fault: Option<(nat, Q.Cut)>): Q.Op
  {
    if fault.None? then Q.Mark(ids) else Q.TornMark(ids, fault.value.0, fault.value.1)
  }
}
