/**
  The queue in front of the hot wallet (packages/server/src/payouts/withdraw.ts:85-93 `createSerial`): each
  job is hung on the promise that was the tail when it was submitted, and becomes the tail itself.
  */
module Serial {
  import opened Common

  datatype Progress = Waiting | Running | Settled(ok: bool)

  datatype Job = Job(after: Option<nat>, progress: Progress)

  datatype Chain = Chain(jobs: seq<Job>, tail: Option<nat>)

  datatype Event = Submit | Start(i: nat) | Settle(i: nat, ok: bool)

  /** The promise a job hangs on has settled, either way. */
  predicate Released(jobs: seq<Job>, i: nat)
    requires i < |jobs|
  {
    jobs[i].after.None? || (jobs[i].after.value < |jobs| && jobs[jobs[i].after.value].progress.Settled?)
  }

  function Step(c: Chain, e: Event): Chain
  {
    match e
    case Submit => Chain(c.jobs + [Job(c.tail, Waiting)], Some(|c.jobs|))
    case Start(i) =>
      if i < |c.jobs| && c.jobs[i].progress.Waiting? && Released(c.jobs, i)
      then c.(jobs := c.jobs[i := c.jobs[i].(progress := Running)]) else c
    case Settle(i, ok) =>
      if i < |c.jobs| && c.jobs[i].progress.Running?
      then c.(jobs := c.jobs[i := c.jobs[i].(progress := Settled(ok))]) else c
  }

  function Run(events: seq<Event>): Chain
  {
    if |events| == 0 then Chain([], None) else Step(Run(events[..|events| - 1]), events[|events| - 1])
  }

  /** The promises form one chain, and only a job whose predecessors all settled has left its place. */
  ghost predicate InTurn(c: Chain)
  {
    && c.tail == (if |c.jobs| == 0 then None else Some(|c.jobs| - 1))
    && (forall i :: 0 <= i < |c.jobs| ==> c.jobs[i].after == if i == 0 then None else Some(i - 1))
    && (forall i, k :: 0 <= i < k < |c.jobs| && !c.jobs[k].progress.Waiting? ==> c.jobs[i].progress.Settled?)
  }

  lemma {:induction false} StaysInTurn(c: Chain, e: Event)
    requires InTurn(c)
    ensures InTurn(Step(c, e))
  {
    var c' := Step(c, e);
    forall i, k | 0 <= i < k < |c'.jobs| && !c'.jobs[k].progress.Waiting? ensures c'.jobs[i].progress.Settled? {
      if k < |c.jobs| && c.jobs[k].progress.Waiting? {
        assert c.jobs[k - 1].progress.Settled?;
        assert i < k - 1 ==> c.jobs[i].progress.Settled?;
      } else {
        assert c.jobs[i].progress.Settled?;
      }
    }
  }

  /** It waits, and everything submitted before it has settled, well or badly. */
  ghost predicate MayStart(c: Chain, i: int)
  {
    0 <= i < |c.jobs| && c.jobs[i].progress.Waiting? && forall k :: 0 <= k < i ==> c.jobs[k].progress.Settled?
  }

  lemma {:induction false} TurnsMean(c: Chain)
    requires InTurn(c)
    ensures forall i, k :: 0 <= i < k < |c.jobs| ==> !(c.jobs[i].progress.Running? && c.jobs[k].progress.Running?)
    ensures forall i :: 0 <= i < |c.jobs| ==> (MayStart(c, i) <==> Step(c, Start(i)) != c)
  {
    forall i | 0 <= i < |c.jobs| ensures MayStart(c, i) <==> Step(c, Start(i)) != c {
      assert c.jobs[i].after == if i == 0 then None else Some(i - 1);
      assert i > 0 && c.jobs[i - 1].progress.Settled? ==> forall k :: 0 <= k < i - 1 ==> c.jobs[k].progress.Settled?;
      assert c.jobs[i].progress.Waiting? && Released(c.jobs, i) ==> Step(c, Start(i)).jobs[i].progress.Running?;
    }
  }

  /**
    At most one job runs, jobs run in the order they were submitted, and a job that failed does not stop
    the queue: a job may start exactly when it waits and all submitted before it have settled.
    */
  lemma {:induction false} OneAtATime(events: seq<Event>)
    ensures var c := Run(events);
            && (forall i, k :: 0 <= i < k < |c.jobs| && !c.jobs[k].progress.Waiting? ==> c.jobs[i].progress.Settled?)
            && (forall i, k :: 0 <= i < k < |c.jobs| ==> !(c.jobs[i].progress.Running? && c.jobs[k].progress.Running?))
            && (forall i :: 0 <= i < |c.jobs| ==> (MayStart(c, i) <==> Step(c, Start(i)) != c))
  {
    AlwaysInTurn(events);
    hide Run;
    TurnsMean(Run(events));
  }

  lemma {:induction false} AlwaysInTurn(events: seq<Event>)
    ensures InTurn(Run(events))
  {
    if |events| > 0 {
      AlwaysInTurn(events[..|events| - 1]);
      StaysInTurn(Run(events[..|events| - 1]), events[|events| - 1]);
    }
  }
}
