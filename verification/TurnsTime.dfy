/**
  The time a turn machine counts: shown intervals never overlap, so they cannot add up to more than the
  clock; and a session that stays quiet is shown nothing, and counted nothing, past its deadline.
  */
module TurnsTime {
  import opened Common
  import opened Sums
  import opened Turns
  import opened TurnsMutex

  /* ---------- shown intervals ---------- */

  /** Every interval a show was seen, the open one last. */
  function AllSpans(m: Turns): seq<Span>
  {
    if m.show.None? then m.spans
    else m.spans + [Span(m.show.value.session, m.show.value.startedAt, m.show.value.lastSeenAt)]
  }

  ghost predicate Disjoint(ss: seq<Span>, since: int, now: int)
  {
    && (forall i :: 0 <= i < |ss| ==> since <= ss[i].start <= ss[i].end <= now)
    && (forall i, k :: 0 <= i < k < |ss| ==> ss[i].end <= ss[k].start)
  }

  /** What was emitted is as long as it was seen. */
  ghost predicate Measured(m: Turns)
  {
    && |m.emitted| == |m.spans|
    && forall i :: 0 <= i < |m.spans| ==>
         m.emitted[i].durationMs == m.spans[i].end - m.spans[i].start && m.emitted[i].session == m.spans[i].session
  }

  /**
    What happened to the intervals while one session was counting at ts: the last one, if it is the
    session's, may be seen longer, and others may begin.
    */
  ghost predicate Later(a: seq<Span>, b: seq<Span>, id: Id, ts: int)
  {
    && |a| <= |b|
    && (forall i :: 0 <= i < |a| ==> b[i] == a[i] || (i == |a| - 1 && a[i].session == id && b[i] == a[i].(end := ts)))
    && (forall i :: |a| <= i < |b| ==> b[i] == Span(id, ts, ts))
  }

  /** Closing a show moves its interval from the open end to the emitted ones. */
  lemma {:induction false} SpansClose(m: Turns, ts: int, env: Env)
    requires Measured(m) && (m.show.Some? ==> m.show.value.startedAt <= m.show.value.lastSeenAt)
    ensures Measured(CloseShow(m, ts, env)) && AllSpans(CloseShow(m, ts, env)) == AllSpans(m)
    ensures CloseShow(m, ts, env).show.None?
  {}

  lemma {:induction false} SpansOpen(setup: Setup, m: Turns, id: Id, ts: int)
    requires m.show.None? && m.active == Some(id) && Measured(m)
    ensures var m' := StartShow(setup, m, ts);
            && Later(AllSpans(m), AllSpans(m'), id, ts) && Measured(m')
            && m'.active == m.active && (m'.show.Some? ==> m'.show.value.session == id && m'.show.value.startedAt == ts)
  {}

  /** The open show, if any, was seen no earlier than it began, and not in the future. */
  predicate Forward(m: Turns, ts: int) { m.show.Some? ==> m.show.value.startedAt <= m.show.value.lastSeenAt <= ts }

  lemma {:induction false} SpansExpire(setup: Setup, m: Turns, n: nat, ts: int, env: Env)
    requires Measured(m) && Forward(m, ts) && n <= |m.sessions|
    ensures var m' := ExpireUpTo(setup, m, n, ts, env);
            Measured(m') && Forward(m', ts) && AllSpans(m') == AllSpans(m)
  {
    if n > 0 {
      SpansExpire(setup, m, n - 1, ts, env);
    }
  }

  /** Counting a tick: the open show is seen longer, closed when it has run its time, and the next begins. */
  lemma {:induction false} SpansCount(setup: Setup, m: Turns, phase: Phase, id: Id, ts: int, env: Env)
    requires Measured(m) && Forward(m, ts) && m.active == Some(id)
    requires m.show.Some? ==> m.show.value.session == id
    ensures var m' := Count(setup, m, phase, ts, env).0;
            Measured(m') && Later(AllSpans(m), AllSpans(m'), id, ts)
  {
    var m1 := if m.show.None? then StartShow(setup, m, ts) else m;
    if m.show.None? {
      SpansOpen(setup, m, id, ts);
    }
    if m1.show.Some? {
      var m2 := m1.(show := Some(m1.show.value.(lastSeenAt := ts)));
      SpansClose(m2, ts, env);
      SpansOpen(setup, CloseShow(m2, ts, env), id, ts);
      hide AllSpans, Measured, Later, StartShow;
    }
  }

  /* ---------- deadlines, told from the hooks alone ---------- */

  /** Until when the hooks of a session allow it to be shown anything. */
  datatype Deadline = Running(until: int) | Ending(until: int)

  /** A reference that listens to hooks only: a prompt or a tool call allows the quiet limit from now, a stop the grace period. */
  function Hooked(setup: Setup, ref: map<Id, Deadline>, e: Timed): map<Id, Deadline>
  {
    match e.event
    case TurnStart(id) => ref[id := Running(e.ts + setup.maxQuietMs)]
    case Activity(id) => if id in ref && ref[id].Running? then ref[id := Running(e.ts + setup.maxQuietMs)] else ref
    case TurnEnd(id) => if id in ref && ref[id].Running? then ref[id := Ending(e.ts + e.env.idleGraceMs)] else ref
    case SessionEnd(id) => ref - {id}
    case Tick(_) => ref
    case Drain => ref
  }

  function Deadlines(setup: Setup, events: seq<Timed>): map<Id, Deadline>
  {
    if |events| == 0 then map[] else Hooked(setup, Deadlines(setup, events[..|events| - 1]), events[|events| - 1])
  }

  /** The machine's sessions that are in a turn agree with the reference. */
  ghost predicate Obeys(setup: Setup, st: Session, ref: map<Id, Deadline>)
  {
    && (st.phase == Showing ==> st.id in ref && ref[st.id] == Running(st.activeAt + setup.maxQuietMs))
    && (st.phase == Cooldown ==> st.id in ref && ref[st.id] == Ending(st.cooldownUntil))
  }

  ghost predicate Quiet(setup: Setup, m: Turns, ref: map<Id, Deadline>)
  {
    forall i {:trigger m.sessions[i]} :: 0 <= i < |m.sessions| ==> Obeys(setup, m.sessions[i], ref)
  }

  /** A session that a tick leaves behind: the same, or idle, or with a newer tick time. */
  ghost predicate Subdued(st: Session, st': Session)
  {
    st'.id == st.id && (st'.phase == Idle || st' == st.(lastTickAt := st'.lastTickAt))
  }

  ghost predicate AllSubdued(ss: seq<Session>, ss': seq<Session>)
  {
    forall s' :: s' in ss' ==> exists s :: s in ss && Subdued(s, s')
  }

  lemma {:induction false} QuietSubdued(setup: Setup, m: Turns, m': Turns, ref: map<Id, Deadline>)
    requires Quiet(setup, m, ref) && AllSubdued(m.sessions, m'.sessions)
    ensures Quiet(setup, m', ref)
  {
    forall i | 0 <= i < |m'.sessions| ensures Obeys(setup, m'.sessions[i], ref) {
      assert m'.sessions[i] in m'.sessions;
      var s :| s in m.sessions && Subdued(s, m'.sessions[i]);
      var k :| 0 <= k < |m.sessions| && m.sessions[k] == s;
      assert Obeys(setup, m.sessions[k], ref);
    }
  }

  /** What the expiry loop does to the sessions, whoever holds the mutex. */
  lemma {:induction false} ExpiredSessions(setup: Setup, m: Turns, n: nat, ts: int, env: Env)
    requires n <= |m.sessions|
    ensures var ss := ExpireUpTo(setup, m, n, ts, env).sessions;
            && |ss| == |m.sessions|
            && (forall i :: 0 <= i < n ==> ss[i] == if Expires(setup, m.sessions[i], ts) then m.sessions[i].(phase := Idle) else m.sessions[i])
            && (forall i :: n <= i < |ss| ==> ss[i] == m.sessions[i])
  {
    if n > 0 {
      ExpiredSessions(setup, m, n - 1, ts, env);
    }
  }

  /** The session is in a turn and within its deadline. */
  ghost predicate Awake(setup: Setup, m: Turns, id: Id, ts: int)
  {
    exists k :: 0 <= k < |m.sessions| && m.sessions[k].id == id && m.sessions[k].phase != Idle && !Expires(setup, m.sessions[k], ts)
  }

  /* ---------- one tick ---------- */

  lemma {:induction false} SubduedTwice(a: seq<Session>, b: seq<Session>, c: seq<Session>)
    requires AllSubdued(a, b) && AllSubdued(b, c)
    ensures AllSubdued(a, c)
  {
    forall s' | s' in c ensures exists s :: s in a && Subdued(s, s') {
      var s1 :| s1 in b && Subdued(s1, s');
      var s :| s in a && Subdued(s, s1);
      assert Subdued(s, s');
    }
  }

  lemma {:induction false} SubduedExpire(setup: Setup, m: Turns, ts: int, env: Env)
    ensures AllSubdued(m.sessions, Expire(setup, m, ts, env).sessions)
  {
    ExpiredSessions(setup, m, |m.sessions|, ts, env);
    var ss := Expire(setup, m, ts, env).sessions;
    forall s' | s' in ss ensures exists s :: s in m.sessions && Subdued(s, s') {
      var i :| 0 <= i < |ss| && ss[i] == s';
      assert m.sessions[i] in m.sessions && Subdued(m.sessions[i], s');
    }
  }

  lemma {:induction false} SubduedTouch(ss: seq<Session>, k: nat, ts: int)
    requires k < |ss|
    ensures AllSubdued(ss, ss[k := ss[k].(lastTickAt := ts)])
  {
    var st := ss[k].(lastTickAt := ts);
    var touched := ss[k := st];
    forall s' | s' in touched ensures exists s :: s in ss && Subdued(s, s') {
      assert Subdued(if s' == st then ss[k] else s', s');
    }
  }

  lemma {:induction false} SpansJudge(setup: Setup, m: Turns, k: nat, ts: int, env: Env)
    requires Mutex(m) && Measured(m) && Forward(m, ts) && k < |m.sessions| && m.sessions[k].phase != Idle
    ensures var m' := Judge(setup, m, k, ts, env).0;
            && Measured(m') && Later(AllSpans(m), AllSpans(m'), m.sessions[k].id, ts)
            && AllSubdued(m.sessions, m'.sessions)
  {
    var st := m.sessions[k].(lastTickAt := ts);
    var ticked := m.(sessions := m.sessions[k := st]);
    MutexTouch(m, k, st);
    assert ticked.sessions[k] == st;
    MutexTakeOver(ticked, st.id, ts, env);
    SubduedTouch(m.sessions, k, ts);
    var m2 := TakeOver(ticked, st.id, ts, env);
    SubduedTwice(m.sessions, ticked.sessions, m2.sessions);
    assert AllSpans(ticked) == AllSpans(m);
    if m2.active == Some(st.id) {
      assert m2.show.Some? ==> m2.show.value.session == st.id;
      hide Mutex, TakeOver, AllSubdued;
      SpansCount(setup, m2, st.phase, st.id, ts, env);
      CountKeepsSessions(setup, m2, st.phase, ts, env);
    }
  }

  lemma {:induction false} CountKeepsSessions(setup: Setup, m: Turns, phase: Phase, ts: int, env: Env)
    ensures Count(setup, m, phase, ts, env).0.sessions == m.sessions
  {}

  /** What a tick does to the intervals: nothing, unless its session is in a turn and within its deadline. */
  lemma {:induction false} SpansTick(setup: Setup, m: Turns, id: Id, ts: int, env: Env)
    requires Mutex(m) && Measured(m) && Forward(m, ts)
    ensures var (m', d) := OnTick(setup, m, id, ts, env);
            && Measured(m') && AllSubdued(m.sessions, m'.sessions)
            && Later(AllSpans(m), AllSpans(m'), id, ts)
            && (d.Shown? || AllSpans(m') != AllSpans(m) ==> Awake(setup, m, id, ts))
  {
    var m1 := Expire(setup, m, ts, env);
    MutexExpire(setup, m, |m.sessions|, ts, env);
    SpansExpire(setup, m, |m.sessions|, ts, env);
    SubduedExpire(setup, m, ts, env);
    SpansClose(m1, ts, env);
    ExpiredSessions(setup, m, |m.sessions|, ts, env);
    hide ExpireUpTo, Judge, Mutex, Measured, CloseShow, AllSubdued;
    var k := IndexOf(m1.sessions, id);
    if k >= 0 && m1.sessions[k].phase != Idle {
      assert m.sessions[k] == m1.sessions[k] && !Expires(setup, m.sessions[k], ts);
      SpansJudge(setup, m1, k, ts, env);
      SubduedTwice(m.sessions, m1.sessions, Judge(setup, m1, k, ts, env).0.sessions);
    }
  }

  /* ---------- one event ---------- */

  /** Whose time an event may count: a prompt opens a show of its session, a tick counts for its session. */
  function Counter(e: Timed): Option<Id>
  {
    match e.event
    case TurnStart(id) => Some(id)
    case Tick(id) => Some(id)
    case _ => None
  }

  lemma {:induction false} SpansStep(setup: Setup, m: Turns, e: Timed)
    requires Mutex(m) && Measured(m) && Forward(m, e.ts)
    ensures var m' := Step(setup, m, e);
            && Measured(m')
            && (AllSpans(m') == AllSpans(m) || (Counter(e).Some? && Later(AllSpans(m), AllSpans(m'), Counter(e).value, e.ts)))
            && (e.event.Tick? && AllSpans(m') != AllSpans(m) ==> Awake(setup, m, e.event.id, e.ts))
  {
    hide OnTick, CloseShow, StartShow;
    match e.event {
      case TurnStart(id) =>
        var k := IndexOf(m.sessions, id);
        var st := Session(id, Showing, 0, e.ts, e.ts);
        var m2 := m.(sessions := if k < 0 then m.sessions + [st] else m.sessions[k := st], active := Some(id));
        if m2.show.None? {
          SpansOpen(setup, m2, id, e.ts);
        }
      case SessionEnd(id) => SpansClose(m.(sessions := Without(m.sessions, id)), e.ts, e.env);
      case Tick(id) => SpansTick(setup, m, id, e.ts, e.env);
      case _ =>
    }
  }

  lemma {:induction false} QuietChange(setup: Setup, m: Turns, ref: map<Id, Deadline>, e: Timed, id: Id)
    requires UniqueSessions(m.sessions) && Quiet(setup, m, ref)
    requires e.event == Activity(id) || e.event == TurnEnd(id)
    ensures Quiet(setup, Step(setup, m, e), Hooked(setup, ref, e))
  {
    var m' := Step(setup, m, e);
    var k := IndexOf(m.sessions, id);
    forall i | 0 <= i < |m'.sessions|
      ensures (m'.sessions[i].id != id && m'.sessions[i] in m.sessions) || Obeys(setup, m'.sessions[i], Hooked(setup, ref, e)) {
      assert Obeys(setup, m.sessions[i], ref);
    }
  }

  lemma {:induction false} StartedSessions(setup: Setup, m: Turns, id: Id, ts: int)
    ensures var k := IndexOf(m.sessions, id);
            OnTurnStart(setup, m, id, ts).sessions ==
            if k < 0 then m.sessions + [Session(id, Showing, 0, ts, ts)] else m.sessions[k := Session(id, Showing, 0, ts, ts)]
  {}

  lemma {:induction false} QuietStart(setup: Setup, m: Turns, ref: map<Id, Deadline>, e: Timed, id: Id)
    requires UniqueSessions(m.sessions) && Quiet(setup, m, ref) && e.event == TurnStart(id)
    ensures Quiet(setup, Step(setup, m, e), Hooked(setup, ref, e))
  {
    var m' := Step(setup, m, e);
    StartedSessions(setup, m, id, e.ts);
    hide OnTurnStart;
    forall i | 0 <= i < |m'.sessions|
      ensures (m'.sessions[i].id != id && m'.sessions[i] in m.sessions) || Obeys(setup, m'.sessions[i], Hooked(setup, ref, e)) {}
  }

  lemma {:induction false} QuietEnd(setup: Setup, m: Turns, ref: map<Id, Deadline>, e: Timed, id: Id)
    requires UniqueSessions(m.sessions) && Quiet(setup, m, ref) && e.event == SessionEnd(id)
    ensures Quiet(setup, Step(setup, m, e), Hooked(setup, ref, e))
  {
    var m' := Step(setup, m, e);
    WithoutOne(m.sessions, id);
    assert m'.sessions == Without(m.sessions, id);
    hide OnSessionEnd;
    forall i | 0 <= i < |m'.sessions| ensures m'.sessions[i].id != id && m'.sessions[i] in m.sessions {
      assert m'.sessions[i] in m'.sessions;
    }
  }

  lemma {:induction false} QuietStep(setup: Setup, m: Turns, ref: map<Id, Deadline>, e: Timed)
    requires Mutex(m) && Measured(m) && Forward(m, e.ts) && Quiet(setup, m, ref)
    ensures Quiet(setup, Step(setup, m, e), Hooked(setup, ref, e))
  {
    hide OnTick, OnTurnStart, OnSessionEnd, OnActivity, OnTurnEnd, Quiet, AllSubdued;
    match e.event {
      case TurnStart(id) => QuietStart(setup, m, ref, e, id);
      case Activity(id) => QuietChange(setup, m, ref, e, id);
      case TurnEnd(id) => QuietChange(setup, m, ref, e, id);
      case SessionEnd(id) => QuietEnd(setup, m, ref, e, id);
      case Tick(id) =>
        SpansTick(setup, m, id, e.ts, e.env);
        QuietSubdued(setup, m, Step(setup, m, e), ref);
      case Drain => QuietDrain(setup, m, ref);
    }
  }

  lemma {:induction false} QuietDrain(setup: Setup, m: Turns, ref: map<Id, Deadline>)
    requires Quiet(setup, m, ref)
    ensures Quiet(setup, m.(completed := []), ref)
  {}

  /* ---------- runs ---------- */

  function LastTime(events: seq<Timed>): int
    requires |events| > 0
  {
    events[|events| - 1].ts
  }

  /** The last moment the session gave any sign but ticks. */
  function LastHook(events: seq<Timed>, id: Id): Option<int>
  {
    if |events| == 0 then None
    else
      var e := events[|events| - 1];
      if e.event in {TurnStart(id), Activity(id), TurnEnd(id), SessionEnd(id)} then Some(e.ts)
      else LastHook(events[..|events| - 1], id)
  }

  /** An interval of a session ended by its last hook, or before its deadline. */
  ghost predicate Allowed(s: Span, hook: Option<int>, ref: map<Id, Deadline>)
  {
    hook.Some? && (s.end <= hook.value || (s.session in ref && s.end < ref[s.session].until))
  }

  ghost predicate AllAllowed(setup: Setup, ss: seq<Span>, events: seq<Timed>)
  {
    forall i {:trigger ss[i]} :: 0 <= i < |ss| ==> Allowed(ss[i], LastHook(events, ss[i].session), Deadlines(setup, events))
  }

  ghost predicate Healthy(setup: Setup, events: seq<Timed>)
  {
    var m := Run(setup, events);
    && Mutex(m) && Measured(m) && Quiet(setup, m, Deadlines(setup, events)) && AllAllowed(setup, AllSpans(m), events)
    && (|events| > 0 ==> Disjoint(AllSpans(m), events[0].ts, LastTime(events)))
    && (|events| == 0 ==> AllSpans(m) == [])
  }

  lemma {:induction false} HealthyForward(setup: Setup, events: seq<Timed>, ts: int)
    requires Healthy(setup, events) && (|events| > 0 ==> LastTime(events) <= ts)
    ensures Forward(Run(setup, events), ts)
  {
    var m := Run(setup, events);
    if m.show.Some? {
      assert AllSpans(m)[|m.spans|] == Span(m.show.value.session, m.show.value.startedAt, m.show.value.lastSeenAt);
    }
  }

  /** An interval after one more event is an old one, or one of the session that counts, ending now. */
  lemma {:induction false} SpanOrigin(setup: Setup, m: Turns, e: Timed, i: nat)
    requires Mutex(m) && Measured(m) && Forward(m, e.ts) && i < |AllSpans(Step(setup, m, e))|
    ensures var before, s := AllSpans(m), AllSpans(Step(setup, m, e))[i];
            || (i < |before| && s == before[i])
            || (Counter(e) == Some(s.session) && s.end == e.ts && (e.event.Tick? ==> Awake(setup, m, e.event.id, e.ts)))
  {
    SpansStep(setup, m, e);
    hide Step, Mutex, Measured, AllSpans, Awake;
  }

  lemma {:induction false} OldSpanAllowed(setup: Setup, events: seq<Timed>, e: Timed, s: Span)
    requires Allowed(s, LastHook(events, s.session), Deadlines(setup, events)) && s.end <= e.ts
    ensures Allowed(s, LastHook(events + [e], s.session), Deadlines(setup, events + [e]))
  {
    assert (events + [e])[..|events|] == events;
  }

  lemma {:induction false} NewSpanAllowed(setup: Setup, events: seq<Timed>, e: Timed, s: Span)
    requires Counter(e) == Some(s.session) && s.end == e.ts
    requires e.event.Tick? ==> LastHook(events, s.session).Some?
                               && s.session in Deadlines(setup, events) && e.ts < Deadlines(setup, events)[s.session].until
    ensures Allowed(s, LastHook(events + [e], s.session), Deadlines(setup, events + [e]))
  {
    assert (events + [e])[..|events|] == events;
  }

  /** One more event keeps every interval within what the hooks allow. */
  lemma {:induction false} AllowedStep(setup: Setup, events: seq<Timed>, e: Timed, i: nat)
    requires Healthy(setup, events) && (|events| > 0 ==> LastTime(events) <= e.ts)
    requires i < |AllSpans(Step(setup, Run(setup, events), e))|
    ensures var s := AllSpans(Step(setup, Run(setup, events), e))[i];
            Allowed(s, LastHook(events + [e], s.session), Deadlines(setup, events + [e]))
  {
    var m := Run(setup, events);
    var before, s := AllSpans(m), AllSpans(Step(setup, m, e))[i];
    HealthyForward(setup, events, e.ts);
    SpanOrigin(setup, m, e, i);
    if i < |before| && s == before[i] {
      assert Allowed(before[i], LastHook(events, s.session), Deadlines(setup, events)) && before[i].end <= e.ts;
      OldSpanAllowed(setup, events, e, s);
    } else {
      if e.event.Tick? {
        TickAllowed(setup, events, e, i);
      }
      NewSpanAllowed(setup, events, e, s);
    }
    hide Step, Run, Mutex, Measured, Quiet, LastHook, Deadlines, AllSpans, Awake, Allowed;
  }

  lemma {:induction false} TickAllowed(setup: Setup, events: seq<Timed>, e: Timed, i: nat)
    requires Healthy(setup, events) && e.event.Tick? && Awake(setup, Run(setup, events), e.event.id, e.ts)
    ensures LastHook(events, e.event.id).Some?
    ensures e.event.id in Deadlines(setup, events) && e.ts < Deadlines(setup, events)[e.event.id].until
  {
    DeadlineHasHook(setup, events, e.event.id);
  }

  lemma {:induction false} DeadlineHasHook(setup: Setup, events: seq<Timed>, id: Id)
    requires id in Deadlines(setup, events)
    ensures LastHook(events, id).Some?
  {
    var before, e := events[..|events| - 1], events[|events| - 1];
    if e.event !in {TurnStart(id), Activity(id), TurnEnd(id), SessionEnd(id)} {
      DeadlineHasHook(setup, before, id);
    }
  }

  lemma {:induction false} AlwaysHealthy(setup: Setup, events: seq<Timed>)
    requires InOrder(events)
    ensures Healthy(setup, events)
  {
    if |events| > 0 {
      var before, e := events[..|events| - 1], events[|events| - 1];
      var m := Run(setup, before);
      assert events == before + [e];
      AlwaysHealthy(setup, before);
      HealthyForward(setup, before, e.ts);
      hide Step, Mutex, Measured, Quiet, Disjoint, AllSpans;
      MutexStep(setup, m, e);
      SpansStep(setup, m, e);
      QuietStep(setup, m, Deadlines(setup, before), e);
      AllAllowedStep(setup, before, e);
      DisjointStep(setup, before, e);
      hide AllAllowed;
    }
  }

  lemma {:induction false} AllAllowedStep(setup: Setup, events: seq<Timed>, e: Timed)
    requires Healthy(setup, events) && (|events| > 0 ==> LastTime(events) <= e.ts)
    ensures AllAllowed(setup, AllSpans(Step(setup, Run(setup, events), e)), events + [e])
  {
    var after := AllSpans(Step(setup, Run(setup, events), e));
    hide Healthy, Step, Run, AllSpans, Allowed;
    forall i | 0 <= i < |after| ensures Allowed(after[i], LastHook(events + [e], after[i].session), Deadlines(setup, events + [e])) {
      AllowedStep(setup, events, e, i);
    }
  }

  lemma {:induction false} DisjointStep(setup: Setup, before: seq<Timed>, e: Timed)
    requires InOrder(before + [e]) && Healthy(setup, before)
    ensures Disjoint(AllSpans(Step(setup, Run(setup, before), e)), (before + [e])[0].ts, e.ts)
  {
    var m, all := Run(setup, before), before + [e];
    var after := AllSpans(Step(setup, m, e));
    assert |before| > 0 ==> all[|before| - 1] == before[|before| - 1] && all[|before|] == e && all[0] == before[0];
    HealthyForward(setup, before, e.ts);
    SpansStep(setup, m, e);
    hide Step, Run, Mutex, Measured, Quiet, AllSpans, AllAllowed;
  }

  /* ---------- main results ---------- */

  function Length(): Span -> int { (s: Span) => s.end - s.start }
  function Duration(): Completed -> int { (c: Completed) => c.durationMs }

  /** Disjoint intervals fit in the time they lie in. */
  lemma {:induction false} DisjointFit(ss: seq<Span>, since: int, now: int)
    requires Disjoint(ss, since, now) && since <= now
    ensures 0 <= Sum(ss, Length()) <= now - since
  {
    if |ss| > 0 {
      var front, last := ss[..|ss| - 1], ss[|ss| - 1];
      DisjointFit(front, since, last.start);
    }
  }

  lemma {:induction false} SameDurations(emitted: seq<Completed>, spans: seq<Span>)
    requires |emitted| == |spans| && forall i :: 0 <= i < |spans| ==> emitted[i].durationMs == spans[i].end - spans[i].start
    ensures Sum(emitted, Duration()) == Sum(spans, Length())
  {
    if |spans| > 0 {
      SameDurations(emitted[..|spans| - 1], spans[..|spans| - 1]);
    }
  }

  /**
    However many sessions, whatever hooks and ticks arrive in order of time: the intervals shown never
    overlap, each emitted duration is the length of its interval, and all of them together, with the
    show still open, are no longer than the time that passed.
    */
  lemma {:induction false} ShownTimeFitsTheClock(setup: Setup, events: seq<Timed>)
    requires InOrder(events) && |events| > 0
    ensures var m := Run(setup, events);
            && Disjoint(AllSpans(m), events[0].ts, LastTime(events)) && Measured(m)
            && Sum(m.emitted, Duration()) + (if m.show.Some? then m.show.value.lastSeenAt - m.show.value.startedAt else 0)
                 <= LastTime(events) - events[0].ts
  {
    AlwaysHealthy(setup, events);
    var m := Run(setup, events);
    DisjointFit(AllSpans(m), events[0].ts, LastTime(events));
    SameDurations(m.emitted, m.spans);
    if m.show.Some? {
      SumAppend(m.spans, Span(m.show.value.session, m.show.value.startedAt, m.show.value.lastSeenAt), Length());
    }
  }

  /** The part of a session's intervals that lies after a moment. */
  function AfterValue(s: Span, id: Id, h: int): int { if s.session == id then Max0(s.end - Max(s.start, h)) else 0 }
  function After(id: Id, h: int): Span -> int { (s: Span) => AfterValue(s, id, h) }

  lemma {:induction false} AfterFits(ss: seq<Span>, id: Id, h: int, until: int, since: int, now: int)
    requires Disjoint(ss, since, now) && h <= until
    requires forall i :: 0 <= i < |ss| && ss[i].session == id ==> ss[i].end <= until
    ensures 0 <= Sum(ss, After(id, h)) <= until - h
  {
    if |ss| > 0 {
      var front, last := ss[..|ss| - 1], ss[|ss| - 1];
      if last.session == id && last.end > h {
        AfterFits(front, id, h, Max(h, last.start), since, now);
      } else {
        AfterFits(front, id, h, until, since, now);
      }
    }
  }

  /**
    Quiet turns: what is counted for a session after its last hook, over any number of ticks from any
    sessions, is less than what its deadline leaves from that hook on, and nothing once the session ended.
    */
  lemma {:induction false} QuietTurnsAreBounded(setup: Setup, events: seq<Timed>, id: Id)
    requires InOrder(events) && LastHook(events, id).Some?
    ensures var h := LastHook(events, id).value;
            var ref := Deadlines(setup, events);
            var counted := Sum(AllSpans(Run(setup, events)), After(id, h));
            && (id !in ref ==> counted == 0)
            && (id in ref ==> counted <= Max0(ref[id].until - 1 - h))
  {
    AlwaysHealthy(setup, events);
    var h := LastHook(events, id).value;
    var ref := Deadlines(setup, events);
    var ss := AllSpans(Run(setup, events));
    hide Run, Mutex, Measured, Quiet, AllSpans;
    var until := if id in ref then Max(h, ref[id].until - 1) else h;
    forall i | 0 <= i < |ss| && ss[i].session == id ensures ss[i].end <= until {
      assert Allowed(ss[i], LastHook(events, ss[i].session), ref);
    }
    AfterFits(ss, id, h, until, if |events| > 0 then events[0].ts else 0, if |events| > 0 then LastTime(events) else 0);
  }

  /** The deadline is the quiet limit after some hook of the session; a stop replaces it by the grace period. */
  lemma {:induction false} DeadlineFollowsHooks(setup: Setup, events: seq<Timed>, id: Id)
    requires InOrder(events) && id in Deadlines(setup, events) && Deadlines(setup, events)[id].Running?
    ensures LastHook(events, id).Some? && Deadlines(setup, events)[id].until == LastHook(events, id).value + setup.maxQuietMs
  {
    var before, e := events[..|events| - 1], events[|events| - 1];
    if e.event !in {TurnStart(id), Activity(id), TurnEnd(id), SessionEnd(id)} {
      DeadlineFollowsHooks(setup, before, id);
    }
  }

  /** A stop that ends a running turn leaves the grace period from that stop, whatever other sessions do later. */
  lemma {:induction false} StopLeavesGrace(setup: Setup, events: seq<Timed>, later: seq<Timed>, id: Id)
    requires |events| > 0 && events[|events| - 1].event == TurnEnd(id)
    requires id in Deadlines(setup, events[..|events| - 1]) && Deadlines(setup, events[..|events| - 1])[id].Running?
    requires forall i :: 0 <= i < |later| ==> later[i].event !in {TurnStart(id), SessionEnd(id)}
    ensures var e, ref := events[|events| - 1], Deadlines(setup, events + later);
            id in ref && ref[id] == Ending(e.ts + e.env.idleGraceMs)
  {
    if |later| == 0 {
      assert events + later == events;
    } else {
      var front := later[..|later| - 1];
      assert (events + later)[..|events + later| - 1] == events + front;
      StopLeavesGrace(setup, events, front, id);
    }
  }

  /** A tick shows a session something only before that session's deadline. */
  lemma {:induction false} NothingShownPastDeadline(setup: Setup, events: seq<Timed>, e: Timed)
    requires InOrder(events + [e]) && e.event.Tick?
    requires OnTick(setup, Run(setup, events), e.event.id, e.ts, e.env).1.Shown?
    ensures var ref := Deadlines(setup, events);
            e.event.id in ref && e.ts < ref[e.event.id].until
  {
    var all := events + [e];
    assert forall i :: 0 <= i < |events| ==> all[i] == events[i];
    AlwaysHealthy(setup, events);
    assert |events| > 0 ==> all[|events| - 1].ts <= all[|events|].ts;
    HealthyForward(setup, events, e.ts);
    SpansTick(setup, Run(setup, events), e.event.id, e.ts, e.env);
    hide Run, OnTick;
  }
}
