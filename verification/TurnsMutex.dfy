/** The mutex: who may count, at every moment. */
module TurnsMutex {
  import opened Common
  import opened Turns

  ghost predicate UniqueSessions(ss: seq<Session>) { forall i, k :: 0 <= i < k < |ss| ==> ss[i].id != ss[k].id }

  ghost predicate InTurn(ss: seq<Session>, id: Id)
  {
    exists i :: 0 <= i < |ss| && ss[i].id == id && ss[i].phase != Idle
  }

  ghost predicate Mutex(m: Turns)
  {
    && UniqueSessions(m.sessions)
    && (m.active.Some? ==> InTurn(m.sessions, m.active.value))
    && (m.active.None? ==> forall i :: 0 <= i < |m.sessions| ==> m.sessions[i].phase == Idle)
    && (m.show.Some? ==> m.active == Some(m.show.value.session))
    && m.shows == |m.emitted| + (if m.show.Some? then 1 else 0)
    && |m.spans| == |m.emitted|
  }

  lemma {:induction false} MutexClose(m: Turns, ts: int, env: Env)
    requires Mutex(m)
    ensures Mutex(CloseShow(m, ts, env)) && CloseShow(m, ts, env).show.None?
  {}

  /** Handing the mutex to the next session in a turn. */
  lemma {:induction false} MutexHandOver(m: Turns)
    requires UniqueSessions(m.sessions) && m.show.None? && m.shows == |m.emitted| == |m.spans|
    ensures Mutex(m.(active := NextHolder(m.sessions)))
  {}

  lemma {:induction false} MutexExpireOne(setup: Setup, m: Turns, k: nat, ts: int, env: Env)
    requires Mutex(m) && k < |m.sessions|
    ensures Mutex(ExpireOne(setup, m, k, ts, env))
  {
    if Expires(setup, m.sessions[k], ts) {
      var idle := WithPhase(m, k, Idle);
      if m.active == Some(m.sessions[k].id) {
        MutexHandOver(CloseShow(idle, ts, env));
      } else if m.active.Some? {
        var i :| 0 <= i < |m.sessions| && m.sessions[i].id == m.active.value && m.sessions[i].phase != Idle;
        assert idle.sessions[i] == m.sessions[i];
      }
    }
  }

  lemma {:induction false} MutexExpire(setup: Setup, m: Turns, n: nat, ts: int, env: Env)
    requires Mutex(m) && n <= |m.sessions|
    ensures Mutex(ExpireUpTo(setup, m, n, ts, env))
  {
    if n > 0 {
      MutexExpire(setup, m, n - 1, ts, env);
      MutexExpireOne(setup, ExpireUpTo(setup, m, n - 1, ts, env), n - 1, ts, env);
    }
  }

  lemma {:induction false} WithoutOne(ss: seq<Session>, id: Id)
    requires UniqueSessions(ss)
    ensures UniqueSessions(Without(ss, id))
    ensures forall s :: s in Without(ss, id) <==> s in ss && s.id != id
  {
    if |ss| > 0 {
      var front, last := ss[..|ss| - 1], ss[|ss| - 1];
      WithoutOne(front, id);
      var kept := Without(front, id);
      forall i | 0 <= i < |kept| ensures kept[i].id != last.id {
        assert kept[i] in kept && kept[i] in front;
      }
    }
  }

  lemma {:induction false} InTurnWithout(ss: seq<Session>, id: Id, other: Id)
    requires UniqueSessions(ss) && InTurn(ss, other) && other != id
    ensures InTurn(Without(ss, id), other)
  {
    WithoutOne(ss, id);
    var i :| 0 <= i < |ss| && ss[i].id == other && ss[i].phase != Idle;
    assert ss[i] in Without(ss, id);
  }

  lemma {:induction false} MutexTurnStart(setup: Setup, m: Turns, id: Id, ts: int)
    requires Mutex(m)
    ensures Mutex(OnTurnStart(setup, m, id, ts))
  {
    var st := Session(id, Showing, 0, ts, ts);
    var k := IndexOf(m.sessions, id);
    var ss := if k < 0 then m.sessions + [st] else m.sessions[k := st];
    assert InTurn(ss, id) by {
      assert ss[if k < 0 then |m.sessions| else k] == st;
    }
    if m.active.Some? && m.active != Some(id) {
      var i :| 0 <= i < |m.sessions| && m.sessions[i].id == m.active.value && m.sessions[i].phase != Idle;
      assert ss[i] == m.sessions[i];
    }
  }

  /** Touching one session's times keeps everyone in or out of a turn. */
  lemma {:induction false} MutexTouch(m: Turns, k: nat, st: Session)
    requires Mutex(m) && k < |m.sessions| && st.id == m.sessions[k].id
    requires st.phase == Idle <==> m.sessions[k].phase == Idle
    ensures Mutex(m.(sessions := m.sessions[k := st]))
  {
    var ss := m.sessions[k := st];
    if m.active.Some? {
      var i :| 0 <= i < |m.sessions| && m.sessions[i].id == m.active.value && m.sessions[i].phase != Idle;
      assert ss[i].id == m.active.value && ss[i].phase != Idle;
    }
  }

  lemma {:induction false} MutexSessionEnd(m: Turns, id: Id, ts: int, env: Env)
    requires Mutex(m)
    ensures Mutex(OnSessionEnd(m, id, ts, env))
  {
    WithoutOne(m.sessions, id);
    if m.active == Some(id) {
      MutexHandOver(CloseShow(m.(sessions := Without(m.sessions, id)), ts, env));
    } else if m.active.Some? {
      InTurnWithout(m.sessions, id, m.active.value);
    } else {
      var kept := Without(m.sessions, id);
      forall i | 0 <= i < |kept| ensures kept[i].phase == Idle {
        assert kept[i] in kept && kept[i] in m.sessions;
      }
    }
  }

  lemma {:induction false} MutexTakeOver(m: Turns, id: Id, ts: int, env: Env)
    requires Mutex(m) && InTurn(m.sessions, id)
    ensures Mutex(TakeOver(m, id, ts, env))
    ensures InTurn(TakeOver(m, id, ts, env).sessions, id)
  {
    if TakeOver(m, id, ts, env) != m {
      WithoutOne(m.sessions, m.active.value);
      InTurnWithout(m.sessions, m.active.value, id);
    }
  }

  lemma {:induction false} MutexCount(setup: Setup, m: Turns, phase: Phase, ts: int, env: Env)
    requires Mutex(m)
    ensures Mutex(Count(setup, m, phase, ts, env).0)
  {}

  lemma {:induction false} MutexJudge(setup: Setup, m: Turns, k: nat, ts: int, env: Env)
    requires Mutex(m) && k < |m.sessions| && m.sessions[k].phase != Idle
    ensures Mutex(Judge(setup, m, k, ts, env).0)
  {
    var st := m.sessions[k].(lastTickAt := ts);
    MutexTouch(m, k, st);
    var ticked := m.(sessions := m.sessions[k := st]);
    assert ticked.sessions[k] == st;
    MutexTakeOver(ticked, st.id, ts, env);
    MutexCount(setup, TakeOver(ticked, st.id, ts, env), st.phase, ts, env);
    hide Count, TakeOver;
  }

  lemma {:induction false} MutexTick(setup: Setup, m: Turns, id: Id, ts: int, env: Env)
    requires Mutex(m)
    ensures Mutex(OnTick(setup, m, id, ts, env).0)
  {
    var m1 := Expire(setup, m, ts, env);
    MutexExpire(setup, m, |m.sessions|, ts, env);
    hide ExpireUpTo, Judge;
    MutexClose(m1, ts, env);
    var k := IndexOf(m1.sessions, id);
    if k >= 0 && m1.sessions[k].phase != Idle {
      MutexJudge(setup, m1, k, ts, env);
    }
  }

  lemma {:induction false} MutexStep(setup: Setup, m: Turns, e: Timed)
    requires Mutex(m)
    ensures Mutex(Step(setup, m, e))
  {
    hide OnTick, OnSessionEnd, OnTurnStart;
    match e.event {
      case TurnStart(id) => MutexTurnStart(setup, m, id, e.ts);
      case Activity(id) =>
        var k := IndexOf(m.sessions, id);
        if k >= 0 { MutexTouch(m, k, m.sessions[k].(activeAt := e.ts)); }
      case TurnEnd(id) =>
        var k := IndexOf(m.sessions, id);
        if k >= 0 && m.sessions[k].phase == Showing {
          MutexTouch(m, k, m.sessions[k].(phase := Cooldown, cooldownUntil := e.ts + e.env.idleGraceMs));
        }
      case SessionEnd(id) => MutexSessionEnd(m, id, e.ts, e.env);
      case Tick(id) => MutexTick(setup, m, id, e.ts, e.env);
      case Drain =>
    }
  }

  /**
    The mutex, after any events whatever: the holder is a session in a turn, nobody holds it exactly when
    no session is in a turn, an open show is the holder's, and every show opened is emitted or still open.
    */
  lemma {:induction false} MutexAlways(setup: Setup, events: seq<Timed>)
    ensures Mutex(Run(setup, events))
  {
    if |events| > 0 {
      MutexAlways(setup, events[..|events| - 1]);
      hide Step;
      MutexStep(setup, Run(setup, events[..|events| - 1]), events[|events| - 1]);
    }
  }
}
