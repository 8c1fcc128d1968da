/** The turn machine as the daemon keeps it: an object every event changes, tied to the event functions. */
module TurnMachine {
  import opened Common
  import opened Turns
  import Spec = Turns
  import opened TurnsMutex

  class TurnMachine {
    const setup: Setup
    var sessions: seq<Session>
    var active: Option<Id>
    var show: Option<Show>
    var completed: seq<Completed>
    var drawn: nat
    ghost var emitted: seq<Completed>
    ghost var spans: seq<Span>
    ghost var shows: nat
    /** Identifiers given out so far. */
    var nextId: nat

    ghost predicate Valid()
      reads this
    {
      nextId == |emitted| && Mutex(State())
    }

    ghost function State(): Turns
      reads this
    {
      Turns(sessions, active, show, completed, drawn, emitted, spans, shows)
    }

    constructor (setup: Setup)
      ensures Valid() && State() == Start() && this.setup == setup
    {
      this.setup := setup;
      sessions, active, show, completed, drawn, nextId := [], None, None, [], 0, 0;
      emitted, spans, shows := [], [], 0;
    }

    method StartShow(ts: int)
      requires nextId == |emitted|
      modifies this
      ensures State() == Spec.StartShow(setup, old(State()), ts) && nextId == old(nextId)
    {
      var ad := setup.ads(drawn);
      drawn := drawn + 1;
      if ad.None? || active.None? {
        show := None;
      } else {
        show := Some(Show(ad.value, ts, active.value, ts));
        shows := shows + 1;
      }
    }

    method CloseShow(ts: int, env: Env)
      requires nextId == |emitted|
      modifies this
      ensures State() == Spec.CloseShow(old(State()), ts, env) && nextId == |emitted|
    {
      if show.None? {
        return;
      }
      var s := show.value;
      show := None;
      var durationMs := if s.lastSeenAt - s.startedAt > 0 then s.lastSeenAt - s.startedAt else 0;
      var c := Completed(nextId, s.ad, s.session, durationMs, ts, durationMs < env.minImpressionMs);
      nextId := nextId + 1;
      completed := completed + [c];
      emitted, spans := emitted + [c], spans + [Span(s.session, s.startedAt, s.lastSeenAt)];
    }

    /** `#nextMutexHolder` */
    method FindHolder() returns (r: Option<Id>)
      ensures r == NextHolder(sessions)
    {
      for i := 0 to |sessions|
        invariant NextHolder(sessions) == NextHolder(sessions[i..])
      {
        if sessions[i].phase != Idle {
          return Some(sessions[i].id);
        }
        assert sessions[i..][1..] == sessions[i + 1..];
      }
      r := None;
    }

    /** `#expireCooldowns`: the hand-over happens inside the loop, to whoever is in a turn at that point. */
    method ExpireCooldowns(ts: int, env: Env)
      requires nextId == |emitted|
      modifies this
      ensures State() == Expire(setup, old(State()), ts, env) && nextId == |emitted|
    {
      ghost var m := State();
      for i := 0 to |sessions|
        invariant |sessions| == |m.sessions| && nextId == |emitted|
        invariant State() == ExpireUpTo(setup, m, i, ts, env)
      {
        var st := sessions[i];
        var cooled := st.phase == Cooldown && ts >= st.cooldownUntil;
        var abandoned := st.phase == Showing && ts - st.activeAt >= setup.maxQuietMs;
        if cooled || abandoned {
          sessions := sessions[i := st.(phase := Idle)];
          if active == Some(st.id) {
            CloseShow(ts, env);
            active := FindHolder();
          }
        }
      }
    }

    method OnTurnStart(id: Id, ts: int)
      requires Valid()
      modifies this
      ensures Valid() && State() == Spec.OnTurnStart(setup, old(State()), id, ts)
    {
      MutexTurnStart(setup, State(), id, ts);
      var st := Session(id, Showing, 0, ts, ts);
      var k := IndexOf(sessions, id);
      sessions := if k < 0 then sessions + [st] else sessions[k := st];
      if active.None? || active == Some(id) {
        active := Some(id);
        if show.None? {
          StartShow(ts);
        }
      }
    }

    method OnActivity(id: Id, ts: int)
      requires Valid()
      modifies this`sessions
      ensures Valid() && State() == Spec.OnActivity(old(State()), id, ts)
    {
      var k := IndexOf(sessions, id);
      if k >= 0 && sessions[k].phase == Showing {
        MutexTouch(State(), k, sessions[k].(activeAt := ts));
        sessions := sessions[k := sessions[k].(activeAt := ts)];
      }
    }

    method OnTurnEnd(id: Id, ts: int, env: Env)
      requires Valid()
      modifies this`sessions
      ensures Valid() && State() == Spec.OnTurnEnd(old(State()), id, ts, env)
    {
      var k := IndexOf(sessions, id);
      if k < 0 || sessions[k].phase != Showing {
        return;
      }
      MutexTouch(State(), k, sessions[k].(phase := Cooldown, cooldownUntil := ts + env.idleGraceMs));
      sessions := sessions[k := sessions[k].(phase := Cooldown, cooldownUntil := ts + env.idleGraceMs)];
    }

    method OnSessionEnd(id: Id, ts: int, env: Env)
      requires Valid()
      modifies this
      ensures Valid() && State() == Spec.OnSessionEnd(old(State()), id, ts, env)
    {
      MutexSessionEnd(State(), id, ts, env);
      hide Mutex;
      sessions := Without(sessions, id);
      if active == Some(id) {
        HandOn(ts, env);
      }
    }

    /** The show is closed and the next session in a turn takes over. */
    method HandOn(ts: int, env: Env)
      requires nextId == |emitted|
      modifies this
      ensures var m := Spec.CloseShow(old(State()), ts, env); State() == m.(active := NextHolder(m.sessions)) && nextId == |emitted|
    {
      CloseShow(ts, env);
      active := FindHolder();
    }

    /** `drainImpressions` */
    method DrainImpressions() returns (r: seq<Completed>)
      requires Valid()
      modifies this`completed
      ensures Valid() && r == old(completed) && State() == old(State()).(completed := [])
    {
      r := completed;
      completed := [];
    }

    /** `onTick` */
    method OnTick(id: Id, ts: int, env: Env) returns (d: Decision)
      requires Valid()
      modifies this
      ensures Valid() && (State(), d) == Spec.OnTick(setup, old(State()), id, ts, env)
    {
      MutexTick(setup, State(), id, ts, env);
      hide Mutex, Expire, ExpireUpTo;
      ExpireCooldowns(ts, env);
      if env.paused {
        CloseShow(ts, env);
        return Hidden(Idle, Paused);
      }
      if !env.authenticated {
        CloseShow(ts, env);
        return Hidden(Idle, NotSignedIn);
      }
      if !env.renderEnabled {
        CloseShow(ts, env);
        return Hidden(Idle, RenderOff);
      }
      if !env.statusline {
        CloseShow(ts, env);
        return Hidden(Idle, SurfaceOff);
      }
      var k := IndexOf(sessions, id);
      if k < 0 || sessions[k].phase == Idle {
        return Hidden(Idle, NoTurn);
      }
      hide Spec.CloseShow, Spec.StartShow, Spec.Judge;
      d := JudgeTick(k, ts, env);
    }

    /** The tick of a session in a turn. */
    method JudgeTick(k: nat, ts: int, env: Env) returns (d: Decision)
      requires nextId == |emitted| && k < |sessions|
      modifies this
      ensures nextId == |emitted| && (State(), d) == Judge(setup, old(State()), k, ts, env)
    {
      hide TakeOver, Spec.Count;
      var id, phase := sessions[k].id, sessions[k].phase;
      sessions := sessions[k := sessions[k].(lastTickAt := ts)];
      TakeOverIfStale(id, ts, env);
      if active == Some(id) {
        d := CountTick(phase, ts, env);
        return;
      }
      if show.Some? {
        return Shown(show.value.ad, phase, false);
      }
      var ad := setup.ads(drawn);
      drawn := drawn + 1;
      d := if ad.None? then Hidden(phase, NoAd) else Shown(ad.value, phase, false);
    }

    method TakeOverIfStale(id: Id, ts: int, env: Env)
      requires nextId == |emitted|
      modifies this
      ensures nextId == |emitted| && State() == TakeOver(old(State()), id, ts, env)
    {
      if active.Some? && active != Some(id) {
        var holder := active.value;
        var k := IndexOf(sessions, holder);
        if k < 0 || ts - sessions[k].lastTickAt > STALE_MUTEX_MS {
          CloseShow(ts, env);
          sessions := Without(sessions, holder);
          active := Some(id);
        }
      }
    }

    method CountTick(phase: Phase, ts: int, env: Env) returns (d: Decision)
      requires nextId == |emitted|
      modifies this
      ensures nextId == |emitted| && (State(), d) == Count(setup, old(State()), phase, ts, env)
    {
      hide Spec.CloseShow;
      if show.None? {
        StartShow(ts);
        if show.None? {
          return Hidden(phase, NoAd);
        }
      }
      show := Some(show.value.(lastSeenAt := ts));
      if ts - show.value.startedAt >= env.rotateMs {
        CloseShow(ts, env);
        StartShow(ts);
        if show.None? {
          return Hidden(phase, NoAd);
        }
      }
      d := Shown(show.value.ad, phase, true);
    }
  }
}
