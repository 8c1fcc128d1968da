/**
  What each event does to the turn machine, said of whole events: when a show rotates, when a silent
  holder gives way, when a session drops out of its turn, and what is hidden for which reason.
  */
module TurnsRules {
  import opened Common
  import opened Turns
  import opened TurnsMutex

  /** A session whose time in the turn is over: the grace period ran out, or the turn has been quiet too long. */
  ghost predicate Due(setup: Setup, st: Session, ts: int)
  {
    || (st.phase == Cooldown && st.cooldownUntil <= ts)
    || (st.phase == Showing && st.activeAt + setup.maxQuietMs <= ts)
  }

  ghost function Settled(setup: Setup, st: Session, ts: int): Session
  {
    if Due(setup, st, ts) then st.(phase := Idle) else st
  }

  ghost predicate Unblocked(env: Env) { !env.paused && env.authenticated && env.renderEnabled && env.statusline }

  /** The session is in a turn and its time is not over. */
  ghost predicate Running(setup: Setup, m: Turns, id: Id, ts: int)
  {
    exists i :: 0 <= i < |m.sessions| && m.sessions[i].id == id && m.sessions[i].phase != Idle && !Due(setup, m.sessions[i], ts)
  }

  /** The record of a show when it closes. */
  function RecordOf(s: Show, n: nat, ts: int, env: Env): Completed
  {
    var seen := if s.lastSeenAt < s.startedAt then 0 else s.lastSeenAt - s.startedAt;
    Completed(n, s.ad, s.session, seen, ts, seen < env.minImpressionMs)
  }

  /** An open show, if any, was closed and recorded; nothing else was. */
  ghost predicate Ended(m: Turns, m': Turns, ts: int, env: Env)
  {
    if m.show.None? then m'.emitted == m.emitted && m'.completed == m.completed
    else
      var c := RecordOf(m.show.value, |m.emitted|, ts, env);
      m'.emitted == m.emitted + [c] && m'.completed == m.completed + [c]
  }

  /* ---------- sessions whose time is over ---------- */

  lemma {:induction false} ExpiredOne(setup: Setup, m: Turns, n: nat, ts: int, env: Env)
    requires n <= |m.sessions|
    ensures var r := ExpireUpTo(setup, m, n, ts, env);
            && |r.sessions| == |m.sessions| && r.drawn == m.drawn
            && forall i :: 0 <= i < |m.sessions| ==>
                 r.sessions[i] == if i < n then Settled(setup, m.sessions[i], ts) else m.sessions[i]
  {
    if n > 0 {
      ExpiredOne(setup, m, n - 1, ts, env);
    }
  }

  ghost predicate HolderDue(setup: Setup, m: Turns, n: nat, ts: int)
    requires n <= |m.sessions|
  {
    exists i :: 0 <= i < n && m.active == Some(m.sessions[i].id) && Due(setup, m.sessions[i], ts)
  }

  lemma {:induction false} HolderExpires(setup: Setup, m: Turns, n: nat, ts: int, env: Env)
    requires Mutex(m) && n <= |m.sessions|
    ensures var r := ExpireUpTo(setup, m, n, ts, env);
            if HolderDue(setup, m, n, ts) then r.show.None? && r.active == NextHolder(r.sessions) && Ended(m, r, ts, env)
            else r == m.(sessions := r.sessions)
  {
    if n > 0 {
      var q := ExpireUpTo(setup, m, n - 1, ts, env);
      HolderExpires(setup, m, n - 1, ts, env);
      ExpiredOne(setup, m, n - 1, ts, env);
      assert HolderDue(setup, m, n, ts) <==>
             HolderDue(setup, m, n - 1, ts) || (m.active == Some(m.sessions[n - 1].id) && Due(setup, m.sessions[n - 1], ts));
      hide HolderDue, ExpireOne, NextHolder, Mutex;
      if HolderDue(setup, m, n - 1, ts) {
        HandedOnBefore(setup, q, n - 1, ts, env);
      } else {
        HandsOnNow(setup, q, n - 1, ts, env);
      }
    }
  }

  /** The mutex was handed on in an earlier round: it is with the first session in a turn, and stays there. */
  lemma {:induction false} HandedOnBefore(setup: Setup, q: Turns, k: nat, ts: int, env: Env)
    requires k < |q.sessions| && q.show.None? && q.active == NextHolder(q.sessions)
    ensures var r := ExpireOne(setup, q, k, ts, env);
            && r.active == NextHolder(r.sessions)
            && r == q.(sessions := r.sessions, active := r.active)
  {
    if q.active != Some(q.sessions[k].id) {
      FirstInTurnStays(q.sessions, k);
    }
  }

  lemma {:induction false} HandsOnNow(setup: Setup, q: Turns, k: nat, ts: int, env: Env)
    requires k < |q.sessions|
    ensures var r := ExpireOne(setup, q, k, ts, env);
            if q.active == Some(q.sessions[k].id) && Due(setup, q.sessions[k], ts)
            then r.show.None? && r.active == NextHolder(r.sessions) && Ended(q, r, ts, env)
            else r == q.(sessions := r.sessions)
  {}

  /** Somebody else going idle does not change who is first in a turn. */
  lemma {:induction false} FirstInTurnStays(ss: seq<Session>, k: nat)
    requires k < |ss| && NextHolder(ss) != Some(ss[k].id)
    ensures NextHolder(ss[k := ss[k].(phase := Idle)]) == NextHolder(ss)
  {
    var after := ss[k := ss[k].(phase := Idle)];
    if k == 0 {
      assert after[1..] == ss[1..];
    } else {
      assert after[1..] == ss[1..][k - 1 := ss[1..][k - 1].(phase := Idle)];
      if ss[0].phase == Idle {
        FirstInTurnStays(ss[1..], k - 1);
      }
    }
  }

  /** Nobody before it is in a turn. */
  ghost predicate FirstInTurn(ss: seq<Session>, holder: Option<Id>)
  {
    match holder
    case None => forall i :: 0 <= i < |ss| ==> ss[i].phase == Idle
    case Some(id) => exists i :: 0 <= i < |ss| && ss[i].id == id && ss[i].phase != Idle && forall j :: 0 <= j < i ==> ss[j].phase == Idle
  }

  lemma {:induction false} NextHolderIsFirst(ss: seq<Session>)
    ensures FirstInTurn(ss, NextHolder(ss))
  {
    if |ss| > 0 && ss[0].phase == Idle {
      var rest := ss[1..];
      NextHolderIsFirst(rest);
      assert forall i :: 0 <= i < |rest| ==> rest[i] == ss[i + 1];
      if NextHolder(rest).Some? {
        var i :| 0 <= i < |rest| && rest[i].id == NextHolder(rest).value && rest[i].phase != Idle && forall j :: 0 <= j < i ==> rest[j].phase == Idle;
        forall j | 0 <= j < i + 1 ensures ss[j].phase == Idle {
          if j > 0 {
            assert rest[j - 1].phase == Idle;
          }
        }
        assert ss[i + 1].phase != Idle;
      }
    }
  }

  /**
    The loop over expired sessions: exactly those whose time is over drop out of their turn. If the holder is
    one of them its show is recorded, and the mutex ends up, whatever happened inside the loop, with the first
    session still in a turn; otherwise holder and show stay as they were.
    */
  lemma {:induction false} ExpiryRule(setup: Setup, m: Turns, ts: int, env: Env)
    requires Mutex(m)
    ensures var r := Expire(setup, m, ts, env);
            && |r.sessions| == |m.sessions|
            && (forall i :: 0 <= i < |m.sessions| ==> r.sessions[i] == Settled(setup, m.sessions[i], ts))
            && (if m.active.None? || Running(setup, m, m.active.value, ts) then r == m.(sessions := r.sessions)
                else r.show.None? && FirstInTurn(r.sessions, r.active) && Ended(m, r, ts, env) && r.drawn == m.drawn)
  {
    var r := Expire(setup, m, ts, env);
    ExpiredOne(setup, m, |m.sessions|, ts, env);
    HolderExpires(setup, m, |m.sessions|, ts, env);
    NextHolderIsFirst(r.sessions);
    hide Expire, ExpireUpTo, NextHolder, FirstInTurn, Ended;
    if m.active.Some? {
      var i :| 0 <= i < |m.sessions| && m.sessions[i].id == m.active.value && m.sessions[i].phase != Idle;
      assert HolderDue(setup, m, |m.sessions|, ts) <==> Due(setup, m.sessions[i], ts);
    }
  }

  /* ---------- ticks ---------- */

  /** The next ad in line is put on screen for this session, or there is none. */
  ghost predicate Opens(setup: Setup, next: nat, id: Id, ts: int, m: Turns, d: Decision)
  {
    && m.drawn == next + 1
    && match setup.ads(next)
       case None => m.show.None? && d.Hidden? && d.reason == NoAd
       case Some(ad) => m.show == Some(Show(ad, ts, id, ts)) && d.Shown? && d.ad == ad && d.counts
  }

  /** A tick of a session in a turn is judged after the expiries, wherever the session stands. */
  lemma {:induction false} TickIsJudged(setup: Setup, m: Turns, id: Id, ts: int, env: Env) returns (k: nat)
    requires Mutex(m) && Unblocked(env) && Running(setup, m, id, ts)
    ensures var m1 := Expire(setup, m, ts, env);
            && k < |m1.sessions| == |m.sessions| && m1.sessions[k] == m.sessions[k] && m.sessions[k].id == id
            && OnTick(setup, m, id, ts, env) == Judge(setup, m1, k, ts, env)
  {
    ExpiryRule(setup, m, ts, env);
    k :| k < |m.sessions| && m.sessions[k].id == id && m.sessions[k].phase != Idle && !Due(setup, m.sessions[k], ts);
    var m1 := Expire(setup, m, ts, env);
    hide Expire, Judge, Running, Ended, FirstInTurn;
    assert forall i :: 0 <= i < |m.sessions| ==> m1.sessions[i].id == m.sessions[i].id;
    assert IndexOf(m1.sessions, id) == k;
  }

  /** The holder's tick with no show open. */
  lemma {:induction false} CountOpens(setup: Setup, m: Turns, phase: Phase, id: Id, ts: int, env: Env)
    requires m.show.None? && m.active == Some(id) && env.rotateMs > 0
    ensures var (r, d) := Count(setup, m, phase, ts, env);
            && r == m.(show := r.show, drawn := r.drawn, shows := r.shows)
            && Opens(setup, m.drawn, id, ts, r, d)
  {}

  lemma {:induction false} CountRotates(setup: Setup, m: Turns, phase: Phase, ts: int, env: Env)
    requires m.show.Some? && m.active.Some?
    ensures var (r, d) := Count(setup, m, phase, ts, env);
            var s := m.show.value;
            && r.active == m.active
            && if ts - s.startedAt < env.rotateMs
               then r.show == Some(s.(lastSeenAt := ts)) && r.emitted == m.emitted && r.completed == m.completed
                    && r.drawn == m.drawn && d.Shown? && d.ad == s.ad && d.counts
               else Ended(m.(show := Some(s.(lastSeenAt := ts))), r, ts, env) && Opens(setup, m.drawn, m.active.value, ts, r, d)
  {}

  /** The tick of a session that does not count. */
  ghost predicate Watches(setup: Setup, m: Turns, r: Turns, d: Decision)
  {
    && r == m.(drawn := r.drawn)
    && (m.show.Some? ==> r.drawn == m.drawn && d.Shown? && d.ad == m.show.value.ad && !d.counts)
    && (m.show.None? ==> r.drawn == m.drawn + 1
                         && match setup.ads(m.drawn)
                            case None => d.Hidden? && d.reason == NoAd
                            case Some(ad) => d.Shown? && d.ad == ad && !d.counts)
  }

  /**
    Rotation. At a tick of the holder with a show open, the show is recorded exactly when it has been open for
    the rotation time, and the next ad takes its place; until then it stays the same show, seen up to now.
    */
  lemma {:induction false} RotationRule(setup: Setup, m: Turns, id: Id, ts: int, env: Env)
    requires Mutex(m) && Unblocked(env) && m.active == Some(id) && Running(setup, m, id, ts) && m.show.Some?
    ensures var (r, d) := OnTick(setup, m, id, ts, env);
            var s := m.show.value;
            && r.active == Some(id)
            && if ts - s.startedAt < env.rotateMs
               then r.show == Some(s.(lastSeenAt := ts)) && r.emitted == m.emitted && r.completed == m.completed
                    && r.drawn == m.drawn && d.Shown? && d.ad == s.ad && d.counts
               else Ended(m.(show := Some(s.(lastSeenAt := ts))), r, ts, env) && Opens(setup, m.drawn, id, ts, r, d)
  {
    var k := TickIsJudged(setup, m, id, ts, env);
    ExpiryRule(setup, m, ts, env);
    var m1 := Expire(setup, m, ts, env);
    CountRotates(setup, m1.(sessions := m1.sessions[k := m1.sessions[k].(lastTickAt := ts)]), m.sessions[k].phase, ts, env);
    hide OnTick, Expire, Running, FirstInTurn, Count, Mutex, Opens;
  }

  /** With no show open, the holder's tick opens one for the next ad in line. */
  lemma {:induction false} OpeningRule(setup: Setup, m: Turns, id: Id, ts: int, env: Env)
    requires Mutex(m) && Unblocked(env) && m.active == Some(id) && Running(setup, m, id, ts) && m.show.None? && env.rotateMs > 0
    ensures var (r, d) := OnTick(setup, m, id, ts, env);
            r.active == Some(id) && r.emitted == m.emitted && r.completed == m.completed && Opens(setup, m.drawn, id, ts, r, d)
  {
    var k := TickIsJudged(setup, m, id, ts, env);
    ExpiryRule(setup, m, ts, env);
    var m1 := Expire(setup, m, ts, env);
    CountOpens(setup, m1.(sessions := m1.sessions[k := m1.sessions[k].(lastTickAt := ts)]), m.sessions[k].phase, id, ts, env);
    hide OnTick, Expire, Running, FirstInTurn, Count, Mutex, Opens;
  }

  lemma {:induction false} SilentHolderGoes(m: Turns, id: Id, h: nat, ts: int, env: Env)
    requires UniqueSessions(m.sessions)
    requires h < |m.sessions| && m.active == Some(m.sessions[h].id) && m.sessions[h].id != id
    ensures var r := TakeOver(m, id, ts, env);
            if ts - m.sessions[h].lastTickAt > 60_000
            then r.active == Some(id) && r.show.None? && r.drawn == m.drawn && Ended(m, r, ts, env)
                 && (forall st :: st in r.sessions <==> st in m.sessions && st.id != m.sessions[h].id)
            else r == m
  {
    assert IndexOf(m.sessions, m.active.value) == h;
    WithoutOne(m.sessions, m.active.value);
  }

  /** The sessions a tick starts from: those whose time is over are idle, and the ticking one has ticked. */
  lemma {:induction false} TickedSessions(setup: Setup, ss: seq<Session>, k: nat, after: seq<Session>, ts: int)
    requires UniqueSessions(ss) && k < |ss| == |after|
    requires forall i :: 0 <= i < |ss| ==> after[i] == if i == k then ss[k].(lastTickAt := ts) else Settled(setup, ss[i], ts)
    ensures UniqueSessions(after)
    ensures forall st :: st in ss && st.id != ss[k].id ==> Settled(setup, st, ts) in after
  {
    forall st | st in ss && st.id != ss[k].id ensures Settled(setup, st, ts) in after {
      var i :| 0 <= i < |ss| && ss[i] == st;
      assert after[i] == Settled(setup, st, ts);
    }
  }

  /** The world another session's tick is judged in, once the holder is known to be running. */
  lemma {:induction false} OtherTicks(setup: Setup, m: Turns, id: Id, h: nat, ts: int, env: Env) returns (ticked: Turns, phase: Phase)
    requires Mutex(m) && Unblocked(env) && Running(setup, m, id, ts)
    requires h < |m.sessions| && m.active == Some(m.sessions[h].id) && m.sessions[h].id != id && !Due(setup, m.sessions[h], ts)
    ensures ticked == m.(sessions := ticked.sessions) && UniqueSessions(ticked.sessions)
    ensures h < |ticked.sessions| && ticked.sessions[h] == m.sessions[h]
    ensures forall st :: st in m.sessions && st.id != id ==> Settled(setup, st, ts) in ticked.sessions
    ensures var over := TakeOver(ticked, id, ts, env);
            OnTick(setup, m, id, ts, env) == if over.active == Some(id) then Count(setup, over, phase, ts, env) else Watch(setup, over, phase)
  {
    var k := TickIsJudged(setup, m, id, ts, env);
    ExpiryRule(setup, m, ts, env);
    var m1 := Expire(setup, m, ts, env);
    phase := m.sessions[k].phase;
    ticked := m1.(sessions := m1.sessions[k := m1.sessions[k].(lastTickAt := ts)]);
    assert Running(setup, m, m.active.value, ts) by {
      var i :| 0 <= i < |m.sessions| && m.sessions[i].id == m.active.value && m.sessions[i].phase != Idle;
      assert i == h;
    }
    TickedSessions(setup, m.sessions, k, ticked.sessions, ts);
    hide OnTick, Expire, FirstInTurn, Ended, TakeOver, Count, Watch, UniqueSessions, Running;
  }

  /**
    Take-over. A tick of another session takes the mutex when the holder has not ticked for more than a minute:
    the silent session is forgotten, its show recorded as far as it was seen, and the next ad opened.
    */
  lemma {:induction false} SilentHolderGivesWay(setup: Setup, m: Turns, id: Id, h: nat, ts: int, env: Env)
    requires Mutex(m) && Unblocked(env) && Running(setup, m, id, ts) && env.rotateMs > 0
    requires h < |m.sessions| && m.active == Some(m.sessions[h].id) && m.sessions[h].id != id && !Due(setup, m.sessions[h], ts)
    requires ts - m.sessions[h].lastTickAt > 60_000
    ensures var (r, d) := OnTick(setup, m, id, ts, env);
            && r.active == Some(id) && Ended(m, r, ts, env) && Opens(setup, m.drawn, id, ts, r, d)
            && (forall st :: st in r.sessions ==> st.id != m.sessions[h].id)
            && (forall st :: st in m.sessions && st.id != id && st.id != m.sessions[h].id ==> Settled(setup, st, ts) in r.sessions)
  {
    var ticked, phase := OtherTicks(setup, m, id, h, ts, env);
    SilentHolderGoes(ticked, id, h, ts, env);
    CountOpens(setup, TakeOver(ticked, id, ts, env), phase, id, ts, env);
    hide OnTick, TakeOver, Count, Watch, Mutex, Running, UniqueSessions, Opens;
  }

  /** A holder heard of within the minute keeps counting, and the other session sees its ad, or one of its own, uncounted. */
  lemma {:induction false} LiveHolderKeepsCounting(setup: Setup, m: Turns, id: Id, h: nat, ts: int, env: Env)
    requires Mutex(m) && Unblocked(env) && Running(setup, m, id, ts)
    requires h < |m.sessions| && m.active == Some(m.sessions[h].id) && m.sessions[h].id != id && !Due(setup, m.sessions[h], ts)
    requires ts - m.sessions[h].lastTickAt <= 60_000
    ensures var (r, d) := OnTick(setup, m, id, ts, env);
            && Watches(setup, m.(sessions := r.sessions), r, d)
            && (forall st :: st in m.sessions && st.id != id ==> Settled(setup, st, ts) in r.sessions)
  {
    var ticked, phase := OtherTicks(setup, m, id, h, ts, env);
    SilentHolderGoes(ticked, id, h, ts, env);
    hide OnTick, TakeOver, Count, Mutex, Running, UniqueSessions;
  }

  lemma {:induction false} CountLeavesSessions(setup: Setup, m: Turns, phase: Phase, ts: int, env: Env)
    ensures Count(setup, m, phase, ts, env).0.sessions == m.sessions
  {}

  /** A session's own tick is what keeps it from being taken for silent; nothing else about it changes. */
  lemma {:induction false} TickIsNoted(setup: Setup, m: Turns, k: nat, ts: int, env: Env)
    requires Mutex(m) && Unblocked(env) && k < |m.sessions| && m.sessions[k].phase != Idle && !Due(setup, m.sessions[k], ts)
    ensures m.sessions[k].(lastTickAt := ts) in OnTick(setup, m, m.sessions[k].id, ts, env).0.sessions
  {
    var id := m.sessions[k].id;
    assert Running(setup, m, id, ts);
    var i := TickIsJudged(setup, m, id, ts, env);
    assert i == k;
    var m1 := Expire(setup, m, ts, env);
    MutexExpire(setup, m, |m.sessions|, ts, env);
    var noted := m.sessions[k].(lastTickAt := ts);
    var ticked := m1.(sessions := m1.sessions[k := noted]);
    assert ticked.sessions[k] == noted;
    var over := TakeOver(ticked, id, ts, env);
    if over != ticked {
      WithoutOne(ticked.sessions, m1.active.value);
    }
    assert noted in over.sessions;
    CountLeavesSessions(setup, over, noted.phase, ts, env);
    hide OnTick, Expire, Mutex, Count, TakeOver;
  }

  /** Sessions whose time is over are found by the first look: the rules above speak of the state after the expiries as well. */
  lemma {:induction false} TickAfterExpiry(setup: Setup, m: Turns, id: Id, ts: int, env: Env)
    requires Mutex(m)
    ensures var m1 := Expire(setup, m, ts, env);
            Mutex(m1) && (m1.active.None? || Running(setup, m1, m1.active.value, ts))
            && OnTick(setup, m1, id, ts, env) == OnTick(setup, m, id, ts, env)
  {
    var m1 := Expire(setup, m, ts, env);
    MutexExpire(setup, m, |m.sessions|, ts, env);
    ExpiryRule(setup, m, ts, env);
    if m1.active.Some? {
      var i :| 0 <= i < |m1.sessions| && m1.sessions[i].id == m1.active.value && m1.sessions[i].phase != Idle;
      assert !Due(setup, m1.sessions[i], ts);
    }
    ExpiryRule(setup, m1, ts, env);
    assert Expire(setup, m1, ts, env).sessions == m1.sessions;
  }

  lemma {:induction false} OnlyForWantOfAnAd(setup: Setup, m: Turns, k: nat, ts: int, env: Env)
    requires k < |m.sessions|
    ensures var d := Judge(setup, m, k, ts, env).1; d.Shown? || d.reason == NoAd
  {
    hide TakeOver, StartShow, CloseShow;
  }

  /** What is hidden, and why: the first reason that holds. A blocked tick records the open show and opens none. */
  lemma {:induction false} HiddenRule(setup: Setup, m: Turns, id: Id, ts: int, env: Env)
    requires Mutex(m)
    ensures var (r, d) := OnTick(setup, m, id, ts, env);
            && (env.paused ==> d == Hidden(Idle, Paused))
            && (!env.paused && !env.authenticated ==> d == Hidden(Idle, NotSignedIn))
            && (!env.paused && env.authenticated && !env.renderEnabled ==> d == Hidden(Idle, RenderOff))
            && (!env.paused && env.authenticated && env.renderEnabled && !env.statusline ==> d == Hidden(Idle, SurfaceOff))
            && (!Unblocked(env) ==> r.show.None? && Ended(m, r, ts, env) && r.drawn == m.drawn)
            && (Unblocked(env) && !Running(setup, m, id, ts) ==> d == Hidden(Idle, NoTurn) && r == Expire(setup, m, ts, env))
            && (Unblocked(env) && Running(setup, m, id, ts) ==> d.Shown? || d.reason == NoAd)
  {
    if Unblocked(env) && Running(setup, m, id, ts) {
      var k := TickIsJudged(setup, m, id, ts, env);
      OnlyForWantOfAnAd(setup, Expire(setup, m, ts, env), k, ts, env);
      hide OnTick, Expire, Judge, Mutex, Running;
    } else {
      ExpiryRule(setup, m, ts, env);
      hide Expire, FirstInTurn, Judge, Mutex;
    }
  }

  /** A counted decision is the holder's, about the ad on screen, which was seen up to now. */
  lemma {:induction false} CountedTick(setup: Setup, m: Turns, id: Id, ts: int, env: Env)
    requires Mutex(m)
    ensures var (r, d) := OnTick(setup, m, id, ts, env);
            d.Shown? ==>
              && (d.counts <==> r.active == Some(id))
              && (d.counts ==> r.show.Some? && r.show.value.session == id && r.show.value.ad == d.ad && r.show.value.lastSeenAt == ts
                               && (env.rotateMs > 0 ==> ts - r.show.value.startedAt < env.rotateMs))
  {
    HiddenRule(setup, m, id, ts, env);
    if Unblocked(env) && Running(setup, m, id, ts) {
      var k := TickIsJudged(setup, m, id, ts, env);
      var m1 := Expire(setup, m, ts, env);
      MutexExpire(setup, m, |m.sessions|, ts, env);
      hide OnTick, Expire, Ended;
      JudgedCounts(setup, m1, k, ts, env);
    }
  }

  lemma {:induction false} CountIsCurrent(setup: Setup, m: Turns, phase: Phase, id: Id, ts: int, env: Env)
    requires m.active == Some(id) && (m.show.Some? ==> m.show.value.session == id)
    ensures var (r, d) := Count(setup, m, phase, ts, env);
            && r.active == Some(id)
            && (d.Shown? ==> d.counts && r.show.Some? && r.show.value.session == id && r.show.value.ad == d.ad && r.show.value.lastSeenAt == ts
                             && (env.rotateMs > 0 ==> ts - r.show.value.startedAt < env.rotateMs))
  {}

  lemma {:induction false} JudgedCounts(setup: Setup, m: Turns, k: nat, ts: int, env: Env)
    requires Mutex(m) && k < |m.sessions|
    ensures var (r, d) := Judge(setup, m, k, ts, env);
            var id := m.sessions[k].id;
            d.Shown? ==>
              && (d.counts <==> r.active == Some(id))
              && (d.counts ==> r.show.Some? && r.show.value.session == id && r.show.value.ad == d.ad && r.show.value.lastSeenAt == ts
                               && (env.rotateMs > 0 ==> ts - r.show.value.startedAt < env.rotateMs))
  {
    var st := m.sessions[k];
    var m2 := TakeOver(m.(sessions := m.sessions[k := st.(lastTickAt := ts)]), st.id, ts, env);
    assert m2.show.Some? ==> m2.active == Some(m2.show.value.session);
    hide TakeOver, Mutex;
    if m2.active == Some(st.id) {
      CountIsCurrent(setup, m2, st.phase, st.id, ts, env);
      hide Count;
    }
  }

  /** In every run, rotation keeps up: after a counted tick the show on screen has not yet been open for the rotation time. */
  lemma {:induction false} RotationKeepsUp(setup: Setup, events: seq<Timed>, e: Timed)
    requires e.event.Tick?
    ensures var d := OnTick(setup, Run(setup, events), e.event.id, e.ts, e.env).1;
            var r := Run(setup, events + [e]);
            d.Shown? && d.counts ==>
              && r.active == Some(e.event.id) && r.show.Some? && r.show.value.session == e.event.id
              && r.show.value.ad == d.ad && r.show.value.lastSeenAt == e.ts
              && (e.env.rotateMs > 0 ==> e.ts - r.show.value.startedAt < e.env.rotateMs)
  {
    MutexAlways(setup, events);
    CountedTick(setup, Run(setup, events), e.event.id, e.ts, e.env);
    assert (events + [e])[..|events|] == events;
    hide OnTick, Mutex;
  }

  /* ---------- hooks ---------- */

  /** A prompt opens the session's turn; it takes a free mutex, and whoever holds the mutex with no show open opens one. */
  lemma {:induction false} TurnStartRule(setup: Setup, m: Turns, id: Id, ts: int)
    requires Mutex(m)
    ensures var r := OnTurnStart(setup, m, id, ts);
            && |m.sessions| <= |r.sessions| && (forall i :: 0 <= i < |m.sessions| ==> r.sessions[i].id == m.sessions[i].id)
            && (forall st :: st in r.sessions <==> st == Session(id, Showing, 0, ts, ts) || (st in m.sessions && st.id != id))
            && r.active == (if m.active.None? then Some(id) else m.active)
            && r.emitted == m.emitted && r.completed == m.completed
            && (if m.show.Some? || r.active != Some(id) then r.show == m.show && r.drawn == m.drawn
                else r.drawn == m.drawn + 1
                     && r.show == match setup.ads(m.drawn)
                                  case None => None
                                  case Some(ad) => Some(Show(ad, ts, id, ts)))
  {
    var r := OnTurnStart(setup, m, id, ts);
    var st := Session(id, Showing, 0, ts, ts);
    var k := IndexOf(m.sessions, id);
    assert r.sessions == if k < 0 then m.sessions + [st] else m.sessions[k := st];
    assert r.sessions[if k < 0 then |m.sessions| else k] == st;
    forall s | s in m.sessions && s.id != id ensures s in r.sessions {
      var i :| 0 <= i < |m.sessions| && m.sessions[i] == s;
      assert r.sessions[i] == s;
    }
  }

  /** Signs of life and stops touch one session that is showing, and only its own times. */
  lemma {:induction false} HookRule(m: Turns, id: Id, ts: int, env: Env, i: nat)
    requires Mutex(m) && i < |m.sessions|
    ensures var st := m.sessions[i];
            var r := OnActivity(m, id, ts);
            && r == m.(sessions := r.sessions) && |r.sessions| == |m.sessions|
            && r.sessions[i] == if st.id == id && st.phase == Showing then st.(activeAt := ts) else st
    ensures var st := m.sessions[i];
            var r := OnTurnEnd(m, id, ts, env);
            && r == m.(sessions := r.sessions) && |r.sessions| == |m.sessions|
            && r.sessions[i] == if st.id == id && st.phase == Showing
                                then st.(phase := Cooldown, cooldownUntil := ts + env.idleGraceMs) else st
  {}

  /** A session that ends is forgotten; if it held the mutex its show is recorded and the first session in a turn takes over. */
  lemma {:induction false} SessionEndRule(m: Turns, id: Id, ts: int, env: Env)
    requires Mutex(m)
    ensures var r := OnSessionEnd(m, id, ts, env);
            && (forall st :: st in r.sessions <==> st in m.sessions && st.id != id)
            && (if m.active != Some(id) then r == m.(sessions := r.sessions)
                else r.show.None? && FirstInTurn(r.sessions, r.active) && Ended(m, r, ts, env) && r.drawn == m.drawn)
  {
    WithoutOne(m.sessions, id);
    NextHolderIsFirst(Without(m.sessions, id));
    hide NextHolder, Without, FirstInTurn;
  }

  /* ---------- records ---------- */

  /** What was recorded between two states. */
  function Fresh(m: Turns, m': Turns): seq<Completed>
  {
    if |m.emitted| <= |m'.emitted| then m'.emitted[|m.emitted|..] else []
  }

  /** A record is numbered, as long as its show was seen, dated by its event, and flagged by the minimum valid then. */
  ghost predicate Dated(m: Turns, i: nat, e: Timed)
    requires i < |m.emitted| == |m.spans|
  {
    var c, s := m.emitted[i], m.spans[i];
    && c.id == i && c.session == s.session && c.clientTs == e.ts
    && c.durationMs == (if s.end < s.start then 0 else s.end - s.start)
    && (c.tooShort <==> c.durationMs < e.env.minImpressionMs)
  }

  /** Records are only added, and handed over by nothing but a drain. */
  ghost predicate Recorded(m: Turns, m': Turns, e: Timed)
  {
    && |m.emitted| == |m.spans| <= |m'.emitted| == |m'.spans|
    && m'.emitted[..|m.emitted|] == m.emitted && m'.spans[..|m.spans|] == m.spans
    && m'.completed == m.completed + Fresh(m, m')
    && forall i :: |m.emitted| <= i < |m'.emitted| ==> Dated(m', i, e)
  }

  lemma {:induction false} DatedStays(m: Turns, m': Turns, i: nat, e: Timed)
    requires i < |m.emitted| == |m.spans| <= |m'.emitted| == |m'.spans|
    requires m'.emitted[..|m.emitted|] == m.emitted && m'.spans[..|m.spans|] == m.spans
    requires Dated(m, i, e)
    ensures Dated(m', i, e)
  {
    assert m'.emitted[..|m.emitted|][i] == m.emitted[i] && m'.spans[..|m.spans|][i] == m.spans[i];
  }

  lemma {:induction false} RecordedTwice(a: Turns, b: Turns, c: Turns, e: Timed)
    requires Recorded(a, b, e) && Recorded(b, c, e)
    ensures Recorded(a, c, e)
  {
    forall i | |a.emitted| <= i < |c.emitted| ensures Dated(c, i, e) {
      if i < |b.emitted| {
        DatedStays(b, c, i, e);
      }
    }
    hide Dated;
    assert c.emitted[..|b.emitted|][..|a.emitted|] == c.emitted[..|a.emitted|];
    assert c.spans[..|b.spans|][..|a.spans|] == c.spans[..|a.spans|];
    assert Fresh(a, c) == Fresh(a, b) + Fresh(b, c);
    assert (a.completed + Fresh(a, b)) + Fresh(b, c) == a.completed + (Fresh(a, b) + Fresh(b, c));
  }

  lemma {:induction false} RecordedClose(m: Turns, m': Turns, e: Timed)
    requires |m.emitted| == |m.spans|
    requires var r := CloseShow(m, e.ts, e.env); m'.emitted == r.emitted && m'.completed == r.completed && m'.spans == r.spans
    ensures Recorded(m, m', e)
  {}

  lemma {:induction false} RecordedExpire(setup: Setup, m: Turns, n: nat, e: Timed)
    requires |m.emitted| == |m.spans| && n <= |m.sessions|
    ensures Recorded(m, ExpireUpTo(setup, m, n, e.ts, e.env), e)
  {
    if n > 0 {
      var q := ExpireUpTo(setup, m, n - 1, e.ts, e.env);
      RecordedExpire(setup, m, n - 1, e);
      var r := ExpireOne(setup, q, n - 1, e.ts, e.env);
      assert Recorded(q, r, e);
      hide ExpireOne, Recorded;
      RecordedTwice(m, q, r, e);
    }
  }

  lemma {:induction false} RecordedCount(setup: Setup, m: Turns, phase: Phase, e: Timed)
    requires |m.emitted| == |m.spans|
    ensures Recorded(m, Count(setup, m, phase, e.ts, e.env).0, e)
  {}

  lemma {:induction false} RecordedJudge(setup: Setup, m: Turns, k: nat, e: Timed)
    requires |m.emitted| == |m.spans| && k < |m.sessions|
    ensures Recorded(m, Judge(setup, m, k, e.ts, e.env).0, e)
  {
    var st := m.sessions[k];
    var m1 := m.(sessions := m.sessions[k := st.(lastTickAt := e.ts)]);
    var m2 := TakeOver(m1, st.id, e.ts, e.env);
    assert Recorded(m, m2, e);
    RecordedCount(setup, m2, st.phase, e);
    hide Count, TakeOver, Dated;
    if m2.active == Some(st.id) {
      RecordedTwice(m, m2, Count(setup, m2, st.phase, e.ts, e.env).0, e);
    }
  }

  lemma {:induction false} RecordedTick(setup: Setup, m: Turns, e: Timed, id: Id)
    requires |m.emitted| == |m.spans|
    ensures Recorded(m, OnTick(setup, m, id, e.ts, e.env).0, e)
  {
    var m1 := Expire(setup, m, e.ts, e.env);
    RecordedExpire(setup, m, |m.sessions|, e);
    RecordedClose(m1, CloseShow(m1, e.ts, e.env), e);
    RecordedTwice(m, m1, CloseShow(m1, e.ts, e.env), e);
    var k := IndexOf(m1.sessions, id);
    if k >= 0 {
      RecordedJudge(setup, m1, k, e);
      RecordedTwice(m, m1, Judge(setup, m1, k, e.ts, e.env).0, e);
    }
    hide Recorded, Judge, Expire;
  }

  lemma {:induction false} RecordedStep(setup: Setup, m: Turns, e: Timed)
    requires |m.emitted| == |m.spans| && !e.event.Drain?
    ensures Recorded(m, Step(setup, m, e), e)
  {
    hide OnTick;
    match e.event {
      case Tick(id) => RecordedTick(setup, m, e, id);
      case _ =>
    }
  }

  /** Everything handed over so far. */
  function Drained(setup: Setup, events: seq<Timed>): seq<Completed>
  {
    if |events| == 0 then []
    else
      var before := events[..|events| - 1];
      if events[|events| - 1].event.Drain? then Drained(setup, before) + Run(setup, before).completed else Drained(setup, before)
  }

  ghost predicate Explained(m: Turns, events: seq<Timed>, i: nat)
    requires i < |m.emitted| == |m.spans|
  {
    exists e :: e in events && Dated(m, i, e)
  }

  /**
    In every run: every record is numbered in order, as long as its show was seen, dated by the event that closed
    it and flagged too short by the minimum valid then; and what was handed over and what still waits is, in
    order, all that was recorded.
    */
  lemma {:induction false} RecordsAreKept(setup: Setup, events: seq<Timed>)
    ensures var m := Run(setup, events);
            && |m.emitted| == |m.spans|
            && (forall i :: 0 <= i < |m.emitted| ==> Explained(m, events, i))
            && m.emitted == Drained(setup, events) + m.completed
  {
    if |events| > 0 {
      var before, e := events[..|events| - 1], events[|events| - 1];
      var m := Run(setup, before);
      RecordsAreKept(setup, before);
      if !e.event.Drain? {
        RecordedStep(setup, m, e);
      }
      hide Step, Dated;
      ExplainedStep(setup, before, e);
      assert events == before + [e];
      hide Recorded, Explained;
      if e.event.Drain? {
        RecordedDrain(setup, m, e);
      } else {
        NothingIsLost(setup, m, Drained(setup, before), e);
      }
    }
  }

  lemma {:induction false} ExplainedStep(setup: Setup, before: seq<Timed>, e: Timed)
    requires var m := Run(setup, before); |m.emitted| == |m.spans| && forall i :: 0 <= i < |m.emitted| ==> Explained(m, before, i)
    requires !e.event.Drain? ==> Recorded(Run(setup, before), Step(setup, Run(setup, before), e), e)
    ensures var m' := Step(setup, Run(setup, before), e);
            |m'.emitted| == |m'.spans| && forall i :: 0 <= i < |m'.emitted| ==> Explained(m', before + [e], i)
  {
    var m, m' := Run(setup, before), Step(setup, Run(setup, before), e);
    if e.event.Drain? {
      RecordedDrain(setup, m, e);
    }
    hide Step, Run, Dated;
    forall i | 0 <= i < |m'.emitted| ensures Explained(m', before + [e], i) {
      if i < |m.emitted| {
        assert Explained(m, before, i);
        var was :| was in before && Dated(m, i, was);
        DatedStays(m, m', i, was);
        assert was in before + [e] && Dated(m', i, was);
      } else {
        assert e in before + [e] && Dated(m', i, e);
      }
    }
  }

  lemma {:induction false} NothingIsLost(setup: Setup, m: Turns, drained: seq<Completed>, e: Timed)
    requires Recorded(m, Step(setup, m, e), e) && m.emitted == drained + m.completed
    ensures Step(setup, m, e).emitted == drained + Step(setup, m, e).completed
  {
    var m' := Step(setup, m, e);
    hide Step, Dated;
    assert m'.emitted == m.emitted + Fresh(m, m');
  }

  lemma {:induction false} RecordedDrain(setup: Setup, m: Turns, e: Timed)
    requires e.event.Drain?
    ensures Step(setup, m, e) == m.(completed := [])
  {}
}
