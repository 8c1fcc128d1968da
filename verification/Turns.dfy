/**
  The daemon's turn machine (packages/cli/src/daemon/turns.ts) as a function of timestamped events:
  per-session phases, one counting session per machine, rotation, cooldown, take-over, quiet turns.
  */
module Turns {
  import opened Common

  const STALE_MUTEX_MS: int := 60_000

  datatype Phase = Idle | Showing | Cooldown

  datatype Ad = Ad(campaign: Id, nonce: Id)

  datatype Session = Session(id: Id, phase: Phase, cooldownUntil: int, lastTickAt: int, activeAt: int)

  datatype Show = Show(ad: Ad, startedAt: int, session: Id, lastSeenAt: int)

  datatype Completed = Completed(id: nat, ad: Ad, session: Id, durationMs: int, clientTs: int, tooShort: bool)

  /** What the machine asks its surroundings at the moment of an event. */
  datatype Env = Env(
    paused: bool, authenticated: bool, renderEnabled: bool, statusline: bool,
    rotateMs: int, idleGraceMs: int, minImpressionMs: int)

  /** What does not change: the quiet limit, and the ad each successive request is answered with. */
  datatype Setup = Setup(maxQuietMs: int, ads: nat -> Option<Ad>)

  /** The time a show was seen on screen, kept as history. */
  datatype Span = Span(session: Id, start: int, end: int)

  datatype Turns = Turns(
    sessions: seq<Session>,
    active: Option<Id>,
    show: Option<Show>,
    completed: seq<Completed>,
    drawn: nat,
    // history: everything ever emitted with the time it covers, and how many shows were opened
    emitted: seq<Completed>,
    spans: seq<Span>,
    shows: nat)

  function Start(): Turns { Turns([], None, None, [], 0, [], [], 0) }

  datatype HideReason = Paused | NotSignedIn | RenderOff | SurfaceOff | NoTurn | NoAd

  datatype Decision = Hidden(phase: Phase, reason: HideReason) | Shown(ad: Ad, phase: Phase, counts: bool)

  /* ---------- internals ---------- */

  function IndexOf(ss: seq<Session>, id: Id): (k: int)
    ensures -1 <= k < |ss|
    ensures 0 <= k ==> ss[k].id == id
    ensures k == -1 ==> forall i :: 0 <= i < |ss| ==> ss[i].id != id
  {
    LastIndex(ss, (s: Session) => s.id == id)
  }

  /** `#nextMutexHolder`: the first session in a turn, in the order they were first seen. */
  function NextHolder(ss: seq<Session>): (r: Option<Id>)
    ensures r.None? ==> forall i :: 0 <= i < |ss| ==> ss[i].phase == Idle
    ensures r.Some? ==> exists i :: 0 <= i < |ss| && ss[i].id == r.value && ss[i].phase != Idle
  {
    if |ss| == 0 then None
    else if ss[0].phase != Idle then Some(ss[0].id)
    else
      var r := NextHolder(ss[1..]);
      assert r.Some? ==> exists i :: 0 <= i < |ss[1..]| && ss[1..][i].id == r.value && ss[1..][i].phase != Idle;
      r
  }

  function WithPhase(m: Turns, k: nat, phase: Phase): Turns
    requires k < |m.sessions|
  {
    m.(sessions := m.sessions[k := m.sessions[k].(phase := phase)])
  }

  function Without(ss: seq<Session>, id: Id): seq<Session> { Keep(ss, (s: Session) => s.id != id) }

  /** `#startShow` */
  function StartShow(setup: Setup, m: Turns, ts: int): Turns
  {
    var ad := setup.ads(m.drawn);
    var drawn := m.(drawn := m.drawn + 1);
    if ad.None? || m.active.None? then drawn.(show := None)
    else drawn.(show := Some(Show(ad.value, ts, m.active.value, ts)), shows := m.shows + 1)
  }

  /** `#closeShow`: only time between ticks counts, and a show too short to count is still recorded. */
  function CloseShow(m: Turns, ts: int, env: Env): Turns
  {
    if m.show.None? then m
    else
      var s := m.show.value;
      var duration := Max(0, s.lastSeenAt - s.startedAt);
      var c := Completed(|m.emitted|, s.ad, s.session, duration, ts, duration < env.minImpressionMs);
      m.(show := None, completed := m.completed + [c], emitted := m.emitted + [c],
         spans := m.spans + [Span(s.session, s.startedAt, s.lastSeenAt)])
  }

  predicate Expires(setup: Setup, st: Session, ts: int)
  {
    || (st.phase == Cooldown && ts >= st.cooldownUntil)
    || (st.phase == Showing && ts - st.activeAt >= setup.maxQuietMs)
  }

  /** One round of the `#expireCooldowns` loop, with the hand-over of the mutex. */
  function ExpireOne(setup: Setup, m: Turns, k: nat, ts: int, env: Env): (r: Turns)
    requires k < |m.sessions|
    ensures |r.sessions| == |m.sessions|
  {
    var st := m.sessions[k];
    if !Expires(setup, st, ts) then m
    else
      var idle := WithPhase(m, k, Idle);
      if m.active == Some(st.id) then
        var closed := CloseShow(idle, ts, env);
        closed.(active := NextHolder(closed.sessions))
      else idle
  }

  function ExpireUpTo(setup: Setup, m: Turns, n: nat, ts: int, env: Env): (r: Turns)
    requires n <= |m.sessions|
    ensures |r.sessions| == |m.sessions|
  {
    if n == 0 then m else ExpireOne(setup, ExpireUpTo(setup, m, n - 1, ts, env), n - 1, ts, env)
  }

  function Expire(setup: Setup, m: Turns, ts: int, env: Env): Turns
  {
    ExpireUpTo(setup, m, |m.sessions|, ts, env)
  }

  /* ---------- events ---------- */

  function OnTurnStart(setup: Setup, m: Turns, id: Id, ts: int): Turns
  {
    var st := Session(id, Showing, 0, ts, ts);
    var k := IndexOf(m.sessions, id);
    var m1 := m.(sessions := if k < 0 then m.sessions + [st] else m.sessions[k := st]);
    if m.active.None? || m.active == Some(id) then
      var m2 := m1.(active := Some(id));
      if m2.show.None? then StartShow(setup, m2, ts) else m2
    else m1
  }

  function OnActivity(m: Turns, id: Id, ts: int): Turns
  {
    var k := IndexOf(m.sessions, id);
    if k < 0 || m.sessions[k].phase != Showing then m
    else m.(sessions := m.sessions[k := m.sessions[k].(activeAt := ts)])
  }

  function OnTurnEnd(m: Turns, id: Id, ts: int, env: Env): Turns
  {
    var k := IndexOf(m.sessions, id);
    if k < 0 || m.sessions[k].phase != Showing then m
    else m.(sessions := m.sessions[k := m.sessions[k].(phase := Cooldown, cooldownUntil := ts + env.idleGraceMs)])
  }

  function OnSessionEnd(m: Turns, id: Id, ts: int, env: Env): Turns
  {
    var m1 := m.(sessions := Without(m.sessions, id));
    if m.active == Some(id) then
      var m2 := CloseShow(m1, ts, env);
      m2.(active := NextHolder(m2.sessions))
    else m1
  }

  /** The reason nothing may be shown at all, if any. */
  function Blocked(env: Env): Option<HideReason>
  {
    if env.paused then Some(Paused)
    else if !env.authenticated then Some(NotSignedIn)
    else if !env.renderEnabled then Some(RenderOff)
    else if !env.statusline then Some(SurfaceOff)
    else None
  }

  /** A holder that stopped ticking gives way to the session that ticks. */
  function TakeOver(m: Turns, id: Id, ts: int, env: Env): Turns
  {
    if m.active.None? || m.active == Some(id) then m
    else
      var k := IndexOf(m.sessions, m.active.value);
      if k < 0 || ts - m.sessions[k].lastTickAt > STALE_MUTEX_MS then
        var closed := CloseShow(m, ts, env);
        closed.(sessions := Without(closed.sessions, m.active.value), active := Some(id))
      else m
  }

  /** The holder's tick: opens, extends or rotates its show. */
  function Count(setup: Setup, m: Turns, phase: Phase, ts: int, env: Env): (Turns, Decision)
  {
    var m1 := if m.show.None? then StartShow(setup, m, ts) else m;
    if m1.show.None? then (m1, Hidden(phase, NoAd))
    else
      var m2 := m1.(show := Some(m1.show.value.(lastSeenAt := ts)));
      if ts - m2.show.value.startedAt >= env.rotateMs then
        var m3 := StartShow(setup, CloseShow(m2, ts, env), ts);
        if m3.show.None? then (m3, Hidden(phase, NoAd)) else (m3, Shown(m3.show.value.ad, phase, true))
      else (m2, Shown(m2.show.value.ad, phase, true))
  }

  /** A tick of a session that does not count: it sees the counting session's ad, or one of its own. */
  function Watch(setup: Setup, m: Turns, phase: Phase): (Turns, Decision)
  {
    if m.show.Some? then (m, Shown(m.show.value.ad, phase, false))
    else
      var ad := setup.ads(m.drawn);
      (m.(drawn := m.drawn + 1), if ad.None? then Hidden(phase, NoAd) else Shown(ad.value, phase, false))
  }

  /** The tick of a session that is in a turn. */
  function Judge(setup: Setup, m: Turns, k: nat, ts: int, env: Env): (Turns, Decision)
    requires k < |m.sessions|
  {
    var st := m.sessions[k];
    var m2 := TakeOver(m.(sessions := m.sessions[k := st.(lastTickAt := ts)]), st.id, ts, env);
    if m2.active == Some(st.id) then Count(setup, m2, st.phase, ts, env) else Watch(setup, m2, st.phase)
  }

  function OnTick(setup: Setup, m: Turns, id: Id, ts: int, env: Env): (Turns, Decision)
  {
    var m1 := Expire(setup, m, ts, env);
    if Blocked(env).Some? then (CloseShow(m1, ts, env), Hidden(Idle, Blocked(env).value))
    else
      var k := IndexOf(m1.sessions, id);
      if k < 0 || m1.sessions[k].phase == Idle then (m1, Hidden(Idle, NoTurn)) else Judge(setup, m1, k, ts, env)
  }

  datatype Event =
    | TurnStart(id: Id)
    | Activity(id: Id)
    | TurnEnd(id: Id)
    | SessionEnd(id: Id)
    | Tick(id: Id)
    | Drain

  /** An event, when it happens, and what the surroundings answer then. */
  datatype Timed = Timed(ts: int, env: Env, event: Event)

  function Step(setup: Setup, m: Turns, e: Timed): Turns
  {
    match e.event
    case TurnStart(id) => OnTurnStart(setup, m, id, e.ts)
    case Activity(id) => OnActivity(m, id, e.ts)
    case TurnEnd(id) => OnTurnEnd(m, id, e.ts, e.env)
    case SessionEnd(id) => OnSessionEnd(m, id, e.ts, e.env)
    case Tick(id) => OnTick(setup, m, id, e.ts, e.env).0
    case Drain => m.(completed := [])
  }

  function Run(setup: Setup, events: seq<Timed>): Turns
  {
    if |events| == 0 then Start() else Step(setup, Run(setup, events[..|events| - 1]), events[|events| - 1])
  }

  /** Time never runs backwards. */
  ghost predicate InOrder(events: seq<Timed>) { forall i, k :: 0 <= i < k < |events| ==> events[i].ts <= events[k].ts }
}
