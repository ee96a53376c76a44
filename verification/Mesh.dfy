/** The running mesh, one Redis command a step. A pipeline is not a transaction, so
    commands of different workers, of the ticker and of a booting bridge interleave
    freely. An event names who moves, and whatever the environment decides for them. */
module Mesh {
  import opened Events
  import opened Keys
  import opened Redis
  import opened Store
  import opened Bridge

  datatype Config = Config(store: StoreConfig, host: string, sweepTTL: Time)

  function TTL(cfg: Config): Time {
    Seconds(cfg.store.sessionTTL)
  }

  /** A worker: at rest, about to ask whether the Hash of an activity exists, or
      part of the way through the commands of its message. */
  datatype Worker =
    | Idle
    | Checking(msg: Msg)
    | Running(msg: Msg, todo: seq<Cmd>)

  /** The ticker, from listing the active set through touching live sessions to the
      sweep. Sessions are visited in any order. */
  datatype Ticker =
    | Resting
    | Listing(pending: set<string>, views: map<string, SessionView>)
    | Probing(nowMs: Time, views: map<string, SessionView>)
    | Touching(nowMs: Time, views: map<string, SessionView>, sid: string, todo: seq<Cmd>)
    | Sweeping(cutoff: Time)

  /** A bridge that boots: it lists the active set, then scores what it listed. */
  datatype Boot = Settled | Rehydrating(members: set<string>, nowMs: Time)

  /** `log` records every push of a ring, newest first; `since` counts the pushes
      since the ring was last absent. Neither is read by any step. */
  datatype Sys = Sys(
    db: Db, workers: seq<Worker>, ticker: Ticker, boot: Boot,
    log: map<string, seq<Activity>>, since: map<string, nat>)

  datatype Event =
    | Clock(t: Time)
    | Take(i: nat, msg: Msg, clock: Time)
    | Work(i: nat)
    | TickList(ok: bool)
    | TickGet(sid: string, ok: bool)
    | TickNow(nowMs: Time)
    | TickProbe(sid: string, alive: bool)
    | TickTouch
    | TickCut(clock: Time)
    | TickSweep(ok: bool)
    | BootList(nowMs: Time)
    | BootTouch

  function LogAt(s: Sys, key: string): seq<Activity> {
    if key in s.log then s.log[key] else []
  }

  function SinceAt(s: Sys, key: string): nat {
    if key in s.since then s.since[key] else 0
  }

  /** One command reaches the data base. */
  function Perform(s: Sys, c: Cmd): Sys {
    var s' := s.(db := Apply(s.db, c));
    if c.LPush? then
      s'.(log := s.log[c.key := [c.item] + LogAt(s, c.key)],
          since := s.since[c.key := 1 + if c.key in s.db.lists then SinceAt(s, c.key) else 0])
    else s'
  }

  function Begin(cfg: Config, m: Msg, clock: Time): Worker {
    match m
    case OpenMsg(ev) => Running(m, OpenPipeline(cfg.store, ev, OpenStamp(ev, clock)))
    case ActivityMsg(_, _) => Checking(m)
    case CloseMsg(sid) => Running(m, ClosePipeline(sid))
  }

  function ActivityProgram(cfg: Config, m: Msg, hashExists: bool): seq<Cmd>
    requires m.ActivityMsg?
  {
    PushPipeline(cfg.store, m.activity, hashExists)
    + TouchOrCreatePipeline(cfg.store, m.sid, m.activity.ts, m.activity.cwd)
  }

  function Rest(w: Worker): Worker
    requires w.Running? && w.todo != []
  {
    if |w.todo| == 1 then Idle else Running(w.msg, w.todo[1..])
  }

  predicate Enabled(cfg: Config, s: Sys, e: Event) {
    match e
    case Clock(t) => s.db.now <= t
    case Take(i, m, _) => i < |s.workers| && s.workers[i].Idle? && WellAddressed(m)
    case Work(i) =>
      i < |s.workers| &&
      ((s.workers[i].Checking? && s.workers[i].msg.ActivityMsg?) || (s.workers[i].Running? && s.workers[i].todo != []))
    case TickList(_) => s.ticker.Resting? && cfg.host != ""
    case TickGet(sid, _) => s.ticker.Listing? && sid in s.ticker.pending
    case TickNow(_) => s.ticker.Listing? && s.ticker.pending == {}
    case TickProbe(sid, _) => s.ticker.Probing? && sid in s.ticker.views
    case TickTouch => s.ticker.Touching? && s.ticker.todo != []
    case TickCut(_) => (s.ticker.Probing? && s.ticker.views == map[]) || (s.ticker.Resting? && cfg.host == "")
    case TickSweep(_) => s.ticker.Sweeping?
    case BootList(_) => s.boot.Settled?
    case BootTouch => s.boot.Rehydrating?
  }

  function WorkStep(cfg: Config, s: Sys, i: nat): Sys
    requires Enabled(cfg, s, Work(i))
  {
    var w := s.workers[i];
    if w.Checking? then
      s.(workers := s.workers[i := Running(w.msg,
        ActivityProgram(cfg, w.msg, SessionKey(w.msg.activity.sid) in s.db.hashes))])
    else
      Perform(s, w.todo[0]).(workers := s.workers[i := Rest(w)])
  }

  function TouchStep(cfg: Config, s: Sys): Sys
    requires Enabled(cfg, s, TickTouch)
  {
    var k := s.ticker;
    Perform(s, k.todo[0]).(ticker := if |k.todo| == 1 then Probing(k.nowMs, k.views) else k.(todo := k.todo[1..]))
  }

  function Next(cfg: Config, s: Sys, e: Event): Sys {
    if !Enabled(cfg, s, e) then s else
    match e
    case Clock(t) => s.(db := Advance(s.db, t))
    case Take(i, m, clock) => s.(workers := s.workers[i := Begin(cfg, m, clock)])
    case Work(i) => WorkStep(cfg, s, i)
    case TickList(ok) => s.(ticker := if ok then Listing(s.db.zset.Keys, map[]) else Probing(s.db.now, map[]))
    case TickGet(sid, ok) =>
      var h := FieldsAt(s.db, SessionKey(sid));
      s.(ticker := Listing(s.ticker.pending - {sid},
                           if ok && h != map[] then s.ticker.views[sid := ViewFromHash(sid, h)] else s.ticker.views))
    case TickNow(nowMs) => s.(ticker := Probing(nowMs, s.ticker.views))
    case TickProbe(sid, alive) =>
      var v, rest := s.ticker.views[sid], s.ticker.views - {sid};
      s.(ticker := if v.host == cfg.host && alive
                   then Touching(s.ticker.nowMs, rest, sid, TouchPipeline(cfg.store, sid, s.ticker.nowMs))
                   else Probing(s.ticker.nowMs, rest))
    case TickTouch => TouchStep(cfg, s)
    case TickCut(clock) => s.(ticker := Sweeping(clock - cfg.sweepTTL))
    case TickSweep(ok) => (if ok then Perform(s, ZRemRange(s.ticker.cutoff)) else s).(ticker := Resting)
    case BootList(nowMs) => s.(boot := Rehydrating(s.db.zset.Keys, nowMs))
    case BootTouch => Perform(s, ZAddXX(s.boot.members, s.boot.nowMs)).(boot := Settled)
  }

  ghost predicate Valid(cfg: Config, s: Sys, es: seq<Event>)
    decreases |es|
  {
    es == [] || (Enabled(cfg, s, es[0]) && Valid(cfg, Next(cfg, s, es[0]), es[1..]))
  }

  function Final(cfg: Config, s: Sys, es: seq<Event>): Sys
    decreases |es|
  {
    if es == [] then s else Final(cfg, Next(cfg, s, es[0]), es[1..])
  }

  // ---- what a worker may still do ----

  /** A command a message about `sid` can lead to. */
  predicate Owned(c: Cmd, sid: string) {
    match c
    case HSet(key, _) => key == SessionKey(sid)
    case HSetNX(key, _, _) => key == SessionKey(sid)
    case ExpireHash(key, _) => key == SessionKey(sid)
    case ZAdd(m, _) => m == sid
    case ZRem(m) => m == sid
    case ZAddXX(_, _) => false
    case ZRemRange(_) => false
    case LPush(key, item) => item.sid == sid && key in {ActivityKey(sid), ACTIVITY_GLOBAL_KEY}
    case LTrim(key, _) => key in {ActivityKey(sid), ACTIVITY_GLOBAL_KEY}
    case ExpireList(key, _) => key in {ActivityKey(sid), ACTIVITY_GLOBAL_KEY}
  }

  ghost predicate AllOwned(todo: seq<Cmd>, sid: string) {
    forall c :: c in todo ==> Owned(c, sid)
  }

  ghost predicate WorkerOk(w: Worker) {
    match w
    case Idle => true
    case Checking(m) => m.ActivityMsg? && WellAddressed(m)
    case Running(m, todo) =>
      && WellAddressed(m) && AllOwned(todo, MsgSid(m)) && todo != []
      && (m.CloseMsg? ==> forall c :: c in todo ==> !c.ZAdd?)
  }

  ghost predicate TickerOk(k: Ticker) {
    k.Touching? ==> AllOwned(k.todo, k.sid) && k.todo != []
  }

  ghost predicate SysOk(s: Sys) {
    (forall w :: w in s.workers ==> WorkerOk(w)) && TickerOk(s.ticker)
  }

  lemma BeginOk(cfg: Config, m: Msg, clock: Time)
    requires WellAddressed(m)
    ensures WorkerOk(Begin(cfg, m, clock))
  {
  }

  lemma RingOwned(key: string, ev: Activity, size: int, ttl: int, sid: string)
    requires ev.sid == sid && key in {ActivityKey(sid), ACTIVITY_GLOBAL_KEY}
    ensures AllOwned(RingPipeline(key, ev, size, ttl), sid)
  {
  }

  lemma ActivityProgramOwned(cfg: Config, m: Msg, hashExists: bool)
    requires m.ActivityMsg? && WellAddressed(m)
    ensures AllOwned(ActivityProgram(cfg, m, hashExists), m.sid)
  {
    RingOwned(ActivityKey(m.sid), m.activity, cfg.store.activityRingSize, cfg.store.activityPerSessTTL, m.sid);
    RingOwned(ACTIVITY_GLOBAL_KEY, m.activity, cfg.store.globalRingSize, cfg.store.activityGlobalTTL, m.sid);
  }

  lemma SysOkStep(cfg: Config, s: Sys, e: Event)
    requires SysOk(s) && Enabled(cfg, s, e)
    ensures SysOk(Next(cfg, s, e))
  {
    match e
    case Take(i, m, clock) =>
      BeginOk(cfg, m, clock);
    case Work(i) =>
      var w := s.workers[i];
      assert w in s.workers;
      if w.Checking? {
        ActivityProgramOwned(cfg, w.msg, SessionKey(w.msg.activity.sid) in s.db.hashes);
      }
    case _ =>
  }
}
