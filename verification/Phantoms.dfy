/** Members without a Hash when pipelines interleave command by command: the rules of
    conduct under which no reachable state has one. */
module Phantoms {
  import opened Events
  import opened Wrappers
  import opened Keys
  import opened Redis
  import opened Store
  import opened Bridge
  import opened Mesh
  import opened NonInterference
  import Atomic

  /** What an observer of a session notes down: by when the next sweep must be done, how many
      boots may still come, and when a registering pipeline last renewed the session's Hash. */
  datatype Journal = Journal(plan: Atomic.Plan, renewed: Time)

  /** The command a step sends for the session, other than for a close. */
  function Sent(s: Sys, e: Event, sid: string): Option<Cmd> {
    match e
    case Work(i) =>
      if i < |s.workers| && Holds(s.workers[i], sid) && s.workers[i].Running? && !s.workers[i].msg.CloseMsg?
         && s.workers[i].todo != []
      then Some(s.workers[i].todo[0]) else None
    case TickTouch =>
      if s.ticker.Touching? && s.ticker.sid == sid && s.ticker.todo != [] then Some(s.ticker.todo[0]) else None
    case _ => None
  }

  predicate Renews(s: Sys, e: Event, sid: string) {
    Sent(s, e, sid).Some? && Sent(s, e, sid).value.ExpireHash?
  }

  predicate Scores(s: Sys, e: Event, sid: string) {
    Sent(s, e, sid).Some? && Sent(s, e, sid).value.ZAdd?
  }

  function Noted(tm: Atomic.Timing, j: Journal, s: Sys, e: Event, sid: string): Journal {
    if e.TickSweep? && e.ok && s.ticker.Sweeping? then
      j.(plan := j.plan.(deadline := s.ticker.cutoff + Atomic.Window(tm)))
    else if e.BootTouch? && j.plan.boots > 0 then j.(plan := j.plan.(boots := j.plan.boots - 1))
    else if Renews(s, e, sid) then j.(renewed := s.db.now)
    else j
  }

  // ---- the rules ----

  datatype Rule =
    | CloseAlone   // a close of the session overlaps no other worker or touch of it
    | HashFound    // its Hash does not expire between a pipeline's first write and its EXPIRE
    | ScorePrompt  // the ZADD comes while the Hash is sure to outlive the next sweeps
    | Pace         // sweeps keep the pace, not too many bridges boot, no timestamp is too far ahead

  predicate Closing(w: Worker, sid: string) {
    Holds(w, sid) && w.msg.CloseMsg?
  }

  ghost predicate CloseApart(workers: seq<Worker>, k: Ticker, sid: string) {
    forall i :: 0 <= i < |workers| && Closing(workers[i], sid) ==>
      (k.Touching? ==> k.sid != sid) && forall j :: 0 <= j < |workers| && j != i ==> !Holds(workers[j], sid)
  }

  function MsgScore(m: Msg, clock: Time): Time
    requires !m.CloseMsg?
  {
    match m case OpenMsg(ev) => OpenStamp(ev, clock) case ActivityMsg(_, ev) => ev.ts
  }

  predicate Paced(tm: Atomic.Timing, j: Journal, s: Sys, e: Event, sid: string) {
    match e
    case Clock(t) => t <= j.plan.deadline
    case Take(_, m, clock) => MsgSid(m) == sid && !m.CloseMsg? ==> MsgScore(m, clock) <= s.db.now + tm.ahead
    case TickNow(nowMs) => nowMs <= s.db.now + tm.ahead
    case TickSweep(ok) =>
      ok && s.ticker.Sweeping? ==> s.db.now - tm.tickGap <= s.ticker.cutoff + tm.sweepTTL <= s.db.now
    case BootTouch => j.plan.boots > 0 && (s.boot.Rehydrating? ==> s.boot.nowMs <= s.db.now)
    case _ => true
  }

  /** The time outlives the next sweep's deadline, with a window to spare for each boot. */
  predicate Lasts(tm: Atomic.Timing, p: Atomic.Plan, expiry: Time) {
    p.deadline < expiry && p.deadline + Atomic.Times(Atomic.Window(tm), p.boots) <= expiry
  }

  /** A ZADD is in time within the sweep window after the EXPIRE. It still is as long as the Hash
      lasts, or when the Hash is one that another pipeline has made anew and not yet given an expiry. */
  predicate InTime(tm: Atomic.Timing, cfg: Config, j: Journal, db: Db, sid: string) {
    || db.now < j.renewed + tm.sweepTTL
    || Lasts(tm, j.plan, j.renewed + TTL(cfg))
    || (SessionKey(sid) in db.hashes && db.hashes[SessionKey(sid)].expiry.None?)
  }

  ghost predicate Keeps(rule: Rule, tm: Atomic.Timing, cfg: Config, j: Journal, s: Sys, e: Event, sid: string) {
    match rule
    case CloseAlone => CloseApart(Next(cfg, s, e).workers, Next(cfg, s, e).ticker, sid)
    case HashFound => Renews(s, e, sid) ==> SessionKey(sid) in s.db.hashes
    case ScorePrompt => Scores(s, e, sid) ==> InTime(tm, cfg, j, s.db, sid)
    case Pace => Paced(tm, j, s, e, sid)
  }

  ghost predicate Follows(rules: set<Rule>, tm: Atomic.Timing, cfg: Config, j: Journal, s: Sys, es: seq<Event>,
                          sid: string)
    decreases |es|
  {
    es == [] ||
    ((forall rule :: rule in rules ==> Keeps(rule, tm, cfg, j, s, es[0], sid)) &&
     Follows(rules, tm, cfg, Noted(tm, j, s, es[0], sid), Next(cfg, s, es[0]), es[1..], sid))
  }

  const ALL_RULES := {CloseAlone, HashFound, ScorePrompt, Pace}

  /** The settings leave no gap. */
  predicate Sound(tm: Atomic.Timing, cfg: Config) {
    Atomic.Sane(tm) && Atomic.Outlives(tm, TTL(cfg))
  }

  // ---- the session's data ----

  /** Unless its time has run out, the Hash is as the last renewal left it; afterwards it can only
      be one made anew. */
  predicate Fresh(cfg: Config, db: Db, j: Journal, sid: string) {
    var key := SessionKey(sid);
    && (db.now < j.renewed + TTL(cfg) ==>
          key in db.hashes && db.hashes[key].expiry == Some(j.renewed + TTL(cfg)))
    && (key in db.hashes ==>
          db.hashes[key].expiry.None? || db.hashes[key].expiry == Some(j.renewed + TTL(cfg)))
  }

  predicate Covered(tm: Atomic.Timing, db: Db, j: Journal, sid: string) {
    sid in db.zset ==>
      var key, w := SessionKey(sid), Atomic.Window(tm);
      && key in db.hashes
      && (db.hashes[key].expiry.Some? ==>
            && Lasts(tm, j.plan, db.hashes[key].expiry.value)
            && db.hashes[key].expiry.value >= db.zset[sid] + Atomic.Times(w, j.plan.boots + 1))
      && db.zset[sid] <= db.now + tm.ahead
  }

  predicate Data(tm: Atomic.Timing, cfg: Config, db: Db, j: Journal, sid: string) {
    && db.now <= j.plan.deadline <= db.now + tm.tickGap && j.renewed <= db.now && j.plan.boots <= tm.boots
    && (SessionKey(sid) in db.hashes ==> db.hashes[SessionKey(sid)].fields != map[])
    && (SessionKey(sid) in db.hashes ==> Unexpired(db.hashes[SessionKey(sid)].expiry, db.now))
    && Covered(tm, db, j, sid)
  }

  lemma DataClock(tm: Atomic.Timing, cfg: Config, db: Db, j: Journal, t: Time, sid: string)
    requires Sound(tm, cfg) && Data(tm, cfg, db, j, sid) && db.now <= t <= j.plan.deadline
    ensures Data(tm, cfg, Advance(db, t), j, sid)
    ensures Fresh(cfg, db, j, sid) ==> Fresh(cfg, Advance(db, t), j, sid)
  {
  }

  lemma DataSweep(tm: Atomic.Timing, cfg: Config, db: Db, j: Journal, cutoff: Time, sid: string)
    requires Sound(tm, cfg) && Data(tm, cfg, db, j, sid) && db.now - tm.tickGap <= cutoff + tm.sweepTTL <= db.now
    ensures var j' := j.(plan := j.plan.(deadline := cutoff + Atomic.Window(tm)));
            Data(tm, cfg, Apply(db, ZRemRange(cutoff)), j', sid)
  {
  }

  /** A boot uses up one of the windows to spare. */
  lemma DataBoot(tm: Atomic.Timing, cfg: Config, db: Db, j: Journal, members: set<string>, nowMs: Time, sid: string)
    requires Sound(tm, cfg) && Data(tm, cfg, db, j, sid) && nowMs <= db.now && j.plan.boots > 0
    ensures var d, j' := Apply(db, ZAddXX(members, nowMs)), j.(plan := j.plan.(boots := j.plan.boots - 1));
            && Data(tm, cfg, d, j', sid) && (sid in d.zset ==> sid in db.zset)
            && (Fresh(cfg, db, j, sid) ==> Fresh(cfg, d, j', sid))
  {
    var w := Atomic.Window(tm);
    assert Atomic.Times(w, j.plan.boots) == w + Atomic.Times(w, j.plan.boots - 1);
    assert Atomic.Times(w, j.plan.boots + 1) == w + Atomic.Times(w, j.plan.boots);
  }

  /** A command that is none of the session's own leaves its data alone. */
  lemma DataAside(tm: Atomic.Timing, cfg: Config, db: Db, j: Journal, c: Cmd, other: string, sid: string)
    requires Data(tm, cfg, db, j, sid) && Owned(c, other)
    requires other != sid || c.LPush? || c.LTrim? || c.ExpireList?
    ensures Data(tm, cfg, Apply(db, c), j, sid)
    ensures Fresh(cfg, db, j, sid) ==> Fresh(cfg, Apply(db, c), j, sid)
    ensures sid in Apply(db, c).zset <==> sid in db.zset
  {
    KeysSeparate(other, sid);
  }

  lemma DataWrite(tm: Atomic.Timing, cfg: Config, db: Db, j: Journal, c: Cmd, sid: string)
    requires Data(tm, cfg, db, j, sid) && Owned(c, sid)
    requires c.HSetNX? || (c.HSet? && c.fields != map[])
    ensures Data(tm, cfg, Apply(db, c), j, sid)
    ensures Fresh(cfg, db, j, sid) ==> Fresh(cfg, Apply(db, c), j, sid)
  {
    if c.HSet? {
      var f :| f in c.fields;
      assert f in FieldsAt(Apply(db, c), SessionKey(sid));
    } else {
      assert c.field in FieldsAt(Apply(db, c), SessionKey(sid));
    }
  }

  /** The time to live of a Hash covers a score given now. */
  lemma RenewalCovers(tm: Atomic.Timing, cfg: Config, j: Journal)
    requires Sound(tm, cfg) && j.plan.boots <= tm.boots
    ensures Atomic.Times(Atomic.Window(tm), j.plan.boots + 1) + tm.ahead <= TTL(cfg)
    ensures tm.sweepTTL + tm.tickGap + Atomic.Times(Atomic.Window(tm), j.plan.boots) + tm.ahead <= TTL(cfg)
  {
    Atomic.TimesMono(Atomic.Window(tm), j.plan.boots + 1, tm.boots + 1);
  }

  lemma DataRenew(tm: Atomic.Timing, cfg: Config, db: Db, j: Journal, sid: string)
    requires Sound(tm, cfg) && Data(tm, cfg, db, j, sid) && SessionKey(sid) in db.hashes
    ensures var d, j' := Apply(db, ExpireHash(SessionKey(sid), TTL(cfg))), j.(renewed := db.now);
            Data(tm, cfg, d, j', sid) && Fresh(cfg, d, j', sid)
  {
    RenewalCovers(tm, cfg, j);
  }

  lemma DataScore(tm: Atomic.Timing, cfg: Config, db: Db, j: Journal, score: Time, sid: string)
    requires Sound(tm, cfg) && Data(tm, cfg, db, j, sid) && Fresh(cfg, db, j, sid)
    requires InTime(tm, cfg, j, db, sid) && score <= j.renewed + tm.ahead
    ensures Data(tm, cfg, Apply(db, ZAdd(sid, score)), j, sid)
    ensures Fresh(cfg, Apply(db, ZAdd(sid, score)), j, sid)
  {
    RenewalCovers(tm, cfg, j);
  }

  lemma DataClose(tm: Atomic.Timing, cfg: Config, db: Db, j: Journal, c: Cmd, sid: string)
    requires Data(tm, cfg, db, j, sid)
    requires c == ZRem(sid) || (c == ExpireHash(SessionKey(sid), Seconds(GRACE_SECONDS)) && sid !in db.zset)
    ensures Data(tm, cfg, Apply(db, c), j, sid) && sid !in Apply(db, c).zset
  {
  }

  // ---- the commands still to come ----

  /** In a registering pipeline every EXPIRE of the Hash is followed at once by the ZADD. */
  predicate Paired(cfg: Config, todo: seq<Cmd>, bound: Time, sid: string)
    decreases |todo|
  {
    if todo == [] then true
    else if todo[0].ExpireHash? then
      && todo[0].ttl == TTL(cfg) && |todo| >= 2 && todo[1].ZAdd? && todo[1].score <= bound
      && Paired(cfg, todo[2..], bound, sid)
    else
      && !todo[0].ZAdd? && !todo[0].ZRem? && (todo[0].HSet? ==> todo[0].fields != map[])
      && Paired(cfg, todo[1..], bound, sid)
  }

  /** A pipeline of the session, wherever it has got to. */
  predicate Progress(tm: Atomic.Timing, cfg: Config, db: Db, j: Journal, todo: seq<Cmd>, sid: string) {
    if todo != [] && todo[0].ZAdd? then
      && todo[0].score <= j.renewed + tm.ahead && Fresh(cfg, db, j, sid)
      && Paired(cfg, todo[1..], db.now + tm.ahead, sid)
    else Paired(cfg, todo, db.now + tm.ahead, sid)
  }

  lemma {:induction false} PairedLater(cfg: Config, todo: seq<Cmd>, bound: Time, later: Time, sid: string)
    requires Paired(cfg, todo, bound, sid) && bound <= later
    ensures Paired(cfg, todo, later, sid)
    decreases |todo|
  {
    if todo != [] {
      PairedLater(cfg, if todo[0].ExpireHash? then todo[2..] else todo[1..], bound, later, sid);
    }
  }

  lemma {:induction false} PairedConcat(cfg: Config, a: seq<Cmd>, b: seq<Cmd>, bound: Time, sid: string)
    requires Paired(cfg, a, bound, sid) && Paired(cfg, b, bound, sid)
    ensures Paired(cfg, a + b, bound, sid)
    decreases |a|
  {
    if a == [] {
      assert a + b == b;
    } else if a[0].ExpireHash? {
      PairedConcat(cfg, a[2..], b, bound, sid);
      assert (a + b)[0] == a[0] && (a + b)[1] == a[1];
      assert (a + b)[2..] == a[2..] + b;
    } else {
      PairedConcat(cfg, a[1..], b, bound, sid);
      assert (a + b)[0] == a[0];
      assert (a + b)[1..] == a[1..] + b;
    }
  }

  lemma {:induction false} WritesPaired(cfg: Config, todo: seq<Cmd>, bound: Time, sid: string)
    requires forall c :: c in todo ==> !c.ExpireHash? && !c.ZAdd? && !c.ZRem? && (c.HSet? ==> c.fields != map[])
    ensures Paired(cfg, todo, bound, sid)
    decreases |todo|
  {
    if todo != [] {
      WritesPaired(cfg, todo[1..], bound, sid);
    }
  }

  lemma RegisterPaired(cfg: Config, x: string, fields: map<string, Val>, score: Time, bound: Time, sid: string)
    requires fields != map[] && score <= bound
    ensures Paired(cfg, RegisterPipeline(x, fields, TTL(cfg), score), bound, sid)
  {
    var p := RegisterPipeline(x, fields, TTL(cfg), score);
    assert p[1..][2..] == [];
    assert Paired(cfg, p[1..], bound, sid);
  }

  lemma PushPaired(cfg: Config, ev: Activity, hashExists: bool, bound: Time, sid: string)
    requires ev.ts <= bound
    ensures Paired(cfg, PushPipeline(cfg.store, ev, hashExists), bound, sid)
  {
    var own, tail := OwnRingPipeline(cfg.store, ev, hashExists), GlobalRingPipeline(cfg.store, ev);
    var mid := RegisterPipeline(ev.sid, PushFields(ev, hashExists), TTL(cfg), ev.ts);
    PushParts(cfg.store, ev, hashExists);
    assert "last_seen" in PushFields(ev, hashExists);
    WritesPaired(cfg, own, bound, sid);
    WritesPaired(cfg, tail, bound, sid);
    RegisterPaired(cfg, ev.sid, PushFields(ev, hashExists), ev.ts, bound, sid);
    PairedConcat(cfg, mid, tail, bound, sid);
    PairedConcat(cfg, own, mid + tail, bound, sid);
  }

  lemma SeedingPaired(cfg: Config, x: string, ts: Time, cwd: string, bound: Time, sid: string)
    requires ts <= bound
    ensures Paired(cfg, TouchOrCreatePipeline(cfg.store, x, ts, cwd), bound, sid)
  {
    var key, seen := SessionKey(x), map["last_seen" := Stamp(ts)];
    var seeds := [HSetNX(key, "session_id", Text(x)), HSetNX(key, "cwd", Text(cwd)),
        HSetNX(key, "opened_at", Stamp(ts))];
    assert TouchOrCreatePipeline(cfg.store, x, ts, cwd) == seeds + RegisterPipeline(x, seen, TTL(cfg), ts);
    assert "last_seen" in seen;
    WritesPaired(cfg, seeds, bound, sid);
    RegisterPaired(cfg, x, seen, ts, bound, sid);
    PairedConcat(cfg, seeds, RegisterPipeline(x, seen, TTL(cfg), ts), bound, sid);
  }

  lemma ProgramPaired(cfg: Config, m: Msg, hashExists: bool, bound: Time, sid: string)
    requires m.ActivityMsg? && m.activity.ts <= bound
    ensures Paired(cfg, ActivityProgram(cfg, m, hashExists), bound, sid)
  {
    PushPaired(cfg, m.activity, hashExists, bound, sid);
    SeedingPaired(cfg, m.sid, m.activity.ts, m.activity.cwd, bound, sid);
    PairedConcat(cfg, PushPipeline(cfg.store, m.activity, hashExists),
                 TouchOrCreatePipeline(cfg.store, m.sid, m.activity.ts, m.activity.cwd), bound, sid);
  }

  lemma OpenPaired(cfg: Config, ev: SessionOpen, stamp: Time, bound: Time, sid: string)
    requires stamp <= bound
    ensures Paired(cfg, OpenPipeline(cfg.store, ev, stamp), bound, sid)
  {
    assert "last_seen" in OpenFields(ev, stamp);
    RegisterPaired(cfg, ev.sid, OpenFields(ev, stamp), stamp, bound, sid);
  }

  lemma TouchPaired(cfg: Config, x: string, nowMs: Time, bound: Time, sid: string)
    requires nowMs <= bound
    ensures Paired(cfg, TouchPipeline(cfg.store, x, nowMs), bound, sid)
  {
    assert "last_seen" in map["last_seen" := Stamp(nowMs)];
    RegisterPaired(cfg, x, map["last_seen" := Stamp(nowMs)], nowMs, bound, sid);
  }

  /** From one state to a later one, a renewed Hash stays renewed. */
  predicate Onward(cfg: Config, db: Db, j: Journal, d: Db, j': Journal, sid: string) {
    && db.now <= d.now && j.renewed <= j'.renewed
    && (Fresh(cfg, db, j, sid) ==> Fresh(cfg, d, j', sid))
  }

  lemma ProgressOnward(tm: Atomic.Timing, cfg: Config, db: Db, j: Journal, d: Db, j': Journal, todo: seq<Cmd>,
                       sid: string)
    requires Progress(tm, cfg, db, j, todo, sid) && Onward(cfg, db, j, d, j', sid)
    ensures Progress(tm, cfg, d, j', todo, sid)
  {
    PairedLater(cfg, if todo != [] && todo[0].ZAdd? then todo[1..] else todo, db.now + tm.ahead, d.now + tm.ahead, sid);
  }

  /** One command of a registering pipeline of the session. */
  lemma RegisterCommand(tm: Atomic.Timing, cfg: Config, db: Db, j: Journal, todo: seq<Cmd>, sid: string)
    requires Sound(tm, cfg) && Data(tm, cfg, db, j, sid)
    requires todo != [] && Progress(tm, cfg, db, j, todo, sid) && forall c :: c in todo ==> Owned(c, sid)
    requires todo[0].ExpireHash? ==> SessionKey(sid) in db.hashes
    requires todo[0].ZAdd? ==> InTime(tm, cfg, j, db, sid)
    ensures var d, j' := Apply(db, todo[0]), if todo[0].ExpireHash? then j.(renewed := db.now) else j;
            && Data(tm, cfg, d, j', sid) && Onward(cfg, db, j, d, j', sid)
            && Progress(tm, cfg, d, j', todo[1..], sid)
  {
    var c := todo[0];
    assert Owned(c, sid);
    if c.ZAdd? {
      DataScore(tm, cfg, db, j, c.score, sid);
    } else if c.ExpireHash? {
      DataRenew(tm, cfg, db, j, sid);
      assert todo[1..][0] == todo[1] && todo[1..][1..] == todo[2..];
    } else {
      if c.HSet? || c.HSetNX? {
        DataWrite(tm, cfg, db, j, c, sid);
      } else {
        DataAside(tm, cfg, db, j, c, sid, sid);
      }
      NowKept(db, c);
      PairedProgress(tm, cfg, Apply(db, c), j, todo[1..], sid);
    }
  }

  lemma NowKept(db: Db, c: Cmd)
    ensures Apply(db, c).now == db.now
  {
  }

  lemma PairedProgress(tm: Atomic.Timing, cfg: Config, db: Db, j: Journal, todo: seq<Cmd>, sid: string)
    requires Paired(cfg, todo, db.now + tm.ahead, sid)
    ensures Progress(tm, cfg, db, j, todo, sid)
  {
  }

  // ---- the whole system ----

  ghost predicate WorkerFits(tm: Atomic.Timing, cfg: Config, db: Db, j: Journal, w: Worker, sid: string) {
    Holds(w, sid) ==>
      match w
      case Idle => true
      case Checking(m) => m.ActivityMsg? && m.activity.ts <= db.now + tm.ahead
      case Running(m, todo) =>
        if m.CloseMsg? then todo == ClosePipeline(sid) || (todo == ClosePipeline(sid)[1..] && sid !in db.zset)
        else Progress(tm, cfg, db, j, todo, sid)
  }

  predicate TickerFits(tm: Atomic.Timing, cfg: Config, db: Db, j: Journal, k: Ticker, sid: string) {
    match k
    case Probing(nowMs, _) => nowMs <= db.now + tm.ahead
    case Touching(nowMs, _, x, todo) => nowMs <= db.now + tm.ahead && (x == sid ==> Progress(tm, cfg, db, j, todo, sid))
    case _ => true
  }

  ghost predicate Fits(tm: Atomic.Timing, cfg: Config, db: Db, j: Journal, workers: seq<Worker>, k: Ticker,
                       sid: string) {
    && (forall i :: 0 <= i < |workers| ==> WorkerFits(tm, cfg, db, j, workers[i], sid))
    && TickerFits(tm, cfg, db, j, k, sid)
  }

  ghost predicate Ok(tm: Atomic.Timing, cfg: Config, j: Journal, s: Sys, sid: string) {
    && Data(tm, cfg, s.db, j, sid)
    && Fits(tm, cfg, s.db, j, s.workers, s.ticker, sid)
    && CloseApart(s.workers, s.ticker, sid)
  }

  /** Everybody else's part of a step: what fits still fits, unless a close is half done and
      the step makes its session a member. */
  lemma WorkerOnward(tm: Atomic.Timing, cfg: Config, db: Db, j: Journal, d: Db, j': Journal, w: Worker, sid: string)
    requires WorkerFits(tm, cfg, db, j, w, sid) && Onward(cfg, db, j, d, j', sid)
    requires sid in d.zset && Closing(w, sid) ==> sid in db.zset
    ensures WorkerFits(tm, cfg, d, j', w, sid)
  {
    if Holds(w, sid) && w.Running? && !w.msg.CloseMsg? {
      ProgressOnward(tm, cfg, db, j, d, j', w.todo, sid);
    }
  }

  lemma TickerOnward(tm: Atomic.Timing, cfg: Config, db: Db, j: Journal, d: Db, j': Journal, k: Ticker, sid: string)
    requires TickerFits(tm, cfg, db, j, k, sid) && Onward(cfg, db, j, d, j', sid)
    ensures TickerFits(tm, cfg, d, j', k, sid)
  {
    if k.Touching? && k.sid == sid {
      ProgressOnward(tm, cfg, db, j, d, j', k.todo, sid);
    }
  }

  lemma FitsOnward(tm: Atomic.Timing, cfg: Config, db: Db, j: Journal, d: Db, j': Journal,
                   workers: seq<Worker>, k: Ticker, sid: string)
    requires Fits(tm, cfg, db, j, workers, k, sid) && Onward(cfg, db, j, d, j', sid)
    requires sid in d.zset ==> sid in db.zset
    ensures Fits(tm, cfg, d, j', workers, k, sid)
  {
    forall i | 0 <= i < |workers|
      ensures WorkerFits(tm, cfg, d, j', workers[i], sid)
    {
      WorkerOnward(tm, cfg, db, j, d, j', workers[i], sid);
    }
    TickerOnward(tm, cfg, db, j, d, j', k, sid);
  }

  /** Worker `i` moves on to `w`; the others stay where they are. */
  lemma FitsWorker(tm: Atomic.Timing, cfg: Config, db: Db, j: Journal, d: Db, j': Journal,
                   workers: seq<Worker>, k: Ticker, i: nat, w: Worker, sid: string)
    requires i < |workers| && Fits(tm, cfg, db, j, workers, k, sid) && Onward(cfg, db, j, d, j', sid)
    requires WorkerFits(tm, cfg, d, j', w, sid)
    requires sid in d.zset ==> sid in db.zset || forall l :: 0 <= l < |workers| && l != i ==> !Closing(workers[l], sid)
    ensures Fits(tm, cfg, d, j', workers[i := w], k, sid)
  {
    var after := workers[i := w];
    forall l | 0 <= l < |after|
      ensures WorkerFits(tm, cfg, d, j', after[l], sid)
    {
      if l != i {
        WorkerOnward(tm, cfg, db, j, d, j', workers[l], sid);
      }
    }
    TickerOnward(tm, cfg, db, j, d, j', k, sid);
  }

  lemma NoCloseBeside(s: Sys, i: nat, sid: string)
    requires i < |s.workers| && CloseApart(s.workers, s.ticker, sid) && Holds(s.workers[i], sid)
    ensures forall l :: 0 <= l < |s.workers| && l != i ==> !Closing(s.workers[l], sid)
  {
  }

  lemma CheckOk(tm: Atomic.Timing, cfg: Config, j: Journal, s: Sys, i: nat, sid: string)
    requires Ok(tm, cfg, j, s, sid) && SysOk(s) && Enabled(cfg, s, Work(i)) && s.workers[i].Checking?
    ensures Fits(tm, cfg, s.db, j, Next(cfg, s, Work(i)).workers, s.ticker, sid)
  {
    var v, bound := s.workers[i], s.db.now + tm.ahead;
    var hashExists := SessionKey(v.msg.activity.sid) in s.db.hashes;
    var todo := ActivityProgram(cfg, v.msg, hashExists);
    assert v in s.workers;
    if Holds(v, sid) {
      assert WorkerFits(tm, cfg, s.db, j, v, sid);
      ProgramPaired(cfg, v.msg, hashExists, bound, sid);
      PairedProgress(tm, cfg, s.db, j, todo, sid);
    }
    FitsWorker(tm, cfg, s.db, j, s.db, j, s.workers, s.ticker, i, Running(v.msg, todo), sid);
  }

  lemma ForeignWorkOk(tm: Atomic.Timing, cfg: Config, j: Journal, s: Sys, i: nat, sid: string)
    requires Ok(tm, cfg, j, s, sid) && SysOk(s) && Enabled(cfg, s, Work(i))
    requires s.workers[i].Running? && !Holds(s.workers[i], sid)
    ensures var p := Next(cfg, s, Work(i));
            Data(tm, cfg, p.db, j, sid) && Fits(tm, cfg, p.db, j, p.workers, s.ticker, sid)
  {
    var v := s.workers[i];
    assert v in s.workers && v.todo[0] in v.todo;
    DataAside(tm, cfg, s.db, j, v.todo[0], MsgSid(v.msg), sid);
    NowKept(s.db, v.todo[0]);
    FitsWorker(tm, cfg, s.db, j, Apply(s.db, v.todo[0]), j, s.workers, s.ticker, i, Rest(v), sid);
  }

  lemma CloseWorkOk(tm: Atomic.Timing, cfg: Config, j: Journal, s: Sys, i: nat, sid: string)
    requires Ok(tm, cfg, j, s, sid) && SysOk(s) && Enabled(cfg, s, Work(i))
    requires s.workers[i].Running? && Closing(s.workers[i], sid)
    ensures var p := Next(cfg, s, Work(i));
            Data(tm, cfg, p.db, j, sid) && Fits(tm, cfg, p.db, j, p.workers, s.ticker, sid)
  {
    var v := s.workers[i];
    assert WorkerFits(tm, cfg, s.db, j, v, sid);
    var c := v.todo[0];
    DataClose(tm, cfg, s.db, j, c, sid);
    var p := Next(cfg, s, Work(i));
    forall l | 0 <= l < |p.workers|
      ensures WorkerFits(tm, cfg, p.db, j, p.workers[l], sid)
    {
      assert l != i ==> !Holds(s.workers[l], sid);
    }
  }

  lemma OwnWorkOk(tm: Atomic.Timing, cfg: Config, j: Journal, s: Sys, i: nat, sid: string)
    requires Sound(tm, cfg) && Ok(tm, cfg, j, s, sid) && SysOk(s) && Enabled(cfg, s, Work(i))
    requires s.workers[i].Running? && Holds(s.workers[i], sid) && !s.workers[i].msg.CloseMsg?
    requires Keeps(HashFound, tm, cfg, j, s, Work(i), sid) && Keeps(ScorePrompt, tm, cfg, j, s, Work(i), sid)
    ensures var p, j' := Next(cfg, s, Work(i)), Noted(tm, j, s, Work(i), sid);
            Data(tm, cfg, p.db, j', sid) && Fits(tm, cfg, p.db, j', p.workers, s.ticker, sid)
  {
    var v := s.workers[i];
    assert v in s.workers && WorkerFits(tm, cfg, s.db, j, v, sid);
    RegisterCommand(tm, cfg, s.db, j, v.todo, sid);
    NoCloseBeside(s, i, sid);
    FitsWorker(tm, cfg, s.db, j, Apply(s.db, v.todo[0]), Noted(tm, j, s, Work(i), sid), s.workers, s.ticker, i,
      Rest(v), sid);
  }

  lemma WorkOk(tm: Atomic.Timing, cfg: Config, j: Journal, s: Sys, i: nat, sid: string)
    requires Sound(tm, cfg) && Ok(tm, cfg, j, s, sid) && SysOk(s) && Enabled(cfg, s, Work(i))
    requires Keeps(HashFound, tm, cfg, j, s, Work(i), sid) && Keeps(ScorePrompt, tm, cfg, j, s, Work(i), sid)
    ensures var p, j' := Next(cfg, s, Work(i)), Noted(tm, j, s, Work(i), sid);
            Data(tm, cfg, p.db, j', sid) && Fits(tm, cfg, p.db, j', p.workers, s.ticker, sid)
  {
    if s.workers[i].Checking? {
      CheckOk(tm, cfg, j, s, i, sid);
    } else if !Holds(s.workers[i], sid) {
      ForeignWorkOk(tm, cfg, j, s, i, sid);
    } else if s.workers[i].msg.CloseMsg? {
      CloseWorkOk(tm, cfg, j, s, i, sid);
    } else {
      OwnWorkOk(tm, cfg, j, s, i, sid);
    }
  }

  lemma TouchOk(tm: Atomic.Timing, cfg: Config, j: Journal, s: Sys, sid: string)
    requires Sound(tm, cfg) && Ok(tm, cfg, j, s, sid) && SysOk(s) && Enabled(cfg, s, TickTouch)
    requires Keeps(HashFound, tm, cfg, j, s, TickTouch, sid) && Keeps(ScorePrompt, tm, cfg, j, s, TickTouch, sid)
    ensures var p, j' := Next(cfg, s, TickTouch), Noted(tm, j, s, TickTouch, sid);
            Data(tm, cfg, p.db, j', sid) && Fits(tm, cfg, p.db, j', s.workers, p.ticker, sid)
  {
    var k, p, j' := s.ticker, Next(cfg, s, TickTouch), Noted(tm, j, s, TickTouch, sid);
    assert k.todo[0] in k.todo;
    NowKept(s.db, k.todo[0]);
    if k.sid == sid {
      RegisterCommand(tm, cfg, s.db, j, k.todo, sid);
      forall i | 0 <= i < |s.workers|
        ensures WorkerFits(tm, cfg, p.db, j', s.workers[i], sid)
      {
        WorkerOnward(tm, cfg, s.db, j, p.db, j', s.workers[i], sid);
      }
    } else {
      DataAside(tm, cfg, s.db, j, k.todo[0], k.sid, sid);
      FitsOnward(tm, cfg, s.db, j, p.db, j', s.workers, k, sid);
    }
  }

  lemma TakeOk(tm: Atomic.Timing, cfg: Config, j: Journal, s: Sys, i: nat, m: Msg, clock: Time, sid: string)
    requires Ok(tm, cfg, j, s, sid) && Enabled(cfg, s, Take(i, m, clock)) && Paced(tm, j, s, Take(i, m, clock), sid)
    ensures Fits(tm, cfg, s.db, j, Next(cfg, s, Take(i, m, clock)).workers, s.ticker, sid)
  {
    if MsgSid(m) == sid && m.OpenMsg? {
      OpenPaired(cfg, m.open, OpenStamp(m.open, clock), s.db.now + tm.ahead, sid);
      PairedProgress(tm, cfg, s.db, j, Begin(cfg, m, clock).todo, sid);
    }
    FitsWorker(tm, cfg, s.db, j, s.db, j, s.workers, s.ticker, i, Begin(cfg, m, clock), sid);
  }

  lemma ProbeOk(tm: Atomic.Timing, cfg: Config, j: Journal, s: Sys, x: string, alive: bool, sid: string)
    requires Ok(tm, cfg, j, s, sid) && Enabled(cfg, s, TickProbe(x, alive))
    ensures TickerFits(tm, cfg, s.db, j, Next(cfg, s, TickProbe(x, alive)).ticker, sid)
  {
    TouchPaired(cfg, sid, s.ticker.nowMs, s.db.now + tm.ahead, sid);
    PairedProgress(tm, cfg, s.db, j, TouchPipeline(cfg.store, sid, s.ticker.nowMs), sid);
  }

  lemma SweepOk(tm: Atomic.Timing, cfg: Config, j: Journal, s: Sys, sid: string)
    requires Sound(tm, cfg) && Ok(tm, cfg, j, s, sid) && Enabled(cfg, s, TickSweep(true))
    requires Paced(tm, j, s, TickSweep(true), sid)
    ensures var p, j' := Next(cfg, s, TickSweep(true)), Noted(tm, j, s, TickSweep(true), sid);
            Data(tm, cfg, p.db, j', sid) && Fits(tm, cfg, p.db, j', s.workers, p.ticker, sid)
  {
    var p, j' := Next(cfg, s, TickSweep(true)), Noted(tm, j, s, TickSweep(true), sid);
    DataSweep(tm, cfg, s.db, j, s.ticker.cutoff, sid);
    FitsOnward(tm, cfg, s.db, j, p.db, j', s.workers, s.ticker, sid);
  }

  lemma BootOk(tm: Atomic.Timing, cfg: Config, j: Journal, s: Sys, sid: string)
    requires Sound(tm, cfg) && Ok(tm, cfg, j, s, sid) && Enabled(cfg, s, BootTouch) && Paced(tm, j, s, BootTouch, sid)
    ensures var p, j' := Next(cfg, s, BootTouch), Noted(tm, j, s, BootTouch, sid);
            Data(tm, cfg, p.db, j', sid) && Fits(tm, cfg, p.db, j', s.workers, s.ticker, sid)
  {
    var p, j' := Next(cfg, s, BootTouch), Noted(tm, j, s, BootTouch, sid);
    DataBoot(tm, cfg, s.db, j, s.boot.members, s.boot.nowMs, sid);
    FitsOnward(tm, cfg, s.db, j, p.db, j', s.workers, s.ticker, sid);
  }

  lemma OkStep(tm: Atomic.Timing, cfg: Config, j: Journal, s: Sys, e: Event, sid: string)
    requires Sound(tm, cfg) && Ok(tm, cfg, j, s, sid) && SysOk(s) && Enabled(cfg, s, e)
    requires forall rule :: rule in ALL_RULES ==> Keeps(rule, tm, cfg, j, s, e, sid)
    ensures Ok(tm, cfg, Noted(tm, j, s, e, sid), Next(cfg, s, e), sid)
  {
    assert Keeps(CloseAlone, tm, cfg, j, s, e, sid) && Keeps(HashFound, tm, cfg, j, s, e, sid);
    assert Keeps(ScorePrompt, tm, cfg, j, s, e, sid) && Keeps(Pace, tm, cfg, j, s, e, sid);
    match e
    case Clock(t) =>
      DataClock(tm, cfg, s.db, j, t, sid);
      FitsOnward(tm, cfg, s.db, j, Advance(s.db, t), j, s.workers, s.ticker, sid);
    case Take(i, m, clock) => TakeOk(tm, cfg, j, s, i, m, clock, sid);
    case Work(i) => WorkOk(tm, cfg, j, s, i, sid);
    case TickTouch => TouchOk(tm, cfg, j, s, sid);
    case TickProbe(x, alive) => ProbeOk(tm, cfg, j, s, x, alive, sid);
    case TickSweep(ok) =>
      if ok {
        SweepOk(tm, cfg, j, s, sid);
      }
    case BootTouch => BootOk(tm, cfg, j, s, sid);
    case _ =>
  }

  lemma {:induction false} OkRun(tm: Atomic.Timing, cfg: Config, j: Journal, s: Sys, es: seq<Event>, sid: string)
    requires Sound(tm, cfg) && Ok(tm, cfg, j, s, sid) && SysOk(s)
    requires Valid(cfg, s, es) && Follows(ALL_RULES, tm, cfg, j, s, es, sid)
    ensures sid in Final(cfg, s, es).db.zset ==> Listed(Final(cfg, s, es).db, sid)
    decreases |es|
  {
    if es != [] {
      OkStep(tm, cfg, j, s, es[0], sid);
      SysOkStep(cfg, s, es[0]);
      OkRun(tm, cfg, Noted(tm, j, s, es[0], sid), Next(cfg, s, es[0]), es[1..], sid);
    }
  }

  function Begun(tm: Atomic.Timing): Journal {
    Journal(Atomic.Begun(tm), 0.0)
  }

  /** No phantom members with pipelines split into commands: a session about which the rules are
      followed is never a member without a Hash, at whatever command the run is looked at, half
      done pipelines included. */
  lemma MembersKeepHashes(tm: Atomic.Timing, cfg: Config, n: nat, es: seq<Event>, sid: string)
    requires Sound(tm, cfg) && Valid(cfg, Start(n), es)
    requires Follows(ALL_RULES, tm, cfg, Begun(tm), Start(n), es, sid)
    ensures sid in Final(cfg, Start(n), es).db.zset ==> Listed(Final(cfg, Start(n), es).db, sid)
  {
    OkRun(tm, cfg, Begun(tm), Start(n), es, sid);
  }

  // ---- the last rule exactly ----

  /** Let time pass, and bridges sweep and boot at the pace: the session can end up a member
      without a Hash. */
  ghost predicate Strandable(tm: Atomic.Timing, cfg: Config, db: Db, j: Journal, sid: string) {
    exists ops :: Atomic.Paced(tm, cfg.store, db, j.plan, ops) && Atomic.AllPassive(ops)
                  && Atomic.Phantom(Atomic.Exec(db, cfg.store, ops), sid)
  }

  ghost predicate NeverStrandable(tm: Atomic.Timing, cfg: Config, j: Journal, s: Sys, es: seq<Event>, sid: string)
    decreases |es|
  {
    && !Strandable(tm, cfg, s.db, j, sid)
    && (es == [] || NeverStrandable(tm, cfg, Noted(tm, j, s, es[0], sid), Next(cfg, s, es[0]), es[1..], sid))
  }

  lemma DataPassive(tm: Atomic.Timing, cfg: Config, db: Db, j: Journal, op: Atomic.Op, sid: string)
    requires Sound(tm, cfg) && Data(tm, cfg, db, j, sid)
    requires Atomic.PacedStep(tm, db, j.plan, op) && Atomic.Passive(op)
    ensures Data(tm, cfg, Atomic.ApplyOp(db, cfg.store, op), j.(plan := Atomic.NextPlan(tm, j.plan, op)), sid)
  {
    match op
    case Clock(t) => DataClock(tm, cfg, db, j, t, sid);
    case Sweep(cutoff) => DataSweep(tm, cfg, db, j, cutoff, sid);
    case Rehydrate(nowMs) => DataBoot(tm, cfg, db, j, db.zset.Keys, nowMs, sid);
  }

  lemma {:induction false} DataPassiveRun(tm: Atomic.Timing, cfg: Config, db: Db, j: Journal, ops: seq<Atomic.Op>,
                                          sid: string)
    requires Sound(tm, cfg) && Data(tm, cfg, db, j, sid)
    requires Atomic.Paced(tm, cfg.store, db, j.plan, ops) && Atomic.AllPassive(ops)
    ensures !Atomic.Phantom(Atomic.Exec(db, cfg.store, ops), sid)
    decreases |ops|
  {
    if ops != [] {
      var op := ops[0];
      assert Atomic.Passive(op);
      DataPassive(tm, cfg, db, j, op, sid);
      DataPassiveRun(tm, cfg, Atomic.ApplyOp(db, cfg.store, op), j.(plan := Atomic.NextPlan(tm, j.plan, op)), ops[1..],
        sid);
    }
  }

  lemma DataNotStrandable(tm: Atomic.Timing, cfg: Config, db: Db, j: Journal, sid: string)
    requires Sound(tm, cfg) && Data(tm, cfg, db, j, sid)
    ensures !Strandable(tm, cfg, db, j, sid)
  {
    forall ops | Atomic.Paced(tm, cfg.store, db, j.plan, ops) && Atomic.AllPassive(ops)
      ensures !Atomic.Phantom(Atomic.Exec(db, cfg.store, ops), sid)
    {
      DataPassiveRun(tm, cfg, db, j, ops, sid);
    }
  }

  /** A member whose Hash does not last: boots just before the deadlines keep it in the active set
      until the Hash expires. */
  lemma ShortLived(tm: Atomic.Timing, cfg: Config, db: Db, j: Journal, sid: string, expiry: Time)
    requires Atomic.Sane(tm) && db.now <= j.plan.deadline <= db.now + tm.tickGap && db.now < expiry
    requires sid in db.zset && SessionKey(sid) in db.hashes && db.hashes[SessionKey(sid)].expiry == Some(expiry)
    requires !Lasts(tm, j.plan, expiry)
    ensures Strandable(tm, cfg, db, j, sid)
  {
    var p := j.plan;
    if expiry <= p.deadline {
      Atomic.OneOp(tm, cfg.store, db, p, Atomic.Clock(expiry));
      assert Atomic.AllPassive([Atomic.Clock(expiry)]);
    } else {
      var clock, boot := Atomic.Clock(p.deadline), Atomic.Rehydrate(p.deadline);
      var late := Advance(db, p.deadline);
      var d, q := Atomic.ApplyOp(late, cfg.store, boot), Atomic.NextPlan(tm, p, boot);
      var rest := Atomic.Strand(tm, cfg.store, d, q, sid, p.deadline, expiry);
      Atomic.OneOp(tm, cfg.store, late, p, boot);
      Atomic.PacedConcat(tm, cfg.store, late, p, [boot], rest);
      Atomic.OneOp(tm, cfg.store, db, p, clock);
      Atomic.PacedConcat(tm, cfg.store, db, p, [clock], [boot] + rest);
      assert Atomic.AllPassive([clock] + ([boot] + rest));
    }
  }

  /** A ZADD that is not in time can be seen to strand the session. */
  lemma LateScoreStrands(tm: Atomic.Timing, cfg: Config, db: Db, j: Journal, score: Time, sid: string)
    requires Atomic.Sane(tm) && Data(tm, cfg, db, j, sid) && Fresh(cfg, db, j, sid)
    requires !InTime(tm, cfg, j, db, sid)
    ensures Strandable(tm, cfg, Apply(db, ZAdd(sid, score)), j, sid)
  {
    var key, d := SessionKey(sid), Apply(db, ZAdd(sid, score));
    if key in db.hashes {
      ShortLived(tm, cfg, d, j, sid, j.renewed + TTL(cfg));
    } else {
      assert Atomic.Phantom(Atomic.Exec(d, cfg.store, []), sid);
      assert Atomic.AllPassive([]);
    }
  }

  lemma SentFresh(tm: Atomic.Timing, cfg: Config, j: Journal, s: Sys, e: Event, sid: string)
    requires Ok(tm, cfg, j, s, sid) && SysOk(s) && Enabled(cfg, s, e) && Scores(s, e, sid)
    ensures Fresh(cfg, s.db, j, sid) && Sent(s, e, sid).value.member == sid
    ensures Next(cfg, s, e).db == Apply(s.db, Sent(s, e, sid).value) && Noted(tm, j, s, e, sid) == j
  {
    var c := Sent(s, e, sid).value;
    if e.Work? {
      var v := s.workers[e.i];
      assert v in s.workers && WorkerFits(tm, cfg, s.db, j, v, sid) && c in v.todo;
    } else {
      assert c in s.ticker.todo;
    }
  }

  lemma {:induction false} PromptRun(tm: Atomic.Timing, cfg: Config, j: Journal, s: Sys, es: seq<Event>, sid: string)
    requires Sound(tm, cfg) && Ok(tm, cfg, j, s, sid) && SysOk(s)
    requires Valid(cfg, s, es) && Follows(ALL_RULES - {ScorePrompt}, tm, cfg, j, s, es, sid)
    ensures NeverStrandable(tm, cfg, j, s, es, sid) <==> Follows({ScorePrompt}, tm, cfg, j, s, es, sid)
    decreases |es|
  {
    DataNotStrandable(tm, cfg, s.db, j, sid);
    if es != [] {
      var e := es[0];
      if Keeps(ScorePrompt, tm, cfg, j, s, e, sid) {
        assert forall rule :: rule in ALL_RULES ==> rule == ScorePrompt || rule in ALL_RULES - {ScorePrompt};
        OkStep(tm, cfg, j, s, e, sid);
        SysOkStep(cfg, s, e);
        PromptRun(tm, cfg, Noted(tm, j, s, e, sid), Next(cfg, s, e), es[1..], sid);
      } else {
        SentFresh(tm, cfg, j, s, e, sid);
        LateScoreStrands(tm, cfg, s.db, j, Sent(s, e, sid).value.score, sid);
      }
    }
  }

  /** The rule about the ZADD is exact. A run that follows the other three rules can, after none of
      its prefixes, be continued by time, sweeps and boots at the pace so as to strand the session,
      exactly when every ZADD of it is in time. */
  lemma ScorePromptIff(tm: Atomic.Timing, cfg: Config, n: nat, es: seq<Event>, sid: string)
    requires Sound(tm, cfg) && Valid(cfg, Start(n), es)
    requires Follows(ALL_RULES - {ScorePrompt}, tm, cfg, Begun(tm), Start(n), es, sid)
    ensures NeverStrandable(tm, cfg, Begun(tm), Start(n), es, sid) <==>
            Follows({ScorePrompt}, tm, cfg, Begun(tm), Start(n), es, sid)
  {
    PromptRun(tm, cfg, Begun(tm), Start(n), es, sid);
  }
}
