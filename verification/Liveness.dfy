/** A session of this host whose process stays alive is never lost: it is listed as
    active at every instant of every run, however commands interleave. */
module Liveness {
  import opened Events
  import opened Wrappers
  import opened Keys
  import opened Redis
  import opened Store
  import opened Bridge
  import opened Mesh

  /** What an observer of the session notes down: when the present refresh listed the active
      set, when the last completed one did, whether the present one has touched the session
      yet, and the last score anyone else has given it since. */
  datatype Watch = Watch(started: Time, last: Time, touched: bool, latest: Option<Time>)

  function Note(w: Watch, s: Sys, e: Event, sid: string): Watch {
    match e
    case TickList(_) => w.(started := s.db.now, touched := false, latest := None)
    case TickTouch =>
      if s.ticker.Touching? && s.ticker.todo != [] && s.ticker.todo[0].ZAdd? && s.ticker.sid == sid
      then w.(touched := true, latest := None) else w
    case Work(i) =>
      if i < |s.workers| && s.workers[i].Running? && s.workers[i].todo != []
         && s.workers[i].todo[0].ZAdd? && s.workers[i].todo[0].member == sid
      then w.(latest := Some(s.workers[i].todo[0].score)) else w
    case BootTouch =>
      if s.boot.Rehydrating? && sid in s.boot.members then w.(latest := Some(s.boot.nowMs)) else w
    case TickCut(_) => w.(last := w.started)
    case _ => w
  }

  /** What the session and its surroundings are trusted with. No close and no second open; the
      process is alive whenever probed; store calls succeed; from the listing of one refresh to
      the end of the next less than the Hash's time to live passes; and from a refresh to its
      cutoff less than the sweep window passes. */
  predicate Trusted(cfg: Config, w: Watch, s: Sys, e: Event, sid: string) {
    match e
    case Clock(t) => t < w.last + TTL(cfg)
    case Take(_, m, _) => MsgSid(m) == sid ==> m.ActivityMsg?
    case TickList(ok) => ok
    case TickGet(x, ok) => x == sid ==> ok
    case TickProbe(x, alive) => x == sid ==> alive
    case TickCut(clock) => s.ticker.Probing? ==> clock - s.ticker.nowMs < cfg.sweepTTL
    case _ => true
  }

  ghost predicate TrustedRun(cfg: Config, w: Watch, s: Sys, es: seq<Event>, sid: string)
    decreases |es|
  {
    es == [] ||
    (Trusted(cfg, w, s, es[0], sid) && TrustedRun(cfg, Note(w, s, es[0], sid), Next(cfg, s, es[0]), es[1..], sid))
  }

  /** A sweep that succeeds finds the last score given since the refresh, if there is one, above
      its cutoff. */
  predicate Spares(w: Watch, s: Sys, e: Event) {
    e.TickSweep? && e.ok && s.ticker.Sweeping? && w.latest.Some? ==> s.ticker.cutoff < w.latest.value
  }

  ghost predicate SparedRun(cfg: Config, w: Watch, s: Sys, es: seq<Event>, sid: string)
    decreases |es|
  {
    es == [] ||
    (Spares(w, s, es[0]) && SparedRun(cfg, Note(w, s, es[0], sid), Next(cfg, s, es[0]), es[1..], sid))
  }

  /** The session is in the listing at every instant of the run. */
  ghost predicate AlwaysListed(cfg: Config, s: Sys, es: seq<Event>, sid: string)
    decreases |es|
  {
    Listed(s.db, sid) && (es == [] || AlwaysListed(cfg, Next(cfg, s, es[0]), es[1..], sid))
  }

  // ---- the session's own record ----

  /** Listed, of this host, with an expiry. */
  predicate Present(cfg: Config, db: Db, sid: string) {
    var key := SessionKey(sid);
    && sid in db.zset && key in db.hashes
    && TextField(db.hashes[key].fields, "host") == cfg.host
    && db.hashes[key].expiry.Some?
  }

  function ExpiryOf(db: Db, sid: string): Time
    requires SessionKey(sid) in db.hashes && db.hashes[SessionKey(sid)].expiry.Some?
  {
    db.hashes[SessionKey(sid)].expiry.value
  }

  /** A command that neither closes the session nor re-opens it. */
  predicate Gentle(cfg: Config, c: Cmd, sid: string) {
    match c
    case HSet(key, fields) => key == SessionKey(sid) ==> "host" !in fields
    case ExpireHash(key, ttl) => key == SessionKey(sid) ==> ttl == TTL(cfg)
    case ZRem(m) => m != sid
    case ZRemRange(_) => false
    case _ => true
  }

  ghost predicate AllGentle(cfg: Config, todo: seq<Cmd>, sid: string) {
    forall c :: c in todo ==> Gentle(cfg, c, sid)
  }

  predicate Rescores(c: Cmd, sid: string) {
    (c.ZAdd? && c.member == sid) || (c.ZAddXX? && sid in c.members)
  }

  function ScoreGiven(c: Cmd): Time
    requires c.ZAdd? || c.ZAddXX?
  {
    match c case ZAdd(_, x) => x case ZAddXX(_, x) => x
  }

  /** The session's Hash is there and says that it is of this host. */
  predicate Hosted(cfg: Config, db: Db, sid: string) {
    var key := SessionKey(sid);
    key in db.hashes && TextField(db.hashes[key].fields, "host") == cfg.host
  }

  lemma GentleHosted(cfg: Config, db: Db, c: Cmd, sid: string)
    requires cfg.host != "" && TTL(cfg) > 0.0
    requires Hosted(cfg, db, sid) && Gentle(cfg, c, sid)
    ensures var key, d := SessionKey(sid), Apply(db, c);
            && d.now == db.now && Hosted(cfg, d, sid)
            && d.hashes[key].expiry ==
               if c.ExpireHash? && c.key == key then Some(db.now + TTL(cfg)) else db.hashes[key].expiry
  {
    var key := SessionKey(sid);
    match c
    case HSet(k, fields) =>
      if k == key {
        assert "host" in db.hashes[key].fields;
      }
    case HSetNX(k, f, v) =>
      if k == key {
        assert "host" in db.hashes[key].fields;
      }
    case _ =>
  }

  lemma GentleKeeps(cfg: Config, db: Db, c: Cmd, sid: string)
    requires cfg.host != "" && TTL(cfg) > 0.0
    requires Present(cfg, db, sid) && Gentle(cfg, c, sid)
    ensures var d := Apply(db, c);
            && d.now == db.now && Present(cfg, d, sid)
            && ExpiryOf(d, sid)
              == (if c.ExpireHash? && c.key == SessionKey(sid) then db.now + TTL(cfg) else ExpiryOf(db, sid))
            && d.zset[sid] == (if Rescores(c, sid) then ScoreGiven(c) else db.zset[sid])
  {
    GentleHosted(cfg, db, c, sid);
  }

  lemma RegisterGentle(cfg: Config, x: string, fields: map<string, Val>, score: Time, sid: string)
    requires "host" !in fields
    ensures AllGentle(cfg, RegisterPipeline(x, fields, TTL(cfg), score), sid)
  {
  }

  lemma PushFieldsHostless(ev: Activity, hashExists: bool)
    ensures "host" !in PushFields(ev, hashExists)
  {
    assert |"host"| == 4 && |"last_seen"| == 9 && |"session_id"| == 10 && |"cwd"| == 3;
  }

  lemma PushGentle(cfg: Config, ev: Activity, hashExists: bool, sid: string)
    ensures AllGentle(cfg, PushPipeline(cfg.store, ev, hashExists), sid)
  {
    PushParts(cfg.store, ev, hashExists);
    PushFieldsHostless(ev, hashExists);
    RegisterGentle(cfg, ev.sid, PushFields(ev, hashExists), ev.ts, sid);
  }

  lemma SeedingGentle(cfg: Config, x: string, ts: Time, cwd: string, sid: string)
    ensures AllGentle(cfg, TouchOrCreatePipeline(cfg.store, x, ts, cwd), sid)
  {
    assert |"host"| == 4 && |"last_seen"| == 9;
  }

  lemma ProgramGentle(cfg: Config, m: Msg, hashExists: bool, sid: string)
    requires m.ActivityMsg?
    ensures AllGentle(cfg, ActivityProgram(cfg, m, hashExists), sid)
  {
    PushGentle(cfg, m.activity, hashExists, sid);
    SeedingGentle(cfg, m.sid, m.activity.ts, m.activity.cwd, sid);
  }

  /** Messages about other sessions are gentle with this one whatever they are. */
  lemma ForeignGentle(cfg: Config, m: Msg, clock: Time, sid: string)
    requires WellAddressed(m) && MsgSid(m) != sid && !m.ActivityMsg?
    ensures AllGentle(cfg, Begin(cfg, m, clock).todo, sid)
  {
    KeysSeparate(MsgSid(m), sid);
  }

  // ---- the invariant ----

  predicate Viewed(cfg: Config, views: map<string, SessionView>, sid: string) {
    sid in views && views[sid].host == cfg.host
  }

  /** The commands a touch still has to run. */
  predicate TouchLeft(cfg: Config, k: Ticker)
    requires k.Touching?
  {
    var all := TouchPipeline(cfg.store, k.sid, k.nowMs);
    1 <= |k.todo| <= 3 && k.todo == all[3 - |k.todo|..]
  }

  predicate TouchInOrder(cfg: Config, k: Ticker) {
    k.Touching? ==> TouchLeft(cfg, k)
  }

  /** What one command of a touch leaves of the ticker. */
  function AfterTouch(k: Ticker): Ticker
    requires k.Touching? && k.todo != []
  {
    if |k.todo| == 1 then Probing(k.nowMs, k.views) else k.(todo := k.todo[1..])
  }

  /** The refresh under way has touched the session or is still going to. */
  predicate OnItsWay(cfg: Config, w: Watch, s: Sys, sid: string) {
    match s.ticker
    case Resting => true
    case Listing(pending, views) => w.touched || sid in pending || Viewed(cfg, views, sid)
    case Probing(_, views) => w.touched || Viewed(cfg, views, sid)
    case Touching(_, views, x, todo) => w.touched || Viewed(cfg, views, sid) || x == sid
    case Sweeping(_) => w.touched
  }

  /** The session has the last score noted, or, once touched and not scored since, one that
      this refresh's sweep spares. */
  predicate HighEnough(w: Watch, s: Sys, score: Time) {
    if w.latest.Some? then score == w.latest.value
    else w.touched ==>
    match s.ticker
    case Resting => true
    case Listing(_, _) => false
    case Probing(nowMs, _) => nowMs <= score
    case Touching(nowMs, _, _, _) => nowMs <= score
    case Sweeping(cutoff) => cutoff < score
  }

  predicate HalfTouched(cfg: Config, w: Watch, s: Sys, sid: string)
    requires Present(cfg, s.db, sid)
  {
    s.ticker.Touching? ==>
      TouchLeft(cfg, s.ticker) &&
      (s.ticker.sid == sid && |s.ticker.todo| == 1 ==> ExpiryOf(s.db, sid) >= w.started + TTL(cfg))
  }

  ghost predicate WorkersGentle(cfg: Config, s: Sys, sid: string) {
    forall v :: v in s.workers && v.Running? ==> AllGentle(cfg, v.todo, sid)
  }

  ghost predicate Live(cfg: Config, w: Watch, s: Sys, sid: string) {
    && Present(cfg, s.db, sid)
    && w.last <= w.started <= s.db.now < w.last + TTL(cfg) <= ExpiryOf(s.db, sid)
    && (w.touched ==> ExpiryOf(s.db, sid) >= w.started + TTL(cfg))
    && HighEnough(w, s, s.db.zset[sid])
    && HalfTouched(cfg, w, s, sid)
    && OnItsWay(cfg, w, s, sid)
    && WorkersGentle(cfg, s, sid)
  }

  lemma LiveClock(cfg: Config, w: Watch, s: Sys, t: Time, sid: string)
    requires Live(cfg, w, s, sid) && s.db.now <= t < w.last + TTL(cfg)
    ensures Live(cfg, w, s.(db := Advance(s.db, t)), sid)
  {
  }

  /** One command of a worker, of a touch of another session, or of a boot. */
  lemma LiveCommand(cfg: Config, w: Watch, s: Sys, c: Cmd, sid: string)
    requires cfg.host != "" && Live(cfg, w, s, sid) && Gentle(cfg, c, sid)
    ensures Live(cfg, if Rescores(c, sid) then w.(latest := Some(ScoreGiven(c))) else w, Perform(s, c), sid)
  {
    GentleKeeps(cfg, s.db, c, sid);
  }

  lemma LiveCheck(cfg: Config, w: Watch, s: Sys, i: nat, sid: string)
    requires Live(cfg, w, s, sid) && SysOk(s) && Enabled(cfg, s, Work(i)) && s.workers[i].Checking?
    ensures Live(cfg, w, Next(cfg, s, Work(i)), sid)
  {
    var v := s.workers[i];
    assert v in s.workers;
    ProgramGentle(cfg, v.msg, SessionKey(v.msg.activity.sid) in s.db.hashes, sid);
  }

  lemma LiveWork(cfg: Config, w: Watch, s: Sys, i: nat, sid: string)
    requires cfg.host != "" && Live(cfg, w, s, sid) && SysOk(s) && Enabled(cfg, s, Work(i)) && s.workers[i].Running?
    ensures Live(cfg, Note(w, s, Work(i), sid), Next(cfg, s, Work(i)), sid)
  {
    var v := s.workers[i];
    assert v in s.workers;
    var c := v.todo[0];
    assert c in v.todo && Owned(c, MsgSid(v.msg));
    LiveCommand(cfg, w, s, c, sid);
  }

  lemma LiveTake(cfg: Config, w: Watch, s: Sys, i: nat, m: Msg, clock: Time, sid: string)
    requires Live(cfg, w, s, sid) && Enabled(cfg, s, Take(i, m, clock)) && Trusted(cfg, w, s, Take(i, m, clock), sid)
    ensures Live(cfg, w, Next(cfg, s, Take(i, m, clock)), sid)
  {
    if !m.ActivityMsg? {
      ForeignGentle(cfg, m, clock, sid);
    }
  }

  lemma TouchCommand(cfg: Config, k: Ticker)
    requires k.Touching? && TouchLeft(cfg, k)
    ensures var key, c := SessionKey(k.sid), k.todo[0];
            && (|k.todo| == 3 ==> c == HSet(key, map["last_seen" := Stamp(k.nowMs)]))
            && (|k.todo| == 2 ==> c == ExpireHash(key, TTL(cfg)))
            && (|k.todo| == 1 ==> c == ZAdd(k.sid, k.nowMs))
            && (|k.todo| > 1 ==> TouchLeft(cfg, k.(todo := k.todo[1..])))
  {
    var all := TouchPipeline(cfg.store, k.sid, k.nowMs);
    assert k.todo[0] == all[3 - |k.todo|];
    if |k.todo| > 1 {
      assert k.todo[1..] == all[3 - (|k.todo| - 1)..];
    }
  }

  lemma TouchGentle(cfg: Config, k: Ticker, sid: string)
    requires k.Touching? && TouchLeft(cfg, k)
    ensures Gentle(cfg, k.todo[0], sid) && TouchInOrder(cfg, AfterTouch(k))
  {
    TouchCommand(cfg, k);
    assert "host" !in map["last_seen" := Stamp(k.nowMs)] by {
      assert |"host"| == 4 && |"last_seen"| == 9;
    }
  }

  /** The data side of one command of a touch. */
  lemma TouchData(cfg: Config, db: Db, k: Ticker, sid: string)
    requires cfg.host != "" && TTL(cfg) > 0.0 && Present(cfg, db, sid)
    requires k.Touching? && TouchLeft(cfg, k)
    ensures var d := Apply(db, k.todo[0]);
            && d.now == db.now && Present(cfg, d, sid)
            && ExpiryOf(d, sid) == (if |k.todo| == 2 && k.sid == sid then db.now + TTL(cfg) else ExpiryOf(db, sid))
            && d.zset[sid] == (if |k.todo| == 1 && k.sid == sid then k.nowMs else db.zset[sid])
  {
    TouchCommand(cfg, k);
    TouchGentle(cfg, k, sid);
    GentleKeeps(cfg, db, k.todo[0], sid);
    KeysSeparate(k.sid, sid);
  }

  /** A refresh never lowers an expiry: the Hash is renewed for the whole time to live. */
  lemma LiveTouch(cfg: Config, w: Watch, s: Sys, sid: string)
    requires cfg.host != "" && Live(cfg, w, s, sid) && Enabled(cfg, s, TickTouch)
    ensures Live(cfg, Note(w, s, TickTouch, sid), Next(cfg, s, TickTouch), sid)
  {
    TouchCommand(cfg, s.ticker);
    TouchData(cfg, s.db, s.ticker, sid);
    NextTouch(cfg, s);
    LiveTouched(cfg, w, s, Next(cfg, s, TickTouch), Note(w, s, TickTouch, sid), sid);
  }

  lemma NextTouch(cfg: Config, s: Sys)
    requires Enabled(cfg, s, TickTouch)
    ensures var p := Next(cfg, s, TickTouch);
            p.db == Apply(s.db, s.ticker.todo[0]) && p.workers == s.workers && p.ticker == AfterTouch(s.ticker)
  {
  }

  lemma LiveTouched(cfg: Config, w: Watch, s: Sys, p: Sys, w': Watch, sid: string)
    requires Live(cfg, w, s, sid) && s.ticker.Touching? && s.ticker.todo != []
    requires Present(cfg, p.db, sid) && p.db.now == s.db.now && p.workers == s.workers
    requires var k := s.ticker;
             && p.ticker == AfterTouch(k)
             && (|k.todo| > 1 ==> TouchLeft(cfg, p.ticker))
             && ExpiryOf(p.db, sid)
               == (if |k.todo| == 2 && k.sid == sid then p.db.now + TTL(cfg) else ExpiryOf(s.db, sid))
             && p.db.zset[sid] == (if |k.todo| == 1 && k.sid == sid then k.nowMs else s.db.zset[sid])
             && w' == (if |k.todo| == 1 && k.sid == sid then w.(touched := true, latest := None) else w)
    ensures Live(cfg, w', p, sid)
  {
  }

  lemma LiveTick(cfg: Config, w: Watch, s: Sys, e: Event, sid: string)
    requires cfg.host != "" && Live(cfg, w, s, sid) && Enabled(cfg, s, e) && Trusted(cfg, w, s, e, sid)
    requires e.TickList? || e.TickGet? || e.TickNow? || e.TickProbe? || e.TickCut? || e.BootList?
    ensures Live(cfg, Note(w, s, e, sid), Next(cfg, s, e), sid)
  {
  }

  lemma LiveSweep(cfg: Config, w: Watch, s: Sys, ok: bool, sid: string)
    requires Live(cfg, w, s, sid) && Enabled(cfg, s, TickSweep(ok)) && Spares(w, s, TickSweep(ok))
    ensures Live(cfg, w, Next(cfg, s, TickSweep(ok)), sid)
  {
  }

  lemma LiveStep(cfg: Config, w: Watch, s: Sys, e: Event, sid: string)
    requires cfg.host != "" && Live(cfg, w, s, sid) && SysOk(s) && Enabled(cfg, s, e) && Trusted(cfg, w, s, e, sid)
             && Spares(w, s, e)
    ensures Live(cfg, Note(w, s, e, sid), Next(cfg, s, e), sid)
  {
    match e
    case Clock(t) => LiveClock(cfg, w, s, t, sid);
    case Take(i, m, clock) => LiveTake(cfg, w, s, i, m, clock, sid);
    case Work(i) =>
      if s.workers[i].Checking? {
        LiveCheck(cfg, w, s, i, sid);
      } else {
        LiveWork(cfg, w, s, i, sid);
      }
    case TickTouch => LiveTouch(cfg, w, s, sid);
    case TickSweep(ok) => LiveSweep(cfg, w, s, ok, sid);
    case BootTouch => LiveCommand(cfg, w, s, ZAddXX(s.boot.members, s.boot.nowMs), sid);
    case _ => LiveTick(cfg, w, s, e, sid);
  }

  /** A sweep that does not spare the session evicts it. */
  lemma NotSpared(cfg: Config, w: Watch, s: Sys, e: Event, sid: string)
    requires Live(cfg, w, s, sid) && !Spares(w, s, e)
    ensures !Listed(Next(cfg, s, e).db, sid)
  {
  }

  lemma LiveListed(cfg: Config, w: Watch, s: Sys, sid: string)
    requires cfg.host != "" && Live(cfg, w, s, sid)
    ensures Listed(s.db, sid)
  {
    assert "host" in s.db.hashes[SessionKey(sid)].fields;
  }

  lemma {:induction false} LiveRun(cfg: Config, w: Watch, s: Sys, es: seq<Event>, sid: string)
    requires cfg.host != "" && Live(cfg, w, s, sid) && SysOk(s)
    requires Valid(cfg, s, es) && TrustedRun(cfg, w, s, es, sid)
    ensures AlwaysListed(cfg, s, es, sid) <==> SparedRun(cfg, w, s, es, sid)
    decreases |es|
  {
    LiveListed(cfg, w, s, sid);
    if es != [] {
      if Spares(w, s, es[0]) {
        LiveStep(cfg, w, s, es[0], sid);
        SysOkStep(cfg, s, es[0]);
        LiveRun(cfg, Note(w, s, es[0], sid), Next(cfg, s, es[0]), es[1..], sid);
      } else {
        NotSpared(cfg, w, s, es[0], sid);
      }
    }
  }

  lemma {:induction false} ListedToTheEnd(cfg: Config, s: Sys, es: seq<Event>, sid: string)
    requires AlwaysListed(cfg, s, es, sid)
    ensures Listed(Final(cfg, s, es).db, sid)
    decreases |es|
  {
    if es != [] {
      ListedToTheEnd(cfg, Next(cfg, s, es[0]), es[1..], sid);
    }
  }

  // ---- where it starts ----

  /** The session has been registered by a bridge of its own host, its Hash was renewed not
      longer ago than the time to live, and nobody is about to close or re-open it. The ticker
      may be anywhere. */
  ghost predicate JustOpened(cfg: Config, s: Sys, sid: string) {
    && Present(cfg, s.db, sid) && ExpiryOf(s.db, sid) - TTL(cfg) <= s.db.now < ExpiryOf(s.db, sid)
    && WorkersGentle(cfg, s, sid)
    && TouchInOrder(cfg, s.ticker)
  }

  /** An observer who starts then. */
  function StartWatch(cfg: Config, s: Sys, sid: string): Watch
    requires Present(cfg, s.db, sid)
  {
    var renewed := ExpiryOf(s.db, sid) - TTL(cfg);
    Watch(renewed, renewed, true, Some(s.db.zset[sid]))
  }

  function OpenRest(cfg: Config, ev: SessionOpen, stamp: Time, left: nat): seq<Cmd>
    requires left <= 3
  {
    OpenPipeline(cfg.store, ev, stamp)[3 - left..]
  }

  /** What an open with `left` commands still to run has made of the session. */
  predicate OpeningData(cfg: Config, db: Db, sid: string, left: nat) {
    var key := SessionKey(sid);
    && (left <= 2 ==> Hosted(cfg, db, sid))
    && (left <= 1 ==> db.hashes[key].expiry.Some?
                      && db.hashes[key].expiry.value - TTL(cfg) <= db.now < db.hashes[key].expiry.value)
    && (left == 0 ==> sid in db.zset)
  }

  /** Worker `i` is `w`, nobody else is about to close or re-open the session, and `left`
      commands of an open of it are still to run. */
  ghost predicate OpenAt(cfg: Config, s: Sys, i: nat, w: Worker, sid: string, left: nat) {
    && i < |s.workers| && s.workers[i] == w
    && (forall j :: 0 <= j < |s.workers| && j != i && s.workers[j].Running? ==> AllGentle(cfg, s.workers[j].todo, sid))
    && TouchInOrder(cfg, s.ticker)
    && OpeningData(cfg, s.db, sid, left)
  }

  function Opener(cfg: Config, ev: SessionOpen, stamp: Time, left: nat): Worker
    requires left <= 3
  {
    if left > 0 then Running(OpenMsg(ev), OpenRest(cfg, ev, stamp, left)) else Idle
  }

  /** Worker `i` is on its way through an open of the session. */
  ghost predicate Opening(cfg: Config, s: Sys, i: nat, ev: SessionOpen, stamp: Time, left: nat) {
    left <= 3 && OpenAt(cfg, s, i, Opener(cfg, ev, stamp, left), ev.sid, left)
  }

  /** No other open and no close of the session is taken, and its Hash does not expire between
      the open's commands. */
  ghost predicate OpenLeftAlone(s: Sys, e: Event, sid: string, left: nat) {
    match e
    case Take(_, m, _) => MsgSid(m) == sid ==> m.ActivityMsg?
    case Clock(t) => left <= 2 && SessionKey(sid) in s.db.hashes ==> Unexpired(s.db.hashes[SessionKey(sid)].expiry, t)
    case _ => true
  }

  function LeftAfter(e: Event, i: nat, left: nat): nat {
    if e == Work(i) && left > 0 then left - 1 else left
  }

  lemma OpenCommand(cfg: Config, ev: SessionOpen, stamp: Time, left: nat)
    requires 1 <= left <= 3
    ensures var key, rest := SessionKey(ev.sid), OpenRest(cfg, ev, stamp, left);
            && |rest| == left && (left > 1 ==> rest[1..] == OpenRest(cfg, ev, stamp, left - 1))
            && rest[0] == (if left == 3 then HSet(key, OpenFields(ev, stamp))
                           else if left == 2 then ExpireHash(key, TTL(cfg)) else ZAdd(ev.sid, stamp))
  {
  }

  lemma OpeningOwn(cfg: Config, s: Sys, i: nat, ev: SessionOpen, stamp: Time, left: nat)
    requires TTL(cfg) > 0.0 && ev.host == cfg.host
    requires Opening(cfg, s, i, ev, stamp, left) && left > 0
    ensures Enabled(cfg, s, Work(i)) && Opening(cfg, Next(cfg, s, Work(i)), i, ev, stamp, left - 1)
  {
    OpenCommand(cfg, ev, stamp, left);
    OpenFieldsHost(ev, stamp);
    var d := Apply(s.db, s.workers[i].todo[0]);
    assert OpeningData(cfg, d, ev.sid, left - 1);
  }

  lemma OpeningForeign(cfg: Config, s: Sys, c: Cmd, sid: string, left: nat)
    requires cfg.host != "" && TTL(cfg) > 0.0 && Gentle(cfg, c, sid)
    requires OpeningData(cfg, s.db, sid, left) && left > 0
    ensures OpeningData(cfg, Perform(s, c).db, sid, left)
  {
    if left <= 2 {
      GentleHosted(cfg, s.db, c, sid);
    }
  }

  lemma RestGentle(cfg: Config, w: Worker, sid: string)
    requires w.Running? && w.todo != [] && AllGentle(cfg, w.todo, sid)
    ensures Rest(w).Running? ==> AllGentle(cfg, Rest(w).todo, sid)
  {
  }

  lemma OpenAtCheck(cfg: Config, s: Sys, i: nat, j: nat, w: Worker, sid: string, left: nat)
    requires SysOk(s) && Enabled(cfg, s, Work(j)) && s.workers[j].Checking? && j != i
    requires OpenAt(cfg, s, i, w, sid, left) && left > 0
    ensures OpenAt(cfg, Next(cfg, s, Work(j)), i, w, sid, left)
  {
    var v := s.workers[j];
    ProgramGentle(cfg, v.msg, SessionKey(v.msg.activity.sid) in s.db.hashes, sid);
  }

  lemma OpenAtWork(cfg: Config, s: Sys, i: nat, j: nat, w: Worker, sid: string, left: nat)
    requires cfg.host != "" && TTL(cfg) > 0.0 && Enabled(cfg, s, Work(j)) && s.workers[j].Running? && j != i
    requires OpenAt(cfg, s, i, w, sid, left) && left > 0
    ensures OpenAt(cfg, Next(cfg, s, Work(j)), i, w, sid, left)
  {
    var v := s.workers[j];
    assert AllGentle(cfg, v.todo, sid) && v.todo[0] in v.todo;
    OpeningForeign(cfg, s, v.todo[0], sid, left);
    RestGentle(cfg, v, sid);
  }

  lemma OpenAtTake(cfg: Config, s: Sys, i: nat, j: nat, m: Msg, clock: Time, w: Worker, sid: string, left: nat)
    requires OpenAt(cfg, s, i, w, sid, left) && left > 0 && w.Running?
    requires Enabled(cfg, s, Take(j, m, clock)) && OpenLeftAlone(s, Take(j, m, clock), sid, left)
    ensures OpenAt(cfg, Next(cfg, s, Take(j, m, clock)), i, w, sid, left)
  {
    if !m.ActivityMsg? {
      ForeignGentle(cfg, m, clock, sid);
    }
  }

  lemma OpenAtTouch(cfg: Config, s: Sys, i: nat, w: Worker, sid: string, left: nat)
    requires cfg.host != "" && TTL(cfg) > 0.0 && Enabled(cfg, s, TickTouch)
    requires OpenAt(cfg, s, i, w, sid, left) && left > 0
    ensures OpenAt(cfg, Next(cfg, s, TickTouch), i, w, sid, left)
  {
    TouchGentle(cfg, s.ticker, sid);
    NextTouch(cfg, s);
    OpeningForeign(cfg, s, s.ticker.todo[0], sid, left);
  }

  lemma OpenAtTick(cfg: Config, s: Sys, e: Event, i: nat, w: Worker, sid: string, left: nat)
    requires OpenAt(cfg, s, i, w, sid, left) && left > 0 && Enabled(cfg, s, e)
    requires !e.Take? && !e.Work? && !e.TickTouch? && OpenLeftAlone(s, e, sid, left)
    ensures OpenAt(cfg, Next(cfg, s, e), i, w, sid, left)
  {
  }

  /** Whatever others do leaves an open where it was. */
  lemma OpenAtStep(cfg: Config, s: Sys, e: Event, i: nat, w: Worker, sid: string, left: nat)
    requires cfg.host != "" && TTL(cfg) > 0.0 && SysOk(s) && w.Running?
    requires OpenAt(cfg, s, i, w, sid, left) && left > 0
    requires Enabled(cfg, s, e) && OpenLeftAlone(s, e, sid, left) && e != Work(i)
    ensures OpenAt(cfg, Next(cfg, s, e), i, w, sid, left)
  {
    match e
    case Take(j, m, clock) => OpenAtTake(cfg, s, i, j, m, clock, w, sid, left);
    case Work(j) =>
      if s.workers[j].Checking? {
        OpenAtCheck(cfg, s, i, j, w, sid, left);
      } else {
        OpenAtWork(cfg, s, i, j, w, sid, left);
      }
    case TickTouch => OpenAtTouch(cfg, s, i, w, sid, left);
    case _ => OpenAtTick(cfg, s, e, i, w, sid, left);
  }

  lemma OpeningStep(cfg: Config, s: Sys, e: Event, i: nat, ev: SessionOpen, stamp: Time, left: nat)
    requires cfg.host != "" && TTL(cfg) > 0.0 && ev.host == cfg.host && SysOk(s)
    requires Opening(cfg, s, i, ev, stamp, left) && left > 0
    requires Enabled(cfg, s, e) && OpenLeftAlone(s, e, ev.sid, left)
    ensures Opening(cfg, Next(cfg, s, e), i, ev, stamp, LeftAfter(e, i, left))
  {
    if e == Work(i) {
      OpeningOwn(cfg, s, i, ev, stamp, left);
    } else {
      OpenAtStep(cfg, s, e, i, Opener(cfg, ev, stamp, left), ev.sid, left);
    }
  }

  /** A run to the end of the open: its last command is the run's last step. */
  ghost predicate OpenLeftAloneRun(cfg: Config, s: Sys, es: seq<Event>, i: nat, sid: string, left: nat)
    decreases |es|
  {
    if left == 0 then es == []
    else
      && es != [] && OpenLeftAlone(s, es[0], sid, left)
      && OpenLeftAloneRun(cfg, Next(cfg, s, es[0]), es[1..], i, sid, LeftAfter(es[0], i, left))
  }

  /** However its three commands interleave with others and with the clock, an open of a session
      of this host leaves the session so. */
  lemma {:induction false} OpenLeadsThere(cfg: Config, s: Sys, es: seq<Event>, i: nat, ev: SessionOpen, stamp: Time,
                                          left: nat)
    requires cfg.host != "" && TTL(cfg) > 0.0 && ev.host == cfg.host && SysOk(s)
    requires Opening(cfg, s, i, ev, stamp, left) && Valid(cfg, s, es) && OpenLeftAloneRun(cfg, s, es, i, ev.sid, left)
    ensures SysOk(Final(cfg, s, es)) && JustOpened(cfg, Final(cfg, s, es), ev.sid)
    decreases |es|
  {
    if left > 0 {
      OpeningStep(cfg, s, es[0], i, ev, stamp, left);
      SysOkStep(cfg, s, es[0]);
      OpenLeadsThere(cfg, Next(cfg, s, es[0]), es[1..], i, ev, stamp, LeftAfter(es[0], i, left));
    } else {
      forall v | v in s.workers && v.Running?
        ensures AllGentle(cfg, v.todo, ev.sid)
      {
        var j :| 0 <= j < |s.workers| && s.workers[j] == v;
      }
    }
  }

  /** An open from this host, sent in one go, makes the session so. */
  lemma OpenMakesPresent(cfg: Config, db: Db, ev: SessionOpen, stamp: Time)
    requires ev.host == cfg.host && TTL(cfg) > 0.0
    ensures var d := Run(db, OpenPipeline(cfg.store, ev, stamp));
            Present(cfg, d, ev.sid) && ExpiryOf(d, ev.sid) == d.now + TTL(cfg) && d.zset[ev.sid] == stamp
  {
    OpenEffect(db, cfg.store, ev, stamp);
    OpenFieldsHost(ev, stamp);
  }

  lemma OpenFieldsHost(ev: SessionOpen, stamp: Time)
    ensures "host" in OpenFields(ev, stamp) && OpenFields(ev, stamp)["host"] == Text(ev.host)
  {
    assert |"host"| == 4 && |"pid"| == 3 && |"transcript_path"| == 15 && |"opened_at"| == 9 && |"last_seen"| == 9;
  }

  /** From then on, trusting the environment, the session is in the listing at every instant of
      the run exactly when at every successful sweep the last score given to it since the refresh
      touched it, if there is one, is above the cutoff. */
  lemma LiveSessionListedIff(cfg: Config, s: Sys, es: seq<Event>, sid: string)
    requires cfg.host != "" && TTL(cfg) > 0.0 && SysOk(s) && JustOpened(cfg, s, sid)
    requires Valid(cfg, s, es) && TrustedRun(cfg, StartWatch(cfg, s, sid), s, es, sid)
    ensures AlwaysListed(cfg, s, es, sid) <==> SparedRun(cfg, StartWatch(cfg, s, sid), s, es, sid)
  {
    LiveRun(cfg, StartWatch(cfg, s, sid), s, es, sid);
  }

  /** In particular at the end. `es` is any run from there, so every reachable state is its end. */
  lemma LiveSessionNeverLost(cfg: Config, s: Sys, es: seq<Event>, sid: string)
    requires cfg.host != "" && TTL(cfg) > 0.0 && SysOk(s) && JustOpened(cfg, s, sid)
    requires Valid(cfg, s, es) && TrustedRun(cfg, StartWatch(cfg, s, sid), s, es, sid)
    requires SparedRun(cfg, StartWatch(cfg, s, sid), s, es, sid)
    ensures AlwaysListed(cfg, s, es, sid) && Listed(Final(cfg, s, es).db, sid)
  {
    LiveSessionListedIff(cfg, s, es, sid);
    ListedToTheEnd(cfg, s, es, sid);
  }

  /** One way not to be spared: an activity scored at or below the cutoff of a sweep that
      is under way evicts its session, alive or not. */
  lemma StaleActivityEvicts(cfg: Config, s: Sys, i: nat, sid: string, ts: Time)
    requires s.ticker.Sweeping? && i < |s.workers| && s.workers[i].Running? && s.workers[i].todo != []
    requires s.workers[i].todo[0] == ZAdd(sid, ts) && ts <= s.ticker.cutoff
    ensures Valid(cfg, s, [Work(i), TickSweep(true)])
    ensures sid !in Final(cfg, s, [Work(i), TickSweep(true)]).db.zset
  {
    var s1 := Next(cfg, s, Work(i));
    var s2 := Next(cfg, s1, TickSweep(true));
    assert [Work(i), TickSweep(true)][1..] == [TickSweep(true)] && [TickSweep(true)][1..] == [];
    assert Final(cfg, s, [Work(i), TickSweep(true)]) == Final(cfg, s1, [TickSweep(true)]) == Final(cfg, s2, []) == s2;
    assert Valid(cfg, s2, []);
    assert Valid(cfg, s1, [TickSweep(true)]);
  }
}
