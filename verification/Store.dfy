/** The session and activity operations of the store: for each one the pipeline it
    sends, what the pipeline amounts to, and the method that builds and sends it. */
module Store {
  import opened Events
  import opened Wrappers
  import opened Keys
  import opened Redis

  datatype StoreConfig = StoreConfig(
    sessionTTL: int,
    activityPerSessTTL: int,
    activityGlobalTTL: int,
    activityRingSize: int,
    globalRingSize: int)

  function DefaultConfig(): StoreConfig {
    StoreConfig(600, 600, 1800, 50, 200)
  }

  function Seconds(n: int): Time {
    n as real * 1000.0
  }

  const GRACE_SECONDS := 5

  datatype SessionView = SessionView(
    id: string, cwd: string, gitBranch: string, host: string, transcriptPath: string,
    pid: int, openedAtMs: Time, lastSeenMs: Time)

  function TextField(h: map<string, Val>, field: string): string {
    if field in h && h[field].Text? then h[field].text else ""
  }

  function StampField(h: map<string, Val>, field: string): Time {
    if field in h && h[field].Stamp? then h[field].at else 0.0
  }

  function PidField(h: map<string, Val>): int {
    if "pid" in h && h["pid"].Pid? then h["pid"].pid else 0
  }

  function ViewFromHash(sid: string, h: map<string, Val>): SessionView {
    SessionView(sid, TextField(h, "cwd"), TextField(h, "git_branch"), TextField(h, "host"),
                TextField(h, "transcript_path"), PidField(h), StampField(h, "opened_at"), StampField(h, "last_seen"))
  }

  // ---- the pipelines ----

  /** An open without a timestamp is stamped by the store's own clock. */
  function OpenStamp(ev: SessionOpen, clock: Time): Time {
    if ev.ts == 0.0 then clock else ev.ts
  }

  function OpenFields(ev: SessionOpen, stamp: Time): map<string, Val> {
    map["session_id" := Text(ev.sid), "cwd" := Text(ev.cwd), "git_branch" := Text(ev.gitBranch),
        "host" := Text(ev.host), "pid" := Pid(ev.pid), "transcript_path" := Text(ev.transcriptPath),
        "opened_at" := Stamp(stamp), "last_seen" := Stamp(stamp)]
  }

  function OpenPipeline(cfg: StoreConfig, ev: SessionOpen, stamp: Time): seq<Cmd> {
    var key := SessionKey(ev.sid);
    [HSet(key, OpenFields(ev, stamp)), ExpireHash(key, Seconds(cfg.sessionTTL)), ZAdd(ev.sid, stamp)]
  }

  function TouchPipeline(cfg: StoreConfig, sid: string, lastSeen: Time): seq<Cmd> {
    var key := SessionKey(sid);
    [HSet(key, map["last_seen" := Stamp(lastSeen)]), ExpireHash(key, Seconds(cfg.sessionTTL)), ZAdd(sid, lastSeen)]
  }

  function TouchOrCreatePipeline(cfg: StoreConfig, sid: string, lastSeen: Time, cwd: string): seq<Cmd> {
    var key := SessionKey(sid);
    [HSetNX(key, "session_id", Text(sid)), HSetNX(key, "cwd", Text(cwd)), HSetNX(key, "opened_at", Stamp(lastSeen)),
     HSet(key, map["last_seen" := Stamp(lastSeen)]), ExpireHash(key, Seconds(cfg.sessionTTL)), ZAdd(sid, lastSeen)]
  }

  function ClosePipeline(sid: string): seq<Cmd> {
    [ZRem(sid), ExpireHash(SessionKey(sid), Seconds(GRACE_SECONDS))]
  }

  function RingPipeline(key: string, ev: Activity, size: int, ttl: int): seq<Cmd> {
    [LPush(key, ev), LTrim(key, size - 1), ExpireList(key, Seconds(ttl))]
  }

  function MinimalFields(ev: Activity): map<string, Val> {
    map["session_id" := Text(ev.sid), "cwd" := Text(ev.cwd), "last_seen" := Stamp(ev.ts)]
  }

  function PushPipeline(cfg: StoreConfig, ev: Activity, hashExists: bool): seq<Cmd> {
    var key := SessionKey(ev.sid);
    (if hashExists
     then RingPipeline(ActivityKey(ev.sid), ev, cfg.activityRingSize, cfg.activityPerSessTTL)
          + [HSet(key, map["last_seen" := Stamp(ev.ts)])]
     else [HSet(key, MinimalFields(ev))])
    + [ExpireHash(key, Seconds(cfg.sessionTTL)), ZAdd(ev.sid, ev.ts)]
    + RingPipeline(ACTIVITY_GLOBAL_KEY, ev, cfg.globalRingSize, cfg.activityGlobalTTL)
  }

  // ---- what the pipelines amount to ----

  /** The Hash of `sid` takes `fields` over what it holds and gets a fresh time to
      live, and `sid` is an active member scored `score`. */
  function Register(db: Db, sid: string, fields: map<string, Val>, ttl: Time, score: Time): Db {
    var key := SessionKey(sid);
    db.(hashes := if ttl <= 0.0 then db.hashes - {key}
                  else db.hashes[key := Hash(FieldsAt(db, key) + fields, Some(db.now + ttl))],
        zset := db.zset[sid := score])
  }

  /** One ring after a push: the item in front, the tail cut, a fresh time to live. */
  function PushRing(db: Db, key: string, ev: Activity, size: int, ttl: int): Db {
    var items := Upto([ev] + ItemsAt(db, key), size - 1);
    db.(lists := if items == [] || Seconds(ttl) <= 0.0 then db.lists - {key}
                 else db.lists[key := List(items, Some(db.now + Seconds(ttl)))])
  }

  lemma OpenEffect(db: Db, cfg: StoreConfig, ev: SessionOpen, stamp: Time)
    ensures Run(db, OpenPipeline(cfg, ev, stamp)) ==
            Register(db, ev.sid, OpenFields(ev, stamp), Seconds(cfg.sessionTTL), stamp)
  {
    RegisterEffect(db, ev.sid, OpenFields(ev, stamp), Seconds(cfg.sessionTTL), stamp);
  }

  lemma TouchEffect(db: Db, cfg: StoreConfig, sid: string, lastSeen: Time)
    ensures Run(db, TouchPipeline(cfg, sid, lastSeen)) ==
            Register(db, sid, map["last_seen" := Stamp(lastSeen)], Seconds(cfg.sessionTTL), lastSeen)
  {
    RegisterEffect(db, sid, map["last_seen" := Stamp(lastSeen)], Seconds(cfg.sessionTTL), lastSeen);
  }

  /** The shape shared by every registering pipeline. */
  lemma RegisterEffect(db: Db, sid: string, fields: map<string, Val>, ttl: Time, score: Time)
    ensures var key := SessionKey(sid);
            Run(db, [HSet(key, fields), ExpireHash(key, ttl), ZAdd(sid, score)])
              == Register(db, sid, fields, ttl, score)
  {
    var key := SessionKey(sid);
    var d0 := Apply(db, HSet(key, fields));
    RunThree(db, HSet(key, fields), ExpireHash(key, ttl), ZAdd(sid, score));
    assert d0.hashes - {key} == db.hashes - {key};
  }

  /** Fields a Hash gains when seeded without overwriting. */
  function SeedFields(held: map<string, Val>, sid: string, stamp: Time, cwd: string): map<string, Val> {
    map["opened_at" := Stamp(stamp)] + (map["cwd" := Text(cwd)] + (map["session_id" := Text(sid)] + held))
  }

  lemma TouchOrCreateEffect(db: Db, cfg: StoreConfig, sid: string, lastSeen: Time, cwd: string)
    ensures Run(db, TouchOrCreatePipeline(cfg, sid, lastSeen, cwd)) ==
            Register(db, sid, SeedFields(FieldsAt(db, SessionKey(sid)), sid, lastSeen, cwd)
              + map["last_seen" := Stamp(lastSeen)],
                     Seconds(cfg.sessionTTL), lastSeen)
  {
    var key := SessionKey(sid);
    var seeds := [HSetNX(key, "session_id", Text(sid)), HSetNX(key, "cwd", Text(cwd)),
        HSetNX(key, "opened_at", Stamp(lastSeen))];
    var seen := map["last_seen" := Stamp(lastSeen)];
    var ttl := Seconds(cfg.sessionTTL);
    var fields := SeedFields(FieldsAt(db, key), sid, lastSeen, cwd);
    var d := WithFields(db, key, fields);
    assert TouchOrCreatePipeline(cfg, sid, lastSeen, cwd) == seeds
           + [HSet(key, seen), ExpireHash(key, ttl), ZAdd(sid, lastSeen)];
    RunConcat(db, seeds, [HSet(key, seen), ExpireHash(key, ttl), ZAdd(sid, lastSeen)]);
    RegisterEffect(d, sid, seen, ttl, lastSeen);
    SeedEffect(db, sid, lastSeen, cwd);
    SeedKeeps(FieldsAt(db, key), sid, lastSeen, cwd);
    ReRegister(db, sid, fields, seen, ttl, lastSeen);
  }

  lemma SeedKeeps(held: map<string, Val>, sid: string, stamp: Time, cwd: string)
    ensures held.Keys <= SeedFields(held, sid, stamp, cwd).Keys
  {
  }

  lemma ReRegister(db: Db, sid: string, f: map<string, Val>, g: map<string, Val>, ttl: Time, score: Time)
    requires FieldsAt(db, SessionKey(sid)).Keys <= f.Keys
    ensures Register(WithFields(db, SessionKey(sid), f), sid, g, ttl, score) == Register(db, sid, f + g, ttl, score)
  {
    var key := SessionKey(sid);
    assert FieldsAt(db, key) + (f + g) == f + g;
    assert WithFields(db, key, f).hashes - {key} == db.hashes - {key};
  }

  function WithFields(db: Db, key: string, fields: map<string, Val>): Db {
    db.(hashes := db.hashes[key := Hash(fields, HashExpiryAt(db, key))])
  }

  lemma HSetNXEffect(db: Db, key: string, field: string, val: Val)
    ensures Apply(db, HSetNX(key, field, val)) == WithFields(db, key, map[field := val] + FieldsAt(db, key))
  {
    if field in FieldsAt(db, key) {
      assert map[field := val] + FieldsAt(db, key) == FieldsAt(db, key);
      assert db.hashes[key := Hash(FieldsAt(db, key), HashExpiryAt(db, key))] == db.hashes;
    } else {
      assert map[field := val] + FieldsAt(db, key) == FieldsAt(db, key)[field := val];
    }
  }

  lemma WithFieldsTwice(db: Db, key: string, f0: map<string, Val>, f1: map<string, Val>)
    ensures WithFields(WithFields(db, key, f0), key, f1) == WithFields(db, key, f1)
    ensures FieldsAt(WithFields(db, key, f0), key) == f0
  {
  }

  lemma SeedEffect(db: Db, sid: string, stamp: Time, cwd: string)
    ensures var key := SessionKey(sid);
            Run(db, [HSetNX(key, "session_id", Text(sid)), HSetNX(key, "cwd", Text(cwd)),
              HSetNX(key, "opened_at", Stamp(stamp))])
            == WithFields(db, key, SeedFields(FieldsAt(db, key), sid, stamp, cwd))
  {
    SeedThree(db, SessionKey(sid), "session_id", Text(sid), "cwd", Text(cwd), "opened_at", Stamp(stamp));
  }

  lemma SeedThree(db: Db, key: string, a: string, va: Val, b: string, vb: Val, c: string, vc: Val)
    ensures Run(db, [HSetNX(key, a, va), HSetNX(key, b, vb), HSetNX(key, c, vc)])
            == WithFields(db, key, map[c := vc] + (map[b := vb] + (map[a := va] + FieldsAt(db, key))))
  {
    var f1 := map[a := va] + FieldsAt(db, key);
    var f2 := map[b := vb] + f1;
    var d1, d2 := WithFields(db, key, f1), WithFields(db, key, f2);
    RunThree(db, HSetNX(key, a, va), HSetNX(key, b, vb), HSetNX(key, c, vc));
    HSetNXEffect(db, key, a, va);
    HSetNXEffect(d1, key, b, vb);
    HSetNXEffect(d2, key, c, vc);
    WithFieldsTwice(db, key, f1, f2);
    WithFieldsTwice(db, key, f2, map[c := vc] + f2);
  }

  lemma RunThree(db: Db, c0: Cmd, c1: Cmd, c2: Cmd)
    ensures Run(db, [c0, c1, c2]) == Apply(Apply(Apply(db, c0), c1), c2)
  {
    assert [c0, c1, c2][1..] == [c1, c2] && [c1, c2][1..] == [c2] && [c2][1..] == [];
    assert Run(db, [c0, c1, c2]) == Run(Apply(db, c0), [c1, c2]) == Run(Apply(Apply(db, c0), c1), [c2])
        == Run(Apply(Apply(Apply(db, c0), c1), c2), []);
  }

  lemma CloseEffect(db: Db, sid: string)
    ensures var key := SessionKey(sid);
            Run(db, ClosePipeline(sid)) ==
            db.(zset := db.zset - {sid},
                hashes := if key in db.hashes
                          then db.hashes[key := db.hashes[key].(expiry := Some(db.now + Seconds(GRACE_SECONDS)))]
                          else db.hashes)
  {
    var c0, c1 := ZRem(sid), ExpireHash(SessionKey(sid), Seconds(GRACE_SECONDS));
    assert [c0, c1][1..] == [c1] && [c1][1..] == [];
    assert Run(db, [c0, c1]) == Run(Apply(db, c0), [c1]) == Run(Apply(Apply(db, c0), c1), []);
  }

  lemma RingEffect(db: Db, key: string, ev: Activity, size: int, ttl: int)
    ensures Run(db, RingPipeline(key, ev, size, ttl)) == PushRing(db, key, ev, size, ttl)
  {
    var d0 := Apply(db, LPush(key, ev));
    RunThree(db, LPush(key, ev), LTrim(key, size - 1), ExpireList(key, Seconds(ttl)));
    assert d0.lists - {key} == db.lists - {key};
  }

  function PushFields(ev: Activity, hashExists: bool): map<string, Val> {
    if hashExists then map["last_seen" := Stamp(ev.ts)] else MinimalFields(ev)
  }

  /** The commands of `Register`. */
  function RegisterPipeline(sid: string, fields: map<string, Val>, ttl: Time, score: Time): seq<Cmd> {
    [HSet(SessionKey(sid), fields), ExpireHash(SessionKey(sid), ttl), ZAdd(sid, score)]
  }

  function OwnRingPipeline(cfg: StoreConfig, ev: Activity, hashExists: bool): seq<Cmd> {
    if hashExists then RingPipeline(ActivityKey(ev.sid), ev, cfg.activityRingSize, cfg.activityPerSessTTL) else []
  }

  function GlobalRingPipeline(cfg: StoreConfig, ev: Activity): seq<Cmd> {
    RingPipeline(ACTIVITY_GLOBAL_KEY, ev, cfg.globalRingSize, cfg.activityGlobalTTL)
  }

  /** The commands of a push: its own ring, its registration, the global ring. */
  lemma PushParts(cfg: StoreConfig, ev: Activity, hashExists: bool)
    ensures PushPipeline(cfg, ev, hashExists) ==
            OwnRingPipeline(cfg, ev, hashExists)
            + (RegisterPipeline(ev.sid, PushFields(ev, hashExists), Seconds(cfg.sessionTTL), ev.ts)
               + GlobalRingPipeline(cfg, ev))
  {
  }

  /** A push registers the session, and pushes to its ring only when the Hash was
      found, but always to the global ring. */
  lemma PushEffect(db: Db, cfg: StoreConfig, ev: Activity, hashExists: bool)
    ensures var own := if hashExists
                       then PushRing(db, ActivityKey(ev.sid), ev, cfg.activityRingSize, cfg.activityPerSessTTL)
                       else db;
            var seen := Register(own, ev.sid, PushFields(ev, hashExists), Seconds(cfg.sessionTTL), ev.ts);
            Run(db, PushPipeline(cfg, ev, hashExists)) ==
            PushRing(seen, ACTIVITY_GLOBAL_KEY, ev, cfg.globalRingSize, cfg.activityGlobalTTL)
  {
    var own, tail := OwnRingPipeline(cfg, ev, hashExists), GlobalRingPipeline(cfg, ev);
    var mid := RegisterPipeline(ev.sid, PushFields(ev, hashExists), Seconds(cfg.sessionTTL), ev.ts);
    PushParts(cfg, ev, hashExists);
    RunConcat(db, own, mid + tail);
    if hashExists {
      RingEffect(db, ActivityKey(ev.sid), ev, cfg.activityRingSize, cfg.activityPerSessTTL);
    }
    var d := Run(db, own);
    RunConcat(d, mid, tail);
    RegisterEffect(d, ev.sid, PushFields(ev, hashExists), Seconds(cfg.sessionTTL), ev.ts);
    RingEffect(Run(d, mid), ACTIVITY_GLOBAL_KEY, ev, cfg.globalRingSize, cfg.activityGlobalTTL);
  }

  /** What an open writes is what a reader of the session then sees, field by field. */
  lemma OpenViewRoundTrip(db: Db, cfg: StoreConfig, ev: SessionOpen, stamp: Time)
    requires cfg.sessionTTL > 0
    ensures var d := Run(db, OpenPipeline(cfg, ev, stamp));
            && Listed(d, ev.sid)
            && ViewFromHash(ev.sid, FieldsAt(d, SessionKey(ev.sid))) ==
               SessionView(ev.sid, ev.cwd, ev.gitBranch, ev.host, ev.transcriptPath, ev.pid, stamp, stamp)
  {
    OpenEffect(db, cfg, ev, stamp);
    OpenFieldsRead(FieldsAt(db, SessionKey(ev.sid)), ev, stamp);
  }

  lemma OpenFieldsRead(held: map<string, Val>, ev: SessionOpen, stamp: Time)
    ensures ViewFromHash(ev.sid, held + OpenFields(ev, stamp)) ==
            SessionView(ev.sid, ev.cwd, ev.gitBranch, ev.host, ev.transcriptPath, ev.pid, stamp, stamp)
    ensures held + OpenFields(ev, stamp) != map[]
  {
    assert |"cwd"| == 3 && |"git_branch"| == 10 && |"host"| == 4 && |"pid"| == 3 && |"transcript_path"| == 15;
    assert |"opened_at"| == 9 && |"last_seen"| == 9 && "cwd"[0] != "pid"[0] && "opened_at"[0] != "last_seen"[0];
    assert "last_seen" in held + OpenFields(ev, stamp);
  }

  // ---- the operations, by what a reader of the data base sees ----

  /** The session is a member scored `at`, its Hash has that many seconds to live from now, and every
      other member and Hash is as it was. */
  ghost predicate Active(was: Db, d: Db, sid: string, at: Time, ttl: int) {
    && d.now == was.now && d.zset == was.zset[sid := at]
    && SameHashesBut(was, d, SessionKey(sid))
    && (SessionKey(sid) in d.hashes <==> ttl > 0)
    && (ttl > 0 ==> d.hashes[SessionKey(sid)].expiry == Some(was.now + ttl as real * 1000.0))
  }

  ghost predicate SameHashesBut(was: Db, d: Db, key: string) {
    forall k :: k != key ==> (k in d.hashes <==> k in was.hashes) && (k in d.hashes ==> d.hashes[k] == was.hashes[k])
  }

  /** Opened at `at`: so it is scored, and so its Hash says, twice; the view shows every field of the
      open. */
  ghost predicate Opened(was: Db, d: Db, ev: SessionOpen, at: Time, ttl: int) {
    && Active(was, d, ev.sid, at, ttl) && d.lists == was.lists
    && (ttl > 0 ==>
          && FieldsAt(d, SessionKey(ev.sid)) == FieldsAt(was, SessionKey(ev.sid)) + map[
               "session_id" := Text(ev.sid), "cwd" := Text(ev.cwd), "git_branch" := Text(ev.gitBranch),
               "host" := Text(ev.host), "pid" := Pid(ev.pid), "transcript_path" := Text(ev.transcriptPath),
               "opened_at" := Stamp(at), "last_seen" := Stamp(at)]
          && ViewFromHash(ev.sid, FieldsAt(d, SessionKey(ev.sid))) ==
             SessionView(ev.sid, ev.cwd, ev.gitBranch, ev.host, ev.transcriptPath, ev.pid, at, at))
  }

  /** Touched at `at`, and nothing else written. */
  ghost predicate Touched(was: Db, d: Db, sid: string, at: Time, ttl: int) {
    && Active(was, d, sid, at, ttl) && d.lists == was.lists
    && (ttl > 0 ==> FieldsAt(d, SessionKey(sid)) == FieldsAt(was, SessionKey(sid))["last_seen" := Stamp(at)])
  }

  /** Touched at `at`, what identifies the session added where it was missing. */
  ghost predicate Seeded(was: Db, d: Db, sid: string, at: Time, cwd: string, ttl: int) {
    var held, h := FieldsAt(was, SessionKey(sid)), FieldsAt(d, SessionKey(sid));
    && Active(was, d, sid, at, ttl) && d.lists == was.lists
    && (ttl > 0 ==>
          && h.Keys == held.Keys + {"session_id", "cwd", "opened_at", "last_seen"}
          && (forall f :: f in held && f != "last_seen" ==> h[f] == held[f])
          && h["last_seen"] == Stamp(at)
          && ("session_id" !in held ==> h["session_id"] == Text(sid))
          && ("cwd" !in held ==> h["cwd"] == Text(cwd))
          && ("opened_at" !in held ==> h["opened_at"] == Stamp(at)))
  }

  /** The ring has the activity in front of the newest others, `size` entries at most, and that many
      seconds to live from now. */
  predicate RingPushed(was: Db, d: Db, key: string, ev: Activity, size: int, ttl: int) {
    var before, items := ItemsAt(was, key), ItemsAt(d, key);
    size >= 1 && ttl > 0 ==>
      && |items| == (if |before| + 1 < size then |before| + 1 else size) && items[0] == ev
      && (forall i :: 0 < i < |items| ==> items[i] == before[i - 1])
      && ListExpiryAt(d, key) == Some(was.now + ttl as real * 1000.0)
  }

  predicate SameRing(was: Db, d: Db, key: string) {
    ItemsAt(d, key) == ItemsAt(was, key) && ListExpiryAt(d, key) == ListExpiryAt(was, key)
  }

  /** The session is active as of the activity, under a minimal Hash if it had none; the activity is
      in the global ring, and in the session's own ring if it had a Hash. */
  ghost predicate Pushed(was: Db, d: Db, ev: Activity, cfg: StoreConfig) {
    && Active(was, d, ev.sid, ev.ts, cfg.sessionTTL)
    && (cfg.sessionTTL > 0 ==> FieldsAt(d, SessionKey(ev.sid)) ==
                               if SessionKey(ev.sid) in was.hashes
                               then FieldsAt(was, SessionKey(ev.sid))["last_seen" := Stamp(ev.ts)]
                               else map["session_id" := Text(ev.sid), "cwd" := Text(ev.cwd),
                                 "last_seen" := Stamp(ev.ts)])
    && (ev.sid != "global" ==> BothPushed(was, d, ev, cfg, SessionKey(ev.sid) in was.hashes))
    && (forall k :: k != ActivityKey(ev.sid) && k != ACTIVITY_GLOBAL_KEY ==> SameRing(was, d, k))
  }

  predicate BothPushed(was: Db, d: Db, ev: Activity, cfg: StoreConfig, hashExists: bool) {
    && RingPushed(was, d, ACTIVITY_GLOBAL_KEY, ev, cfg.globalRingSize, cfg.activityGlobalTTL)
    && (hashExists ==> RingPushed(was, d, ActivityKey(ev.sid), ev, cfg.activityRingSize, cfg.activityPerSessTTL))
    && (!hashExists ==> SameRing(was, d, ActivityKey(ev.sid)))
  }

  lemma RegisterActive(db: Db, sid: string, fields: map<string, Val>, ttl: int, at: Time)
    ensures var d := Register(db, sid, fields, Seconds(ttl), at);
            && Active(db, d, sid, at, ttl) && d.lists == db.lists
            && (ttl > 0 ==> FieldsAt(d, SessionKey(sid)) == FieldsAt(db, SessionKey(sid)) + fields)
  {
  }

  lemma OpenOpens(db: Db, cfg: StoreConfig, ev: SessionOpen, clock: Time)
    ensures var d := Run(db, OpenPipeline(cfg, ev, OpenStamp(ev, clock)));
            && (ev.ts != 0.0 ==> Opened(db, d, ev, ev.ts, cfg.sessionTTL))
            && (ev.ts == 0.0 ==> Opened(db, d, ev, clock, cfg.sessionTTL))
  {
    var at := OpenStamp(ev, clock);
    OpenEffect(db, cfg, ev, at);
    RegisterActive(db, ev.sid, OpenFields(ev, at), cfg.sessionTTL, at);
    OpenFieldsRead(FieldsAt(db, SessionKey(ev.sid)), ev, at);
  }

  lemma TouchTouches(db: Db, cfg: StoreConfig, sid: string, at: Time)
    ensures Touched(db, Run(db, TouchPipeline(cfg, sid, at)), sid, at, cfg.sessionTTL)
  {
    TouchEffect(db, cfg, sid, at);
    RegisterActive(db, sid, map["last_seen" := Stamp(at)], cfg.sessionTTL, at);
  }

  lemma SeedsMissing(held: map<string, Val>, sid: string, at: Time, cwd: string)
    ensures var h := SeedFields(held, sid, at, cwd) + map["last_seen" := Stamp(at)];
            && h.Keys == held.Keys + {"session_id", "cwd", "opened_at", "last_seen"}
            && (forall f :: f in held && f != "last_seen" ==> h[f] == held[f])
            && h["last_seen"] == Stamp(at)
            && ("session_id" !in held ==> h["session_id"] == Text(sid))
            && ("cwd" !in held ==> h["cwd"] == Text(cwd))
            && ("opened_at" !in held ==> h["opened_at"] == Stamp(at))
            && held + h == h
  {
  }

  lemma TouchOrCreateSeeds(db: Db, cfg: StoreConfig, sid: string, at: Time, cwd: string)
    ensures Seeded(db, Run(db, TouchOrCreatePipeline(cfg, sid, at, cwd)), sid, at, cwd, cfg.sessionTTL)
  {
    var held := FieldsAt(db, SessionKey(sid));
    TouchOrCreateEffect(db, cfg, sid, at, cwd);
    SeedsMissing(held, sid, at, cwd);
    RegisterActive(db, sid, SeedFields(held, sid, at, cwd) + map["last_seen" := Stamp(at)], cfg.sessionTTL, at);
  }

  lemma PushRingPushes(db: Db, key: string, ev: Activity, size: int, ttl: int)
    ensures var d := PushRing(db, key, ev, size, ttl);
            && RingPushed(db, d, key, ev, size, ttl) && d == db.(lists := d.lists)
            && forall k :: k != key ==> SameRing(db, d, k)
  {
    var items := Upto([ev] + ItemsAt(db, key), size - 1);
    assert size >= 1 ==> items != [] && items[0] == ev;
  }

  /** The rings after a push, with the session registered in between. */
  lemma PushedRings(db: Db, own: Db, seen: Db, cfg: StoreConfig, ev: Activity, hashExists: bool)
    requires own == if hashExists
                    then PushRing(db, ActivityKey(ev.sid), ev, cfg.activityRingSize, cfg.activityPerSessTTL)
                    else db
    requires seen.lists == own.lists && seen.now == own.now
    ensures var d := PushRing(seen, ACTIVITY_GLOBAL_KEY, ev, cfg.globalRingSize, cfg.activityGlobalTTL);
            && (ev.sid != "global" ==> BothPushed(db, d, ev, cfg, hashExists))
            && forall k :: k != ActivityKey(ev.sid) && k != ACTIVITY_GLOBAL_KEY ==> SameRing(db, d, k)
  {
    var d := PushRing(seen, ACTIVITY_GLOBAL_KEY, ev, cfg.globalRingSize, cfg.activityGlobalTTL);
    PushRingPushes(db, ActivityKey(ev.sid), ev, cfg.activityRingSize, cfg.activityPerSessTTL);
    PushRingPushes(seen, ACTIVITY_GLOBAL_KEY, ev, cfg.globalRingSize, cfg.activityGlobalTTL);
    if ev.sid != "global" {
      assert ActivityKey(ev.sid) != ACTIVITY_GLOBAL_KEY by {
        KeysSeparate(ev.sid, ev.sid);
      }
      RingCarried(db, own, seen, d, ActivityKey(ev.sid), ACTIVITY_GLOBAL_KEY, ev);
    }
  }

  /** Pushes to two rings, one after the other. */
  lemma RingCarried(db: Db, own: Db, seen: Db, d: Db, a: string, b: string, ev: Activity)
    requires SameRing(db, own, b) && seen.lists == own.lists && seen.now == own.now && SameRing(seen, d, a)
    requires own.now == db.now
    ensures forall size, ttl :: RingPushed(db, own, a, ev, size, ttl) ==> RingPushed(db, d, a, ev, size, ttl)
    ensures forall size, ttl :: RingPushed(seen, d, b, ev, size, ttl) ==> RingPushed(db, d, b, ev, size, ttl)
    ensures SameRing(db, own, a) ==> SameRing(db, d, a)
  {
  }

  /** Lists do not matter to who is active. */
  lemma ActiveDespite(was: Db, d: Db, was': Db, d': Db, sid: string, at: Time, ttl: int)
    requires Active(was, d, sid, at, ttl) && was' == was.(lists := was'.lists) && d' == d.(lists := d'.lists)
    ensures Active(was', d', sid, at, ttl)
    ensures FieldsAt(d', SessionKey(sid)) == FieldsAt(d, SessionKey(sid))
    ensures FieldsAt(was', SessionKey(sid)) == FieldsAt(was, SessionKey(sid))
  {
  }

  lemma PushPushes(db: Db, cfg: StoreConfig, ev: Activity)
    ensures Pushed(db, Run(db, PushPipeline(cfg, ev, SessionKey(ev.sid) in db.hashes)), ev, cfg)
  {
    var hashExists := SessionKey(ev.sid) in db.hashes;
    var own := if hashExists
               then PushRing(db, ActivityKey(ev.sid), ev, cfg.activityRingSize, cfg.activityPerSessTTL)
               else db;
    var seen := Register(own, ev.sid, PushFields(ev, hashExists), Seconds(cfg.sessionTTL), ev.ts);
    var d := PushRing(seen, ACTIVITY_GLOBAL_KEY, ev, cfg.globalRingSize, cfg.activityGlobalTTL);
    PushEffect(db, cfg, ev, hashExists);
    RegisterActive(own, ev.sid, PushFields(ev, hashExists), cfg.sessionTTL, ev.ts);
    ActiveDespite(own, seen, db, d, ev.sid, ev.ts, cfg.sessionTTL);
    PushedRings(db, own, seen, cfg, ev, hashExists);
    PushFieldsRead(FieldsAt(db, SessionKey(ev.sid)), ev, hashExists);
  }

  lemma PushFieldsRead(held: map<string, Val>, ev: Activity, hashExists: bool)
    requires !hashExists ==> held == map[]
    ensures held + PushFields(ev, hashExists) ==
            if hashExists then held["last_seen" := Stamp(ev.ts)]
            else map["session_id" := Text(ev.sid), "cwd" := Text(ev.cwd), "last_seen" := Stamp(ev.ts)]
  {
  }

  // ---- listings ----

  /** What `ListActiveSessions` shows of a session: a member whose Hash is gone is skipped. */
  predicate Listed(db: Db, sid: string) {
    sid in db.zset && FieldsAt(db, SessionKey(sid)) != map[]
  }

  function ViewsOf(db: Db, members: seq<string>): seq<SessionView> {
    if members == [] then []
    else
      var h := FieldsAt(db, SessionKey(members[|members| - 1]));
      ViewsOf(db, members[..|members| - 1])
      + if h == map[] then [] else [ViewFromHash(members[|members| - 1], h)]
  }

  ghost predicate IsListing(db: Db, views: seq<SessionView>) {
    exists members :: ByScore(members, db.zset) && views == ViewsOf(db, members)
  }

  /** A listing shows exactly the listed sessions, once each and as their Hash says. */
  lemma ListingExact(db: Db, views: seq<SessionView>)
    requires IsListing(db, views)
    ensures forall sid :: Listed(db, sid) <==> exists v :: v in views && v.id == sid
    ensures forall v :: v in views ==> v == ViewFromHash(v.id, FieldsAt(db, SessionKey(v.id)))
    ensures forall i, j :: 0 <= i < j < |views| ==> views[i].id != views[j].id
    ensures forall i, j :: 0 <= i < j < |views| ==>
              views[i].id in db.zset && views[j].id in db.zset && db.zset[views[i].id] <= db.zset[views[j].id]
  {
    var members :| ByScore(members, db.zset) && views == ViewsOf(db, members);
    ViewsExact(db, members);
    forall sid
      ensures Listed(db, sid) <==> exists v :: v in views && v.id == sid
    {
      if Listed(db, sid) {
        assert ViewFromHash(sid, FieldsAt(db, SessionKey(sid))) in views;
      }
    }
  }

  lemma {:induction false} ViewsExact(db: Db, members: seq<string>)
    requires forall m :: m in members ==> m in db.zset
    requires forall i, j :: 0 <= i < j < |members| ==> members[i] != members[j]
    requires forall i, j :: 0 <= i < j < |members| ==> db.zset[members[i]] <= db.zset[members[j]]
    ensures var views := ViewsOf(db, members);
            && (forall m :: m in members && FieldsAt(db, SessionKey(m)) != map[] ==>
                  ViewFromHash(m, FieldsAt(db, SessionKey(m))) in views)
            && (forall v :: v in views ==>
                  && v.id in members && FieldsAt(db, SessionKey(v.id)) != map[]
                  && v == ViewFromHash(v.id, FieldsAt(db, SessionKey(v.id))))
            && (forall i, j :: 0 <= i < j < |views| ==> views[i].id != views[j].id)
            && (forall i, j :: 0 <= i < j < |views| ==> db.zset[views[i].id] <= db.zset[views[j].id])
  {
    if members != [] {
      var front, last := members[..|members| - 1], members[|members| - 1];
      ViewsExact(db, front);
      assert forall m :: m in members <==> m in front || m == last;
      assert last !in front;
    }
  }

  class RedisStore {
    const client: Client
    const cfg: StoreConfig

    constructor (client: Client, cfg: StoreConfig)
      ensures this.client == client && this.cfg == cfg
    {
      this.client, this.cfg := client, cfg;
    }

    method OpenSession(ev: SessionOpen, clock: Time)
      modifies client
      ensures var stamp := OpenStamp(ev, clock);
              client.Contents()
                == Register(old(client.Contents()), ev.sid, OpenFields(ev, stamp), Seconds(cfg.sessionTTL), stamp)
      ensures ev.ts != 0.0 ==> Opened(old(client.Contents()), client.Contents(), ev, ev.ts, cfg.sessionTTL)
      ensures ev.ts == 0.0 ==> Opened(old(client.Contents()), client.Contents(), ev, clock, cfg.sessionTTL)
    {
      OpenOpens(client.Contents(), cfg, ev, clock);
      var key := SessionKey(ev.sid);
      var now := ev.ts;
      if now == 0.0 {
        now := clock;
      }
      var pipe := [];
      pipe := pipe + [HSet(key, OpenFields(ev, now))];
      pipe := pipe + [ExpireHash(key, Seconds(cfg.sessionTTL))];
      pipe := pipe + [ZAdd(ev.sid, now)];
      OpenEffect(client.Contents(), cfg, ev, now);
      assert pipe == OpenPipeline(cfg, ev, now);
      client.Exec(pipe);
    }

    method TouchSession(sid: string, lastSeenMs: Time)
      modifies client
      ensures client.Contents() == Register(old(client.Contents()), sid, map["last_seen" := Stamp(lastSeenMs)],
                                            Seconds(cfg.sessionTTL), lastSeenMs)
      ensures Touched(old(client.Contents()), client.Contents(), sid, lastSeenMs, cfg.sessionTTL)
    {
      TouchTouches(client.Contents(), cfg, sid, lastSeenMs);
      var key := SessionKey(sid);
      var pipe := [];
      pipe := pipe + [HSet(key, map["last_seen" := Stamp(lastSeenMs)])];
      pipe := pipe + [ExpireHash(key, Seconds(cfg.sessionTTL))];
      pipe := pipe + [ZAdd(sid, lastSeenMs)];
      TouchEffect(client.Contents(), cfg, sid, lastSeenMs);
      assert pipe == TouchPipeline(cfg, sid, lastSeenMs);
      client.Exec(pipe);
    }

    method TouchOrCreateSession(sid: string, lastSeenMs: Time, cwd: string)
      modifies client
      ensures client.Contents() == Run(old(client.Contents()), TouchOrCreatePipeline(cfg, sid, lastSeenMs, cwd))
      ensures var was := FieldsAt(old(client.Contents()), SessionKey(sid));
              client.Contents() == Register(old(client.Contents()), sid,
                                            SeedFields(was, sid, lastSeenMs, cwd)
                                              + map["last_seen" := Stamp(lastSeenMs)],
                                            Seconds(cfg.sessionTTL), lastSeenMs)
      ensures Seeded(old(client.Contents()), client.Contents(), sid, lastSeenMs, cwd, cfg.sessionTTL)
    {
      TouchOrCreateSeeds(client.Contents(), cfg, sid, lastSeenMs, cwd);
      var key := SessionKey(sid);
      var pipe := [];
      pipe := pipe + [HSetNX(key, "session_id", Text(sid))];
      pipe := pipe + [HSetNX(key, "cwd", Text(cwd))];
      pipe := pipe + [HSetNX(key, "opened_at", Stamp(lastSeenMs))];
      pipe := pipe + [HSet(key, map["last_seen" := Stamp(lastSeenMs)])];
      pipe := pipe + [ExpireHash(key, Seconds(cfg.sessionTTL))];
      pipe := pipe + [ZAdd(sid, lastSeenMs)];
      TouchOrCreateEffect(client.Contents(), cfg, sid, lastSeenMs, cwd);
      assert pipe == TouchOrCreatePipeline(cfg, sid, lastSeenMs, cwd);
      client.Exec(pipe);
    }

    method CloseSession(sid: string)
      modifies client
      ensures client.Contents() == Run(old(client.Contents()), ClosePipeline(sid))
      ensures client.zset == old(client.zset) - {sid} && client.lists == old(client.lists)
      ensures client.hashes.Keys == old(client.hashes.Keys)
      ensures forall k :: k in client.hashes ==>
                client.hashes[k] == old(client.hashes)[k].(expiry :=
                  if k == SessionKey(sid) then Some(old(client.now) + 5000.0)
                  else old(client.hashes)[k].expiry)
    {
      var key := SessionKey(sid);
      var pipe := [];
      pipe := pipe + [ZRem(sid)];
      pipe := pipe + [ExpireHash(key, Seconds(GRACE_SECONDS))];
      CloseEffect(client.Contents(), sid);
      assert pipe == ClosePipeline(sid);
      client.Exec(pipe);
      assert client.zset == client.Contents().zset && client.hashes == client.Contents().hashes
             && client.lists == client.Contents().lists;
    }

    method GetSession(sid: string) returns (view: Option<SessionView>)
      ensures view.None? <==> FieldsAt(client.Contents(), SessionKey(sid)) == map[]
      ensures view.Some? ==> view.value == ViewFromHash(sid, FieldsAt(client.Contents(), SessionKey(sid)))
    {
      var result := client.HGetAll(SessionKey(sid));
      if result == map[] {
        return None;
      }
      view := Some(ViewFromHash(sid, result));
    }

    method ListActiveSessions() returns (views: seq<SessionView>)
      ensures IsListing(client.Contents(), views)
    {
      var members := client.ZRange();
      views := [];
      for i := 0 to |members|
        invariant views == ViewsOf(client.Contents(), members[..i])
      {
        assert members[..i + 1][..i] == members[..i] && members[..i + 1][i] == members[i];
        var view := GetSession(members[i]);
        if view.Some? {
          views := views + [view.value];
        }
      }
      assert members[..|members|] == members;
      assert ByScore(members, client.Contents().zset);
    }

    /** Every member scored `nowMs` and nobody added. The count reported is the number of members
        added, which a ZADD XX never does: it is that of the members touched only if there are none. */
    method TouchActiveSessions(nowMs: Time) returns (n: int)
      modifies client
      ensures client.zset == map m | m in old(client.zset) :: nowMs
      ensures client.Contents() == old(client.Contents()).(zset := client.zset)
      ensures n == 0
      ensures n == |old(client.zset)| <==> old(client.zset) == map[]
    {
      var members := client.ZRange();
      n := 0;
      if |members| > 0 {
        var zs: set<string> := {};
        for i := 0 to |members|
          invariant forall m :: m in zs <==> m in members[..i]
        {
          zs := zs + {members[i]};
        }
        client.Exec([ZAddXX(zs, nowMs)]);
        assert [ZAddXX(zs, nowMs)][1..] == [];
        assert client.Contents() == Apply(old(client.Contents()), ZAddXX(zs, nowMs));
        assert client.zset == client.Contents().zset;
      } else {
        assert forall m :: m in client.zset ==> m in members;
      }
    }

    /** Removes the members scored at or below the cutoff, the cutoff included. */
    method SweepExpired(cutoffMs: Time) returns (n: int)
      modifies client
      ensures client.zset == map m | m in old(client.zset) && cutoffMs < old(client.zset)[m] :: old(client.zset)[m]
      ensures client.Contents() == old(client.Contents()).(zset := client.zset)
      ensures n == |set m | m in old(client.zset) && old(client.zset)[m] <= cutoffMs|
    {
      n := |set m | m in client.zset && client.zset[m] <= cutoffMs|;
      client.Exec([ZRemRange(cutoffMs)]);
      assert [ZRemRange(cutoffMs)][1..] == [];
      assert client.Contents() == Apply(old(client.Contents()), ZRemRange(cutoffMs));
      assert client.zset == client.Contents().zset;
    }

    /** Registers the session, under a minimal Hash if it had none, and pushes to the global ring;
        to the session's own ring only if its Hash was there. */
    method PushActivity(ev: Activity)
      modifies client
      ensures client.Contents() ==
              Run(old(client.Contents()), PushPipeline(cfg, ev, SessionKey(ev.sid) in old(client.hashes)))
      ensures var was, hashExists := old(client.Contents()), SessionKey(ev.sid) in old(client.hashes);
              var own := if hashExists
                         then PushRing(was, ActivityKey(ev.sid), ev, cfg.activityRingSize, cfg.activityPerSessTTL)
                         else was;
              client.Contents() ==
              PushRing(Register(own, ev.sid, PushFields(ev, hashExists), Seconds(cfg.sessionTTL), ev.ts),
                       ACTIVITY_GLOBAL_KEY, ev, cfg.globalRingSize, cfg.activityGlobalTTL)
      ensures Pushed(old(client.Contents()), client.Contents(), ev, cfg)
    {
      PushPushes(client.Contents(), cfg, ev);
      PushEffect(client.Contents(), cfg, ev, SessionKey(ev.sid) in client.hashes);
      var sessKey := SessionKey(ev.sid);
      var existsResult := client.Exists(sessKey);
      var hashExists := existsResult > 0;
      var pipe := [];
      if hashExists {
        var actKey := ActivityKey(ev.sid);
        pipe := pipe + [LPush(actKey, ev)];
        pipe := pipe + [LTrim(actKey, cfg.activityRingSize - 1)];
        pipe := pipe + [ExpireList(actKey, Seconds(cfg.activityPerSessTTL))];
        pipe := pipe + [HSet(sessKey, map["last_seen" := Stamp(ev.ts)])];
      } else {
        pipe := pipe + [HSet(sessKey, MinimalFields(ev))];
      }
      pipe := pipe + [ExpireHash(sessKey, Seconds(cfg.sessionTTL))];
      pipe := pipe + [ZAdd(ev.sid, ev.ts)];
      pipe := pipe + [LPush(ACTIVITY_GLOBAL_KEY, ev)];
      pipe := pipe + [LTrim(ACTIVITY_GLOBAL_KEY, cfg.globalRingSize - 1)];
      pipe := pipe + [ExpireList(ACTIVITY_GLOBAL_KEY, Seconds(cfg.activityGlobalTTL))];
      assert pipe == PushPipeline(cfg, ev, hashExists);
      client.Exec(pipe);
    }

    method RecentActivity(limit: int, sid: string) returns (result: seq<Activity>)
      ensures var key := if sid == "" then ACTIVITY_GLOBAL_KEY else ActivityKey(sid);
              var items := ItemsAt(client.Contents(), key);
              && result == Upto(items, limit - 1)
              && (limit >= 1 ==> result == if |items| > limit then items[..limit] else items)
              && (limit == 0 ==> result == items)
    {
      var key := if sid == "" then ACTIVITY_GLOBAL_KEY else ActivityKey(sid);
      var raw := client.LRange(key, limit - 1);
      result := [];
      for i := 0 to |raw|
        invariant result == raw[..i]
      {
        result := result + [raw[i]];
      }
    }
  }
}
