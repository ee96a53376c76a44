/** Messages handled one after another: what a whole history of them leaves in the
    store, whatever the clock does in between. */
module Messages {
  import opened Events
  import opened Wrappers
  import opened Keys
  import opened Redis
  import opened Store
  import opened Bridge

  datatype Timed = Timed(msg: Msg, at: Time)

  function Handled(db: Db, cfg: StoreConfig, m: Timed): Db {
    Deliver(Advance(db, m.at), cfg, m.msg, m.at)
  }

  function HandleAll(db: Db, cfg: StoreConfig, ms: seq<Timed>): Db {
    if ms == [] then db else Handled(HandleAll(db, cfg, ms[..|ms| - 1]), cfg, ms[|ms| - 1])
  }

  // ---- the last message decides ----

  function LastFor(ms: seq<Timed>, sid: string): Option<Timed> {
    if ms == [] then None
    else if MsgSid(ms[|ms| - 1].msg) == sid then Some(ms[|ms| - 1])
    else LastFor(ms[..|ms| - 1], sid)
  }

  function ScoreOf(m: Timed): Time
    requires !m.msg.CloseMsg?
  {
    match m.msg
    case OpenMsg(ev) => OpenStamp(ev, m.at)
    case ActivityMsg(_, ev) => ev.ts
  }

  lemma DeliverMembers(db: Db, cfg: StoreConfig, m: Timed)
    requires WellAddressed(m.msg)
    ensures Deliver(db, cfg, m.msg, m.at).zset ==
            if m.msg.CloseMsg? then db.zset - {MsgSid(m.msg)} else db.zset[MsgSid(m.msg) := ScoreOf(m)]
  {
    match m.msg
    case OpenMsg(ev) => OpenEffect(db, cfg, ev, OpenStamp(ev, m.at));
    case ActivityMsg(sid, ev) =>
      var hashExists := SessionKey(ev.sid) in db.hashes;
      PushEffect(db, cfg, ev, hashExists);
      TouchOrCreateEffect(Run(db, PushPipeline(cfg, ev, hashExists)), cfg, sid, ev.ts, ev.cwd);
    case CloseMsg(sid) => CloseEffect(db, sid);
  }

  /** Without sweeps, a session is active exactly when its last message was not a close,
      and its score is that message's timestamp. */
  lemma {:induction false} LastMessageDecides(db: Db, cfg: StoreConfig, ms: seq<Timed>, sid: string)
    requires forall m :: m in ms ==> WellAddressed(m.msg)
    ensures var d, last := HandleAll(db, cfg, ms), LastFor(ms, sid);
            && (sid in d.zset <==> if last.None? then sid in db.zset else !last.value.msg.CloseMsg?)
            && (sid in d.zset ==> d.zset[sid] == if last.None? then db.zset[sid] else ScoreOf(last.value))
    ensures var d, last := HandleAll(db, cfg, ms), LastFor(ms, sid);
            last.Some? && sid in d.zset ==>
              match last.value.msg
              case OpenMsg(ev) => d.zset[sid] == if ev.ts != 0.0 then ev.ts else last.value.at
              case ActivityMsg(_, ev) => d.zset[sid] == ev.ts
              case CloseMsg(_) => false
  {
    if ms != [] {
      var front, m := ms[..|ms| - 1], ms[|ms| - 1];
      LastMessageDecides(db, cfg, front, sid);
      DeliverMembers(Advance(HandleAll(db, cfg, front), m.at), cfg, m);
    }
  }

  // ---- redelivery ----

  /** The fields of the Hash of an activity's session once the activity is handled. */
  function ActiveFields(held: map<string, Val>, hashExists: bool, ev: Activity): map<string, Val> {
    SeedFields(held + PushFields(ev, hashExists), ev.sid, ev.ts, ev.cwd) + map["last_seen" := Stamp(ev.ts)]
  }

  /** The lists after an activity: its own ring only when its Hash was there. */
  function PushedLists(db: Db, cfg: StoreConfig, ev: Activity): map<string, List> {
    var own := if SessionKey(ev.sid) in db.hashes
               then PushRing(db, ActivityKey(ev.sid), ev, cfg.activityRingSize, cfg.activityPerSessTTL)
               else db;
    PushRing(own, ACTIVITY_GLOBAL_KEY, ev, cfg.globalRingSize, cfg.activityGlobalTTL).lists
  }

  /** An activity, start to finish: its session registered, its rings pushed. */
  lemma ActivityEffect(db: Db, cfg: StoreConfig, ev: Activity, clock: Time)
    requires Seconds(cfg.sessionTTL) > 0.0
    ensures var key := SessionKey(ev.sid);
            var h := Hash(ActiveFields(FieldsAt(db, key), key in db.hashes, ev),
                Some(db.now + Seconds(cfg.sessionTTL)));
            Deliver(db, cfg, ActivityMsg(ev.sid, ev), clock) ==
            Db(db.now, db.hashes[key := h], db.zset[ev.sid := ev.ts], PushedLists(db, cfg, ev))
  {
    var key, hashExists := SessionKey(ev.sid), SessionKey(ev.sid) in db.hashes;
    var ttl, pf := Seconds(cfg.sessionTTL), PushFields(ev, hashExists);
    var own := if hashExists
               then PushRing(db, ActivityKey(ev.sid), ev, cfg.activityRingSize, cfg.activityPerSessTTL)
               else db;
    var pushed := PushRing(Register(own, ev.sid, pf, ttl, ev.ts), ACTIVITY_GLOBAL_KEY, ev, cfg.globalRingSize,
        cfg.activityGlobalTTL);
    PushEffect(db, cfg, ev, hashExists);
    assert Run(db, PushPipeline(cfg, ev, hashExists)) == pushed;
    TouchOrCreateEffect(pushed, cfg, ev.sid, ev.ts, ev.cwd);
    RegisterPushRegister(db, own, cfg, ev, pf, SeedFields(FieldsAt(pushed, key), ev.sid, ev.ts, ev.cwd),
                         map["last_seen" := Stamp(ev.ts)], ttl);
    SeedKeeps(FieldsAt(pushed, key), ev.sid, ev.ts, ev.cwd);
  }

  /** Registered, pushed to the global ring and registered again. */
  lemma RegisterPushRegister(db: Db, own: Db, cfg: StoreConfig, ev: Activity,
                             f: map<string, Val>, g: map<string, Val>, last: map<string, Val>, ttl: Time)
    requires own == db.(lists := own.lists) && ttl > 0.0
    ensures var key := SessionKey(ev.sid);
            var pushed := PushRing(Register(own, ev.sid, f, ttl, ev.ts), ACTIVITY_GLOBAL_KEY, ev, cfg.globalRingSize,
                cfg.activityGlobalTTL);
            && FieldsAt(pushed, key) == FieldsAt(db, key) + f
            && ((FieldsAt(db, key) + f).Keys <= g.Keys ==>
                  Register(pushed, ev.sid, g + last, ttl, ev.ts) ==
                  Db(db.now, db.hashes[key := Hash(g + last, Some(db.now + ttl))], db.zset[ev.sid := ev.ts],
                     PushRing(own, ACTIVITY_GLOBAL_KEY, ev, cfg.globalRingSize, cfg.activityGlobalTTL).lists))
  {
    var key := SessionKey(ev.sid);
    if (FieldsAt(db, key) + f).Keys <= g.Keys {
      AbsorbLeft(FieldsAt(db, key) + f, g, last);
    }
  }

  lemma AbsorbLeft(held: map<string, Val>, f: map<string, Val>, g: map<string, Val>)
    requires held.Keys <= f.Keys
    ensures held + (f + g) == f + g
  {
  }

  /** Fields that handling the activity once more would leave as they are. */
  ghost predicate Settled(h: map<string, Val>, ts: Time) {
    {"session_id", "cwd", "opened_at", "last_seen"} <= h.Keys && h["last_seen"] == Stamp(ts)
  }

  lemma ActiveFieldsSettled(held: map<string, Val>, hashExists: bool, ev: Activity)
    ensures Settled(ActiveFields(held, hashExists, ev), ev.ts)
  {
  }

  lemma SeedSettled(h: map<string, Val>, sid: string, stamp: Time, cwd: string)
    requires {"session_id", "cwd", "opened_at"} <= h.Keys
    ensures SeedFields(h, sid, stamp, cwd) == h
  {
    assert map["session_id" := Text(sid)] + h == h;
    assert map["cwd" := Text(cwd)] + h == h;
    assert map["opened_at" := Stamp(stamp)] + h == h;
  }

  lemma SettledAgain(h: map<string, Val>, ev: Activity)
    requires Settled(h, ev.ts)
    ensures ActiveFields(h, true, ev) == h
  {
    var seen := map["last_seen" := Stamp(ev.ts)];
    assert h + seen == h;
    SeedSettled(h, ev.sid, ev.ts, ev.cwd);
  }

  /** Everything but `last_seen` as it was, and nothing of an identified session added. */
  ghost predicate Kept(held: map<string, Val>, now: map<string, Val>) {
    && (forall f :: f in held && f != "last_seen" ==> f in now && now[f] == held[f])
    && ({"session_id", "cwd", "opened_at"} <= held.Keys ==> now.Keys == held.Keys + {"last_seen"})
  }

  /** What an activity alone can tell about its session. */
  function Reseeded(ev: Activity): map<string, Val> {
    map["session_id" := Text(ev.sid), "cwd" := Text(ev.cwd), "opened_at" := Stamp(ev.ts), "last_seen" := Stamp(ev.ts)]
  }

  lemma KeptFields(held: map<string, Val>, ev: Activity)
    ensures Kept(held, ActiveFields(held, true, ev))
  {
    var seen := map["last_seen" := Stamp(ev.ts)];
    if {"session_id", "cwd", "opened_at"} <= held.Keys {
      SeedSettled(held + seen, ev.sid, ev.ts, ev.cwd);
      assert ActiveFields(held, true, ev) == (held + seen) + seen;
    }
  }

  lemma FreshFields(ev: Activity)
    ensures ActiveFields(map[], false, ev) == Reseeded(ev)
    ensures "host" !in ActiveFields(map[], false, ev)
  {
  }

  /** An activity, told by what becomes of its session's fields. */
  lemma ActivityOutcome(db: Db, cfg: StoreConfig, ev: Activity, clock: Time) returns (f: map<string, Val>)
    requires Seconds(cfg.sessionTTL) > 0.0
    ensures var key := SessionKey(ev.sid);
            && Deliver(db, cfg, ActivityMsg(ev.sid, ev), clock) ==
               Db(db.now, db.hashes[key := Hash(f, Some(db.now + Seconds(cfg.sessionTTL)))], db.zset[ev.sid := ev.ts],
                  PushedLists(db, cfg, ev))
            && Settled(f, ev.ts)
            && (key in db.hashes ==>
                  Kept(FieldsAt(db, key), f) && (Settled(FieldsAt(db, key), ev.ts) ==> f == FieldsAt(db, key)))
            && (key !in db.hashes ==> f == Reseeded(ev) && TextField(f, "host") == "")
  {
    var key := SessionKey(ev.sid);
    f := ActiveFields(FieldsAt(db, key), key in db.hashes, ev);
    ActivityEffect(db, cfg, ev, clock);
    ActiveFieldsSettled(FieldsAt(db, key), key in db.hashes, ev);
    if key in db.hashes {
      KeptFields(FieldsAt(db, key), ev);
      if Settled(FieldsAt(db, key), ev.ts) {
        SettledAgain(FieldsAt(db, key), ev);
      }
    } else {
      FreshFields(ev);
    }
  }

  /** The session's Hash is still there when the message comes again. */
  predicate StillThere(db: Db, m: Msg, t: Time) {
    m.CloseMsg? || SessionKey(MsgSid(m)) in Advance(db, t).hashes
  }

  /** `d` differs from `db` at most in when the Hashes expire and in the lists. */
  ghost predicate SameSessions(db: Db, d: Db) {
    && d.zset == db.zset
    && d.hashes.Keys == db.hashes.Keys
    && (forall k :: FieldsAt(d, k) == FieldsAt(db, k))
  }

  lemma RedeliverOpen(db: Db, cfg: StoreConfig, ev: SessionOpen, t1: Time, t2: Time)
    requires Seconds(cfg.sessionTTL) > 0.0
    requires StillThere(Deliver(db, cfg, OpenMsg(ev), t1), OpenMsg(ev), t2)
    ensures var once := Advance(Deliver(db, cfg, OpenMsg(ev), t1), t2);
            var twice := Deliver(once, cfg, OpenMsg(ev), t2);
            && (SameSessions(once, twice) <==> OpenStamp(ev, t1) == OpenStamp(ev, t2))
            && twice.lists == once.lists
  {
    var once, ttl := Advance(Deliver(db, cfg, OpenMsg(ev), t1), t2), Seconds(cfg.sessionTTL);
    OpenEffect(db, cfg, ev, OpenStamp(ev, t1));
    OpenEffect(once, cfg, ev, OpenStamp(ev, t2));
    if OpenStamp(ev, t1) == OpenStamp(ev, t2) {
      RegisterAgain(db, ev.sid, OpenFields(ev, OpenStamp(ev, t1)), ttl, OpenStamp(ev, t1), t2);
    } else {
      RescoredDiffers(db, ev.sid, OpenFields(ev, OpenStamp(ev, t1)), OpenFields(ev, OpenStamp(ev, t2)), ttl,
                      OpenStamp(ev, t1), OpenStamp(ev, t2), t2);
    }
  }

  lemma RescoredDiffers(db: Db, sid: string, f: map<string, Val>, g: map<string, Val>, ttl: Time, x: Time, y: Time,
                        t: Time)
    requires x != y
    ensures var once := Advance(Register(db, sid, f, ttl, x), t);
            var twice := Register(once, sid, g, ttl, y);
            !SameSessions(once, twice) && twice.lists == once.lists
  {
    var once := Advance(Register(db, sid, f, ttl, x), t);
    assert once.zset[sid] == x && Register(once, sid, g, ttl, y).zset[sid] == y;
  }

  lemma RegisterAgain(db: Db, sid: string, fields: map<string, Val>, ttl: Time, score: Time, t: Time)
    requires SessionKey(sid) in Advance(Register(db, sid, fields, ttl, score), t).hashes
    ensures var once := Advance(Register(db, sid, fields, ttl, score), t);
            var twice := Register(once, sid, fields, ttl, score);
            ttl > 0.0 ==> SameSessions(once, twice) && twice.lists == once.lists
  {
    var held := FieldsAt(db, SessionKey(sid));
    assert (held + fields) + fields == held + fields;
  }

  /** A data base in which the activity has been handled. */
  ghost predicate Handling(db: Db, ev: Activity) {
    && ev.sid in db.zset && db.zset[ev.sid] == ev.ts
    && SessionKey(ev.sid) in db.hashes && Settled(FieldsAt(db, SessionKey(ev.sid)), ev.ts)
  }

  lemma ActivityHandled(db: Db, cfg: StoreConfig, ev: Activity, clock: Time)
    requires Seconds(cfg.sessionTTL) > 0.0
    ensures Handling(Deliver(db, cfg, ActivityMsg(ev.sid, ev), clock), ev)
  {
    var f := ActivityOutcome(db, cfg, ev, clock);
  }

  lemma RedeliverActivity(once: Db, cfg: StoreConfig, ev: Activity, clock: Time)
    requires Seconds(cfg.sessionTTL) > 0.0 && Handling(once, ev)
    ensures var twice := Deliver(once, cfg, ActivityMsg(ev.sid, ev), clock);
            SameSessions(once, twice) && twice.lists == PushedLists(once, cfg, ev)
  {
    var f := ActivityOutcome(once, cfg, ev, clock);
  }

  lemma StillHandling(db: Db, ev: Activity, t: Time)
    requires Handling(db, ev) && SessionKey(ev.sid) in Advance(db, t).hashes
    ensures Handling(Advance(db, t), ev)
  {
  }

  /** Delivering a message twice (QoS 1) changes no member, score or Hash field, except for an
      open without a timestamp, which the store stamps anew: exactly when its clock reads
      otherwise the second time. Only a second activity leaves a trace in the rings, one more
      entry in each. */
  lemma RedeliveryIdempotent(db: Db, cfg: StoreConfig, m: Msg, t1: Time, t2: Time)
    requires WellAddressed(m) && Seconds(cfg.sessionTTL) > 0.0
    requires StillThere(Deliver(db, cfg, m, t1), m, t2)
    ensures var once := Advance(Deliver(db, cfg, m, t1), t2);
            var twice := Deliver(once, cfg, m, t2);
            && (SameSessions(once, twice) <==> (m.OpenMsg? && m.open.ts == 0.0 ==> t1 == t2))
            && twice.lists == (if m.ActivityMsg? then PushedLists(once, cfg, m.activity) else once.lists)
            && (m.ActivityMsg? ==> SessionKey(m.sid) in once.hashes)
  {
    var d := Deliver(db, cfg, m, t1);
    var once := Advance(d, t2);
    match m
    case OpenMsg(ev) => RedeliverOpen(db, cfg, ev, t1, t2);
    case ActivityMsg(sid, ev) =>
      ActivityHandled(db, cfg, ev, t1);
      StillHandling(d, ev, t2);
      RedeliverActivity(once, cfg, ev, t2);
    case CloseMsg(sid) =>
      CloseEffect(db, sid);
      CloseEffect(once, sid);
  }

  // ---- revival ----

  /** An activity after a close. While the grace Hash lives, every field the Hash held is kept
      and only `last_seen` moves; afterwards the session comes back with what the activity says
      and with no host, so no bridge takes it for one of its own. Either way it is active again
      for the full time to live. */
  lemma RevivalKeepsOrReseeds(db: Db, cfg: StoreConfig, ev: Activity, t: Time)
    requires Seconds(cfg.sessionTTL) > 0.0
    requires SessionKey(ev.sid) in db.hashes && t >= db.now
    ensures var closed := Advance(Run(db, ClosePipeline(ev.sid)), t);
            var back := Deliver(closed, cfg, ActivityMsg(ev.sid, ev), t);
            && ev.sid !in closed.zset && Handling(back, ev)
            && HashExpiryAt(back, SessionKey(ev.sid)) == Some(t + Seconds(cfg.sessionTTL))
            && Revived(if t < db.now + 5000.0 then Some(FieldsAt(db, SessionKey(ev.sid))) else None,
              back, ev)
  {
    var closed := Advance(Run(db, ClosePipeline(ev.sid)), t);
    GraceOf(db, ev.sid, t);
    Revives(closed, cfg, ev, t);
  }

  /** The session after its revival, built on the fields of its old Hash or afresh. */
  ghost predicate Revived(held: Option<map<string, Val>>, back: Db, ev: Activity) {
    match held
    case Some(h) => Kept(h, FieldsAt(back, SessionKey(ev.sid)))
    case None => FieldsAt(back, SessionKey(ev.sid)) == Reseeded(ev) && Ownerless(back, ev.sid)
  }

  function HeldAt(db: Db, key: string): Option<map<string, Val>> {
    if key in db.hashes then Some(db.hashes[key].fields) else None
  }

  lemma Revives(closed: Db, cfg: StoreConfig, ev: Activity, t: Time)
    requires Seconds(cfg.sessionTTL) > 0.0 && closed.now == t
    ensures var back := Deliver(closed, cfg, ActivityMsg(ev.sid, ev), t);
            && Handling(back, ev)
            && HashExpiryAt(back, SessionKey(ev.sid)) == Some(t + Seconds(cfg.sessionTTL))
            && Revived(HeldAt(closed, SessionKey(ev.sid)), back, ev)
  {
    var f := ActivityOutcome(closed, cfg, ev, t);
    RevivedFacts(closed, ev.sid, ev.ts, f, Seconds(cfg.sessionTTL), PushedLists(closed, cfg, ev));
  }

  lemma RevivedFacts(closed: Db, sid: string, ts: Time, f: map<string, Val>, ttl: Time, lists: map<string, List>)
    ensures var key := SessionKey(sid);
            var back := Db(closed.now, closed.hashes[key := Hash(f, Some(closed.now + ttl))],
                           closed.zset[sid := ts], lists);
            && sid in back.zset && back.zset[sid] == ts && key in back.hashes
            && HashExpiryAt(back, key) == Some(closed.now + ttl)
            && FieldsAt(back, key) == f
            && (TextField(f, "host") == "" ==> Ownerless(back, sid))
  {
  }

  /** No bridge takes the session for a live one of its own. */
  ghost predicate Ownerless(db: Db, sid: string) {
    forall host, alive :: !LiveLocal(db, host, alive, sid)
  }

  /** A closed session's Hash, whole for the grace period and gone after it. */
  lemma GraceOf(db: Db, sid: string, t: Time)
    requires SessionKey(sid) in db.hashes
    ensures var closed := Advance(Run(db, ClosePipeline(sid)), t);
            && closed.now == t && sid !in closed.zset
            && HeldAt(closed, SessionKey(sid)) ==
               if t < db.now + 5000.0 then Some(FieldsAt(db, SessionKey(sid))) else None
  {
    CloseEffect(db, sid);
  }

  // ---- the two rings ----

  function Of(items: seq<Activity>, sid: string): seq<Activity> {
    if items == [] then []
    else (if items[0].sid == sid then [items[0]] else []) + Of(items[1..], sid)
  }

  lemma {:induction false} OfPrefix(a: seq<Activity>, b: seq<Activity>, sid: string)
    requires a <= b
    ensures Of(a, sid) <= Of(b, sid)
  {
    if a != [] {
      OfPrefix(a[1..], b[1..], sid);
    }
  }

  lemma OfCons(a: Activity, items: seq<Activity>, sid: string)
    ensures Of([a] + items, sid) == (if a.sid == sid then [a] else []) + Of(items, sid)
  {
    assert ([a] + items)[1..] == items;
  }

  /** The activities of a session, newest first. */
  function History(ms: seq<Timed>, sid: string): seq<Activity> {
    if ms == [] then []
    else
      var m := ms[|ms| - 1].msg;
      (if m.ActivityMsg? && m.sid == sid then [m.activity] else []) + History(ms[..|ms| - 1], sid)
  }

  /** No activity of `sid` finds its Hash missing while its ring still has entries. */
  ghost predicate NeverOrphaned(db: Db, cfg: StoreConfig, ms: seq<Timed>, sid: string) {
    ms == [] ||
    (var m := ms[|ms| - 1];
     var before := Advance(HandleAll(db, cfg, ms[..|ms| - 1]), m.at);
     && NeverOrphaned(db, cfg, ms[..|ms| - 1], sid)
     && (m.msg.ActivityMsg? && m.msg.sid == sid ==>
           SessionKey(sid) in before.hashes || ItemsAt(before, ActivityKey(sid)) == []))
  }

  ghost predicate RingsWithin(db: Db, sid: string, history: seq<Activity>) {
    && ItemsAt(db, ActivityKey(sid)) <= history
    && Of(ItemsAt(db, ACTIVITY_GLOBAL_KEY), sid) <= history
  }

  lemma PushRingItems(db: Db, key: string, ev: Activity, size: int, ttl: int)
    ensures ItemsAt(PushRing(db, key, ev, size, ttl), key) <= [ev] + ItemsAt(db, key)
    ensures forall k :: k != key ==> ItemsAt(PushRing(db, key, ev, size, ttl), k) == ItemsAt(db, k)
  {
  }

  lemma RingsStep(db: Db, cfg: StoreConfig, m: Msg, clock: Time, sid: string, history: seq<Activity>)
    requires sid != "global" && WellAddressed(m) && Seconds(cfg.sessionTTL) > 0.0
    requires RingsWithin(db, sid, history)
    requires m.ActivityMsg? && m.sid == sid ==> SessionKey(sid) in db.hashes || ItemsAt(db, ActivityKey(sid)) == []
    ensures RingsWithin(Deliver(db, cfg, m, clock), sid,
                        (if m.ActivityMsg? && m.sid == sid then [m.activity] else []) + history)
  {
    match m
    case OpenMsg(ev) => OpenEffect(db, cfg, ev, OpenStamp(ev, clock));
    case CloseMsg(s) => CloseEffect(db, s);
    case ActivityMsg(s, ev) =>
      ActivityEffect(db, cfg, ev, clock);
      PushedWithin(db, cfg, ev, sid, history);
  }

  lemma PushedWithin(db: Db, cfg: StoreConfig, ev: Activity, sid: string, history: seq<Activity>)
    requires sid != "global" && RingsWithin(db, sid, history)
    requires ev.sid == sid ==> SessionKey(sid) in db.hashes || ItemsAt(db, ActivityKey(sid)) == []
    ensures RingsWithin(db.(lists := PushedLists(db, cfg, ev)), sid, (if ev.sid == sid then [ev] else []) + history)
  {
    KeysSeparate(sid, ev.sid);
    KeysSeparate(ev.sid, sid);
    var own := if SessionKey(ev.sid) in db.hashes
               then PushRing(db, ActivityKey(ev.sid), ev, cfg.activityRingSize, cfg.activityPerSessTTL)
               else db;
    PushRingItems(db, ActivityKey(ev.sid), ev, cfg.activityRingSize, cfg.activityPerSessTTL);
    PushRingItems(own, ACTIVITY_GLOBAL_KEY, ev, cfg.globalRingSize, cfg.activityGlobalTTL);
    var d := PushRing(own, ACTIVITY_GLOBAL_KEY, ev, cfg.globalRingSize, cfg.activityGlobalTTL);
    assert forall k :: ItemsAt(db.(lists := PushedLists(db, cfg, ev)), k) == ItemsAt(d, k);
    // the session named "global" pushes to the global ring twice
    var g, h, g' := ItemsAt(db, ACTIVITY_GLOBAL_KEY), ItemsAt(own, ACTIVITY_GLOBAL_KEY),
        ItemsAt(d, ACTIVITY_GLOBAL_KEY);
    OfPrefix(g', [ev] + h, sid);
    OfCons(ev, h, sid);
    if ev.sid == "global" {
      OfCons(ev, g, sid);
      assert h == g || h <= [ev] + g;
      OfPrefix(h, if h == g then g else [ev] + g, sid);
    } else {
      assert h == g;
    }
  }

  lemma RingsAge(db: Db, t: Time, sid: string, history: seq<Activity>)
    requires RingsWithin(db, sid, history)
    ensures RingsWithin(Advance(db, t), sid, history)
  {
    var d := Advance(db, t);
    assert ItemsAt(d, ACTIVITY_GLOBAL_KEY) == ItemsAt(db, ACTIVITY_GLOBAL_KEY) || ItemsAt(d, ACTIVITY_GLOBAL_KEY) == [];
  }

  /** The session's own ring and the global ring filtered to it are prefixes of one history,
      newest first, whatever has been trimmed or has expired; so one is a prefix of the other. */
  lemma {:induction false} RingsAgree(db: Db, cfg: StoreConfig, ms: seq<Timed>, sid: string)
    requires sid != "global" && Seconds(cfg.sessionTTL) > 0.0
    requires forall m :: m in ms ==> WellAddressed(m.msg)
    requires RingsWithin(db, sid, []) && NeverOrphaned(db, cfg, ms, sid)
    ensures RingsWithin(HandleAll(db, cfg, ms), sid, History(ms, sid))
    ensures var d := HandleAll(db, cfg, ms);
            var own, shared := ItemsAt(d, ActivityKey(sid)), Of(ItemsAt(d, ACTIVITY_GLOBAL_KEY), sid);
            own <= shared || shared <= own
  {
    if ms != [] {
      var front, m := ms[..|ms| - 1], ms[|ms| - 1];
      RingsAgree(db, cfg, front, sid);
      RingsAge(HandleAll(db, cfg, front), m.at, sid, History(front, sid));
      RingsStep(Advance(HandleAll(db, cfg, front), m.at), cfg, m.msg, m.at, sid, History(front, sid));
    }
  }

  /** Conversely an orphaned activity that differs from the newest entry of its ring
      parts the two rings at once. */
  lemma OrphanPartsRings(db: Db, cfg: StoreConfig, ev: Activity, clock: Time)
    requires ev.sid != "global" && Seconds(cfg.sessionTTL) > 0.0
    requires cfg.globalRingSize >= 1 && Seconds(cfg.activityGlobalTTL) > 0.0
    requires SessionKey(ev.sid) !in db.hashes
    requires ItemsAt(db, ActivityKey(ev.sid)) != [] && ItemsAt(db, ActivityKey(ev.sid))[0] != ev
    ensures var d := Deliver(db, cfg, ActivityMsg(ev.sid, ev), clock);
            var own, shared := ItemsAt(d, ActivityKey(ev.sid)), Of(ItemsAt(d, ACTIVITY_GLOBAL_KEY), ev.sid);
            !(own <= shared) && !(shared <= own)
  {
    KeysSeparate(ev.sid, ev.sid);
    ActivityEffect(db, cfg, ev, clock);
    var d := Deliver(db, cfg, ActivityMsg(ev.sid, ev), clock);
    var g := ItemsAt(d, ACTIVITY_GLOBAL_KEY);
    assert g != [] && g[0] == ev;
    assert Of(g, ev.sid)[0] == ev;
  }
}
