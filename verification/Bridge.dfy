/** The bridge daemon, one call at a time: how a message is routed to the store, and
    what a tick of the cleanup ticker does. The concurrent runs are in `Mesh`. */
module Bridge {
  import opened Events
  import opened Wrappers
  import opened Keys
  import opened Redis
  import opened Store
  import Topics

  const DEFAULT_SESSION_TTL: Time := 300000.0

  /** What decoding a payload as each of the event types gives. */
  datatype Payload = Payload(asOpen: Option<SessionOpen>, asActivity: Option<Activity>, asClose: Option<SessionClose>)

  /** A routed message. An activity is pushed under the id in its payload and touched
      under the id in its topic; an open uses its payload only. */
  datatype Msg =
    | OpenMsg(open: SessionOpen)
    | ActivityMsg(sid: string, activity: Activity)
    | CloseMsg(closed: string)

  function Route(topic: string, payload: Payload): Option<Msg> {
    var parts := Topics.Split(topic);
    if |parts| < 5 then None else RouteEvent(parts[3], parts[4], payload)
  }

  function RouteEvent(sid: string, eventType: string, payload: Payload): Option<Msg> {
    if eventType == "open" then
      (if payload.asOpen.Some? then Some(OpenMsg(payload.asOpen.value)) else None)
    else if eventType == "activity" then
      (if payload.asActivity.Some? then Some(ActivityMsg(sid, payload.asActivity.value)) else None)
    else if eventType == "close" then
      (if payload.asClose.Some? then Some(CloseMsg(sid)) else None)
    else None
  }

  function MsgSid(m: Msg): string {
    match m
    case OpenMsg(ev) => ev.sid
    case ActivityMsg(sid, _) => sid
    case CloseMsg(sid) => sid
  }

  /** The topic and the payload name the same session. */
  predicate WellAddressed(m: Msg) {
    m.ActivityMsg? ==> m.activity.sid == m.sid
  }

  function EventType(m: Msg): string {
    match m case OpenMsg(_) => "open" case ActivityMsg(_, _) => "activity" case CloseMsg(_) => "close"
  }

  /** The topic the publisher chooses for an event, from the event's own session id. */
  function PublishTopic(m: Msg): string {
    match m
    case OpenMsg(ev) => Topics.BuildSessionTopic(ev.sid, "open")
    case ActivityMsg(_, ev) => Topics.BuildSessionTopic(ev.sid, "activity")
    case CloseMsg(sid) => Topics.BuildSessionTopic(sid, "close")
  }

  predicate Carries(p: Payload, m: Msg) {
    match m
    case OpenMsg(ev) => p.asOpen == Some(ev)
    case ActivityMsg(_, ev) => p.asActivity == Some(ev)
    case CloseMsg(_) => p.asClose.Some?
  }

  /** What is published arrives: an event about `sid` is delivered exactly when `sid` is a plain
      topic level and not too long, and then it is routed as the well-addressed message it was. */
  lemma PublishRouteRoundTrip(m: Msg, p: Payload)
    requires WellAddressed(m) && Carries(p, m)
    ensures Topics.Delivered(PublishTopic(m)) <==>
            Topics.Plain(MsgSid(m)) && |MsgSid(m)| + |EventType(m)| <= 65535 - 21
    ensures Topics.Delivered(PublishTopic(m)) ==> Route(PublishTopic(m), p) == Some(m)
  {
    EventTypePlain(m);
    Topics.DeliveryIff(MsgSid(m), EventType(m));
    if Topics.Delivered(PublishTopic(m)) {
      RouteEventRoundTrip(m, p);
    }
  }

  lemma EventTypePlain(m: Msg)
    ensures Topics.Plain(EventType(m))
  {
  }

  lemma RouteEventRoundTrip(m: Msg, p: Payload)
    requires WellAddressed(m) && Carries(p, m)
    ensures RouteEvent(MsgSid(m), EventType(m), p) == Some(m)
  {
    assert |"open"| == 4 && |"activity"| == 8 && |"close"| == 5;
  }

  /** The store calls one message leads to, run to the end. */
  function Deliver(db: Db, cfg: StoreConfig, m: Msg, clock: Time): Db {
    match m
    case OpenMsg(ev) => Run(db, OpenPipeline(cfg, ev, OpenStamp(ev, clock)))
    case ActivityMsg(sid, ev) =>
      Run(Run(db, PushPipeline(cfg, ev, SessionKey(ev.sid) in db.hashes)),
        TouchOrCreatePipeline(cfg, sid, ev.ts, ev.cwd))
    case CloseMsg(sid) => Run(db, ClosePipeline(sid))
  }

  /** A listed session of this host whose process is alive. */
  predicate LiveLocal(db: Db, host: string, alive: int -> bool, sid: string) {
    var h := FieldsAt(db, SessionKey(sid));
    Listed(db, sid) && host != "" && TextField(h, "host") == host && alive(PidField(h))
  }

  /** An open makes its session a live one of exactly the bridge whose host it names, as long as the
      process it names is alive. */
  lemma OpenedLiveIff(was: Db, d: Db, ev: SessionOpen, at: Time, ttl: int, host: string, alive: int -> bool)
    requires Opened(was, d, ev, at, ttl) && ttl > 0
    ensures LiveLocal(d, host, alive, ev.sid) <==> host != "" && ev.host == host && alive(ev.pid)
  {
    var v := ViewFromHash(ev.sid, FieldsAt(d, SessionKey(ev.sid)));
    assert "last_seen" in FieldsAt(d, SessionKey(ev.sid));
    assert v.host == ev.host && v.pid == ev.pid;
  }

  function SessionKeys(ids: set<string>): set<string> {
    set sid | sid in ids :: SessionKey(sid)
  }

  /** `db` with exactly the sessions in `ids` touched: last seen `nowMs`, scored `nowMs`
      and given a fresh time to live. */
  function TouchAll(db: Db, ids: set<string>, ttl: Time, nowMs: Time): Db {
    var keys := SessionKeys(ids);
    db.(zset := map m | m in db.zset :: if m in ids then nowMs else db.zset[m],
        hashes := map k | k in db.hashes && !(k in keys && ttl <= 0.0) ::
                    if k in keys then Hash(db.hashes[k].fields + map["last_seen" := Stamp(nowMs)], Some(db.now + ttl))
                    else db.hashes[k])
  }

  lemma TouchNobody(db: Db, ttl: Time, nowMs: Time)
    ensures TouchAll(db, {}, ttl, nowMs) == db
  {
    assert SessionKeys({}) == {};
  }

  lemma TouchOneMore(db: Db, ids: set<string>, ttl: Time, nowMs: Time, sid: string)
    requires Listed(db, sid) && sid !in ids
    ensures Register(TouchAll(db, ids, ttl, nowMs), sid, map["last_seen" := Stamp(nowMs)], ttl, nowMs)
            == TouchAll(db, ids + {sid}, ttl, nowMs)
  {
    var key := SessionKey(sid);
    var keys := SessionKeys(ids);
    assert key !in keys by {
      forall other | other in ids
        ensures SessionKey(other) != key
      {
        KeysSeparate(other, sid);
      }
    }
    assert SessionKeys(ids + {sid}) == keys + {key};
    assert key in db.hashes;
    var some := TouchAll(db, ids, ttl, nowMs);
    assert key in some.hashes && some.hashes[key] == db.hashes[key];
    var one, more := Register(some, sid, map["last_seen" := Stamp(nowMs)], ttl, nowMs),
        TouchAll(db, ids + {sid}, ttl, nowMs);
    assert one.hashes == more.hashes;
    assert one.zset == more.zset;
  }

  function LiveIds(db: Db, host: string, alive: int -> bool, views: seq<SessionView>): set<string> {
    set v | v in views && LiveLocal(db, host, alive, v.id) :: v.id
  }

  lemma LiveIdsStep(db: Db, host: string, alive: int -> bool, views: seq<SessionView>, i: nat)
    requires i < |views|
    ensures LiveIds(db, host, alive, views[..i + 1]) ==
            LiveIds(db, host, alive, views[..i]) + if LiveLocal(db, host, alive, views[i].id) then {views[i].id} else {}
  {
    assert views[..i + 1] == views[..i] + [views[i]];
    assert forall v :: v in views[..i + 1] <==> v in views[..i] || v == views[i];
  }

  function LiveMembers(db: Db, host: string, alive: int -> bool): set<string> {
    set sid | sid in db.zset && LiveLocal(db, host, alive, sid)
  }

  lemma LiveIdsComplete(db: Db, host: string, alive: int -> bool, views: seq<SessionView>)
    requires IsListing(db, views)
    ensures LiveIds(db, host, alive, views) == LiveMembers(db, host, alive)
  {
    ListingExact(db, views);
  }

  /** What one turn of the refresh loop must do to the sessions listed so far. */
  lemma RefreshStep(db: Db, host: string, alive: int -> bool, views: seq<SessionView>, i: nat, ttl: Time, nowMs: Time)
    requires IsListing(db, views) && i < |views| && host != ""
    ensures var s, done, next := views[i], LiveIds(db, host, alive, views[..i]),
            LiveIds(db, host, alive, views[..i + 1]);
            if s.host == host && alive(s.pid) then
              && |next| == |done| + 1
              && Register(TouchAll(db, done, ttl, nowMs), s.id, map["last_seen" := Stamp(nowMs)], ttl, nowMs)
                 == TouchAll(db, next, ttl, nowMs)
            else next == done
  {
    ListingExact(db, views);
    LiveIdsStep(db, host, alive, views, i);
    var s, done := views[i], LiveIds(db, host, alive, views[..i]);
    assert s in views && Listed(db, s.id);
    assert s.host == TextField(FieldsAt(db, SessionKey(s.id)), "host")
           && s.pid == PidField(FieldsAt(db, SessionKey(s.id)));
    if s.host == host && alive(s.pid) {
      forall v | v in views[..i]
        ensures v.id != s.id
      {
        var j :| 0 <= j < i && views[j] == v;
      }
      TouchOneMore(db, done, ttl, nowMs, s.id);
    }
  }

  /** The session is no member any more, its Hash is as it was with five seconds to live, and nothing
      else has changed. */
  ghost predicate Closed(was: Db, d: Db, sid: string) {
    var key := SessionKey(sid);
    && d.now == was.now && d.zset == was.zset - {sid} && d.lists == was.lists && SameHashesBut(was, d, key)
    && (key in d.hashes <==> key in was.hashes)
    && (key in d.hashes ==> d.hashes[key] == Hash(was.hashes[key].fields, Some(was.now + 5000.0)))
  }

  /** The store calls for an activity, one after the other. */
  ghost predicate PushedAndSeeded(was: Db, d: Db, sid: string, ev: Activity, cfg: StoreConfig) {
    exists mid :: Pushed(was, mid, ev, cfg) && Seeded(mid, d, sid, ev.ts, ev.cwd, cfg.sessionTTL)
  }

  /** What a message under these topic levels does, by its type and by what its payload decodes to:
      nothing if there are too few levels, the type is unknown or the payload is malformed. */
  ghost predicate HandledAs(was: Db, d: Db, parts: seq<string>, p: Payload, clock: Time, cfg: StoreConfig) {
    if |parts| >= 5 && parts[4] == "open" && p.asOpen.Some? then
      Opened(was, d, p.asOpen.value, if p.asOpen.value.ts != 0.0 then p.asOpen.value.ts else clock, cfg.sessionTTL)
    else if |parts| >= 5 && parts[4] == "activity" && p.asActivity.Some? then
      PushedAndSeeded(was, d, parts[3], p.asActivity.value, cfg)
    else if |parts| >= 5 && parts[4] == "close" && p.asClose.Some? then Closed(was, d, parts[3])
    else d == was
  }

  lemma DeliversOpen(db: Db, cfg: StoreConfig, ev: SessionOpen, clock: Time)
    ensures Opened(db, Deliver(db, cfg, OpenMsg(ev), clock), ev, if ev.ts != 0.0 then ev.ts else clock, cfg.sessionTTL)
  {
    OpenOpens(db, cfg, ev, clock);
  }

  lemma DeliversActivity(db: Db, cfg: StoreConfig, sid: string, ev: Activity, clock: Time)
    ensures PushedAndSeeded(db, Deliver(db, cfg, ActivityMsg(sid, ev), clock), sid, ev, cfg)
  {
    var mid := Run(db, PushPipeline(cfg, ev, SessionKey(ev.sid) in db.hashes));
    PushPushes(db, cfg, ev);
    TouchOrCreateSeeds(mid, cfg, sid, ev.ts, ev.cwd);
    assert Pushed(db, mid, ev, cfg);
  }

  /** A session known only by an activity is shown with what the activity says of it, opened and last
      seen then, and with no branch, host, transcript or process. */
  lemma UnknownSessionShown(was: Db, d: Db, ev: Activity, cfg: StoreConfig)
    requires PushedAndSeeded(was, d, ev.sid, ev, cfg) && SessionKey(ev.sid) !in was.hashes && cfg.sessionTTL > 0
    ensures Listed(d, ev.sid)
    ensures ViewFromHash(ev.sid, FieldsAt(d, SessionKey(ev.sid))) ==
            SessionView(ev.sid, ev.cwd, "", "", "", 0, ev.ts, ev.ts)
  {
    var mid :| Pushed(was, mid, ev, cfg) && Seeded(mid, d, ev.sid, ev.ts, ev.cwd, cfg.sessionTTL);
    MinimalShown(FieldsAt(d, SessionKey(ev.sid)), ev);
  }

  lemma MinimalShown(h: map<string, Val>, ev: Activity)
    requires h.Keys == {"session_id", "cwd", "opened_at", "last_seen"}
    requires h["cwd"] == Text(ev.cwd) && h["opened_at"] == Stamp(ev.ts) && h["last_seen"] == Stamp(ev.ts)
    ensures ViewFromHash(ev.sid, h) == SessionView(ev.sid, ev.cwd, "", "", "", 0, ev.ts, ev.ts)
  {
    assert |"host"| == 4 && |"git_branch"| == 10 && |"transcript_path"| == 15 && |"session_id"| == 10 && |"cwd"| == 3;
    assert |"opened_at"| == 9 && |"last_seen"| == 9 && |"pid"| == 3 && "pid"[0] != "cwd"[0];
    assert "git_branch"[0] != "session_id"[0];
  }

  lemma DeliversClose(db: Db, cfg: StoreConfig, sid: string, clock: Time)
    ensures Closed(db, Deliver(db, cfg, CloseMsg(sid), clock), sid)
  {
    CloseEffect(db, sid);
  }

  lemma RouteHandles(db: Db, topic: string, p: Payload, clock: Time, cfg: StoreConfig)
    ensures var m := Route(topic, p);
            HandledAs(db, if m.None? then db else Deliver(db, cfg, m.value, clock), Topics.Split(topic), p, clock, cfg)
  {
    var m := Route(topic, p);
    if m.Some? {
      match m.value
      case OpenMsg(ev) => DeliversOpen(db, cfg, ev, clock);
      case ActivityMsg(sid, ev) => DeliversActivity(db, cfg, sid, ev, clock);
      case CloseMsg(sid) => DeliversClose(db, cfg, sid, clock);
    }
  }

  class Daemon {
    const store: RedisStore
    const hostname: string
    const sessionTTL: Time

    constructor (store: RedisStore, hostname: string, sessionTTL: Time)
      ensures this.store == store && this.hostname == hostname
      ensures this.sessionTTL == (if sessionTTL <= 0.0 then DEFAULT_SESSION_TTL else sessionTTL)
              && this.sessionTTL > 0.0
      ensures sessionTTL <= 0.0 ==> this.sessionTTL == 300.0 * 1000.0
    {
      this.store, this.hostname := store, hostname;
      this.sessionTTL := if sessionTTL <= 0.0 then DEFAULT_SESSION_TTL else sessionTTL;
    }

    method Handle(topic: string, payload: Payload, clock: Time)
      modifies store.client
      ensures var was, m := old(store.client.Contents()), Route(topic, payload);
              store.client.Contents() == if m.None? then was else Deliver(was, store.cfg, m.value, clock)
      ensures HandledAs(old(store.client.Contents()), store.client.Contents(), Topics.Split(topic), payload, clock,
                        store.cfg)
    {
      RouteHandles(store.client.Contents(), topic, payload, clock, store.cfg);
      var parts := Topics.Split(topic);
      if |parts| < 5 {
        return;
      }
      var sid := parts[3];
      var eventType := parts[4];
      if eventType == "open" {
        if payload.asOpen.Some? {
          var ev := payload.asOpen.value;
          OpenEffect(store.client.Contents(), store.cfg, ev, OpenStamp(ev, clock));
          store.OpenSession(ev, clock);
        }
      } else if eventType == "activity" {
        if payload.asActivity.Some? {
          var ev := payload.asActivity.value;
          store.PushActivity(ev);
          store.TouchOrCreateSession(sid, ev.ts, ev.cwd);
        }
      } else if eventType == "close" {
        if payload.asClose.Some? {
          store.CloseSession(sid);
        }
      }
    }

    /** Touches exactly the live local sessions and counts them. */
    method RefreshLiveSessions(nowMs: Time, alive: int -> bool) returns (touched: nat)
      modifies store.client
      ensures var was := old(store.client.Contents());
              var live := LiveMembers(was, hostname, alive);
              && touched == |live|
              && store.client.Contents() == TouchAll(was, live, Seconds(store.cfg.sessionTTL), nowMs)
    {
      ghost var was := store.client.Contents();
      ghost var ttl := Seconds(store.cfg.sessionTTL);
      touched := 0;
      if hostname == "" {
        assert LiveMembers(was, hostname, alive) == {};
        TouchNobody(was, ttl, nowMs);
        return;
      }
      var sessions := store.ListActiveSessions();
      TouchNobody(was, ttl, nowMs);
      for i := 0 to |sessions|
        invariant touched == |LiveIds(was, hostname, alive, sessions[..i])|
        invariant store.client.Contents() == TouchAll(was, LiveIds(was, hostname, alive, sessions[..i]), ttl, nowMs)
      {
        var s := sessions[i];
        RefreshStep(was, hostname, alive, sessions, i, ttl, nowMs);
        if s.host == hostname && alive(s.pid) {
          store.TouchSession(s.id, nowMs);
          touched := touched + 1;
        }
      }
      assert sessions[..|sessions|] == sessions;
      LiveIdsComplete(was, hostname, alive, sessions);
    }

    /** One tick: refresh, then sweep at `clock - sessionTTL`. A member survives exactly when the
        score the refresh left it is above the cutoff, so no live local session is evicted as
        long as the refresh took less than the sweep window. */
    method Tick(nowMs: Time, clock: Time, alive: int -> bool)
      modifies store.client
      ensures var was := old(store.client.Contents());
              store.client.Contents() ==
              Apply(TouchAll(was, LiveMembers(was, hostname, alive), Seconds(store.cfg.sessionTTL), nowMs),
                    ZRemRange(clock - sessionTTL))
      ensures var was := old(store.client.Contents());
              forall sid :: sid in store.client.zset <==>
                && sid in was.zset
                && clock - sessionTTL < (if LiveLocal(was, hostname, alive, sid) then nowMs else was.zset[sid])
      ensures clock - nowMs < sessionTTL ==>
                forall sid :: LiveLocal(old(store.client.Contents()), hostname, alive, sid) ==> sid in store.client.zset
    {
      var touched := RefreshLiveSessions(nowMs, alive);
      ghost var was := old(store.client.Contents());
      assert forall sid :: LiveLocal(was, hostname, alive, sid) ==> sid in old(store.client.zset);
      assert store.client.zset == store.client.Contents().zset;
      var n := store.SweepExpired(clock - sessionTTL);
    }
  }
}
