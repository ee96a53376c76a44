/** The sequential calls of the bridge are runs of the concurrent mesh: what a handler or a
    tick does in one go, its commands do one by one when nobody disturbs them. */
module Undisturbed {
  import opened Events
  import opened Keys
  import opened Redis
  import opened Store
  import opened Bridge
  import opened Mesh

  // ---- a worker left alone ----

  function Works(i: nat, n: nat): seq<Event> {
    if n == 0 then [] else [Work(i)] + Works(i, n - 1)
  }

  lemma {:induction false} FinalConcat(cfg: Config, s: Sys, a: seq<Event>, b: seq<Event>)
    ensures Final(cfg, s, a + b) == Final(cfg, Final(cfg, s, a), b)
    ensures Valid(cfg, s, a + b) <==> Valid(cfg, s, a) && Valid(cfg, Final(cfg, s, a), b)
    decreases |a|
  {
    if a == [] {
      assert a + b == b;
    } else {
      assert (a + b)[1..] == a[1..] + b;
      FinalConcat(cfg, Next(cfg, s, a[0]), a[1..], b);
    }
  }

  lemma {:induction false} WorksOff(cfg: Config, s: Sys, i: nat)
    requires i < |s.workers| && s.workers[i].Running? && s.workers[i].todo != []
    ensures var w := s.workers[i];
            var end := Final(cfg, s, Works(i, |w.todo|));
            && Valid(cfg, s, Works(i, |w.todo|))
            && end.db == Run(s.db, w.todo) && end.workers == s.workers[i := Idle]
            && end.ticker == s.ticker && end.boot == s.boot
    decreases |s.workers[i].todo|
  {
    var w := s.workers[i];
    var es := Works(i, |w.todo|);
    assert es[0] == Work(i) && es[1..] == Works(i, |w.todo| - 1);
    var next := Next(cfg, s, Work(i));
    if |w.todo| == 1 {
      assert Works(i, 0) == [] && w.todo[1..] == [];
    } else {
      WorksOff(cfg, next, i);
      assert next.workers[i := Idle] == s.workers[i := Idle];
    }
  }

  /** Undisturbed, a worker does to the store exactly what the bridge's handler does in one go:
      the sequential reading of a message is one run of the mesh. */
  lemma UndisturbedDelivers(cfg: Config, s: Sys, i: nat, m: Msg, clock: Time) returns (es: seq<Event>)
    requires i < |s.workers| && s.workers[i].Idle? && WellAddressed(m)
    ensures Valid(cfg, s, es)
    ensures var end := Final(cfg, s, es);
            end.db == Deliver(s.db, cfg.store, m, clock) && end.workers == s.workers && end.ticker == s.ticker
  {
    var begun, start := Begins(cfg, s, i, m, clock);
    WorksOff(cfg, start, i);
    var works := Works(i, |start.workers[i].todo|);
    FinalConcat(cfg, s, begun, works);
    es := begun + works;
    assert start.workers[i := Idle] == s.workers;
  }

  /** A worker takes a message and, for an activity, asks for its Hash. */
  lemma Begins(cfg: Config, s: Sys, i: nat, m: Msg, clock: Time) returns (es: seq<Event>, t: Sys)
    requires i < |s.workers| && s.workers[i].Idle? && WellAddressed(m)
    ensures Valid(cfg, s, es) && Final(cfg, s, es) == t
    ensures t.db == s.db && t.ticker == s.ticker && |t.workers| == |s.workers|
    ensures t.workers[i].Running? && t.workers[i].todo != [] && t.workers == s.workers[i := t.workers[i]]
    ensures Run(s.db, t.workers[i].todo) == Deliver(s.db, cfg.store, m, clock)
  {
    var taken := Next(cfg, s, Take(i, m, clock));
    OneStep(cfg, s, Take(i, m, clock));
    if m.ActivityMsg? {
      t := Next(cfg, taken, Work(i));
      OneStep(cfg, taken, Work(i));
      FinalConcat(cfg, s, [Take(i, m, clock)], [Work(i)]);
      es := [Take(i, m, clock)] + [Work(i)];
      RunConcat(s.db, PushPipeline(cfg.store, m.activity, SessionKey(m.activity.sid) in s.db.hashes),
                TouchOrCreatePipeline(cfg.store, m.sid, m.activity.ts, m.activity.cwd));
    } else {
      es, t := [Take(i, m, clock)], taken;
    }
  }

  // ---- the ticker left alone ----

  /** `s` moves to a state with this data base and ticker, its workers as they were. */
  ghost predicate Reaches(cfg: Config, s: Sys, es: seq<Event>, db: Db, k: Ticker) {
    && Valid(cfg, s, es)
    && Final(cfg, s, es).db == db && Final(cfg, s, es).ticker == k && Final(cfg, s, es).workers == s.workers
  }

  lemma ReachesMore(cfg: Config, s: Sys, a: seq<Event>, b: seq<Event>, db: Db, k: Ticker)
    requires Valid(cfg, s, a) && Final(cfg, s, a).workers == s.workers
    requires Reaches(cfg, Final(cfg, s, a), b, db, k)
    ensures Reaches(cfg, s, a + b, db, k)
  {
    FinalConcat(cfg, s, a, b);
  }

  lemma OneStep(cfg: Config, s: Sys, e: Event)
    ensures Final(cfg, s, [e]) == Next(cfg, s, e)
    ensures Valid(cfg, s, [e]) <==> Enabled(cfg, s, e)
  {
    assert [e][1..] == [];
    assert Final(cfg, Next(cfg, s, e), []) == Next(cfg, s, e);
  }

  /** The listed sessions among `ids`, as their Hashes show them. */
  function ViewsIn(db: Db, ids: set<string>): map<string, SessionView> {
    map sid | sid in ids && FieldsAt(db, SessionKey(sid)) != map[] :: ViewFromHash(sid, FieldsAt(db, SessionKey(sid)))
  }

  lemma {:induction false} GetsAll(cfg: Config, s: Sys, done: set<string>) returns (es: seq<Event>)
    requires s.ticker.Listing? && s.ticker.views == ViewsIn(s.db, done)
    ensures Reaches(cfg, s, es, s.db, Listing({}, ViewsIn(s.db, done + s.ticker.pending)))
    decreases |s.ticker.pending|
  {
    var pending := s.ticker.pending;
    if pending == {} {
      es := [];
      assert done + pending == done;
    } else {
      var sid :| sid in pending;
      var next := Next(cfg, s, TickGet(sid, true));
      assert next.ticker.views == ViewsIn(s.db, done + {sid});
      var rest := GetsAll(cfg, next, done + {sid});
      assert done + {sid} + (pending - {sid}) == done + pending;
      OneStep(cfg, s, TickGet(sid, true));
      ReachesMore(cfg, s, [TickGet(sid, true)], rest, s.db, Listing({}, ViewsIn(s.db, done + pending)));
      es := [TickGet(sid, true)] + rest;
    }
  }

  lemma TouchesThrough(cfg: Config, s: Sys)
    requires s.ticker.Touching? && s.ticker.todo == TouchPipeline(cfg.store, s.ticker.sid, s.ticker.nowMs)
    ensures Reaches(cfg, s, [TickTouch, TickTouch, TickTouch], Run(s.db, s.ticker.todo),
            Probing(s.ticker.nowMs, s.ticker.views))
  {
    var todo := s.ticker.todo;
    var s1 := Next(cfg, s, TickTouch);
    var s2 := Next(cfg, s1, TickTouch);
    OneStep(cfg, s, TickTouch);
    OneStep(cfg, s1, TickTouch);
    OneStep(cfg, s2, TickTouch);
    FinalConcat(cfg, s, [TickTouch], [TickTouch] + [TickTouch]);
    FinalConcat(cfg, s1, [TickTouch], [TickTouch]);
    assert [TickTouch, TickTouch, TickTouch] == [TickTouch] + ([TickTouch] + [TickTouch]);
    RunThree(s.db, todo[0], todo[1], todo[2]);
    assert todo == [todo[0], todo[1], todo[2]];
  }

  /** The live ones among a set of listed sessions. */
  function LiveAmong(db: Db, host: string, alive: int -> bool, ids: set<string>): set<string> {
    set sid | sid in ids && LiveLocal(db, host, alive, sid)
  }

  /** One probe, and the touch it leads to. */
  lemma ProbeOne(cfg: Config, s: Sys, sid: string, alive: bool) returns (es: seq<Event>)
    requires s.ticker.Probing? && sid in s.ticker.views
    ensures Reaches(cfg, s, es,
                    if s.ticker.views[sid].host == cfg.host && alive
                    then Run(s.db, TouchPipeline(cfg.store, sid, s.ticker.nowMs))
                    else s.db,
                    Probing(s.ticker.nowMs, s.ticker.views - {sid}))
  {
    var probe := TickProbe(sid, alive);
    OneStep(cfg, s, probe);
    es := [probe];
    if s.ticker.views[sid].host == cfg.host && alive {
      var next := Next(cfg, s, probe);
      TouchesThrough(cfg, next);
      ReachesMore(cfg, s, es, [TickTouch, TickTouch, TickTouch],
                  Run(s.db, TouchPipeline(cfg.store, sid, s.ticker.nowMs)),
                    Probing(s.ticker.nowMs, s.ticker.views - {sid}));
      es := es + [TickTouch, TickTouch, TickTouch];
    }
  }

  /** What one probe does to the sessions touched so far: it touches one more exactly when
      that one is live. */
  lemma ProbeTouches(cfg: Config, was: Db, done: set<string>, sid: string, alive: int -> bool, nowMs: Time)
    requires cfg.host != "" && Listed(was, sid) && sid !in done
    ensures var ttl, v := Seconds(cfg.store.sessionTTL), ViewFromHash(sid, FieldsAt(was, SessionKey(sid)));
            var some := TouchAll(was, LiveAmong(was, cfg.host, alive, done), ttl, nowMs);
            (if v.host == cfg.host && alive(v.pid) then Run(some, TouchPipeline(cfg.store, sid, nowMs)) else some)
            == TouchAll(was, LiveAmong(was, cfg.host, alive, done + {sid}), ttl, nowMs)
  {
    var before, ttl := LiveAmong(was, cfg.host, alive, done), Seconds(cfg.store.sessionTTL);
    if LiveLocal(was, cfg.host, alive, sid) {
      assert LiveAmong(was, cfg.host, alive, done + {sid}) == before + {sid};
      TouchEffect(TouchAll(was, before, ttl, nowMs), cfg.store, sid, nowMs);
      TouchOneMore(was, before, ttl, nowMs, sid);
    } else {
      assert LiveAmong(was, cfg.host, alive, done + {sid}) == before;
    }
  }

  /** `after` says what probing a set of sessions leaves; probing `sid` takes it one further. */
  ghost predicate OneFurther(cfg: Config, nowMs: Time, sid: string, v: SessionView, alive: int -> bool,
                             after: set<string> -> Db, done: set<string>) {
    after(done + {sid}) ==
    if v.host == cfg.host && alive(v.pid) then Run(after(done), TouchPipeline(cfg.store, sid, nowMs)) else after(done)
  }

  ghost predicate Stepwise(cfg: Config, nowMs: Time, views: map<string, SessionView>, alive: int -> bool,
                           after: set<string> -> Db) {
    forall done, sid :: sid in views && sid !in done ==> OneFurther(cfg, nowMs, sid, views[sid], alive, after, done)
  }

  lemma ProbeFurther(cfg: Config, s: Sys, sid: string, alive: int -> bool, after: set<string> -> Db, done: set<string>)
    returns (es: seq<Event>)
    requires s.ticker.Probing? && sid in s.ticker.views && s.db == after(done)
    requires OneFurther(cfg, s.ticker.nowMs, sid, s.ticker.views[sid], alive, after, done)
    ensures Reaches(cfg, s, es, after(done + {sid}), Probing(s.ticker.nowMs, s.ticker.views - {sid}))
  {
    es := ProbeOne(cfg, s, sid, alive(s.ticker.views[sid].pid));
  }

  lemma OneFewer<K, V>(m: map<K, V>, k: K, done: set<K>)
    requires k in m && m.Keys !! done
    ensures var rest := m - {k};
            && rest.Keys !! done + {k} && |rest| < |m|
            && done + {k} + rest.Keys == done + m.Keys
            && forall other :: other in rest ==> other in m && rest[other] == m[other]
  {
    var rest := m - {k};
    assert rest.Keys == m.Keys - {k};
    assert |rest| == |rest.Keys| && |m| == |m.Keys|;
  }

  /** A run that probes them one after another. `all` is the whole listing, of which some are still
      to be probed. */
  lemma {:induction false} ProbesAll(cfg: Config, s: Sys, all: map<string, SessionView>, done: set<string>,
                                     alive: int -> bool, after: set<string> -> Db)
    returns (es: seq<Event>)
    requires s.ticker.Probing? && s.ticker.views.Keys !! done && s.db == after(done)
    requires Stepwise(cfg, s.ticker.nowMs, all, alive, after)
    requires forall sid :: sid in s.ticker.views ==> sid in all && s.ticker.views[sid] == all[sid]
    ensures Reaches(cfg, s, es, after(done + s.ticker.views.Keys), Probing(s.ticker.nowMs, map[]))
    decreases |s.ticker.views|
  {
    var n, views := s.ticker.nowMs, s.ticker.views;
    if views == map[] {
      es := [];
      assert done + views.Keys == done;
    } else {
      var sid :| sid in views;
      OneFewer(views, sid, done);
      assert OneFurther(cfg, n, sid, all[sid], alive, after, done);
      var first := ProbeFurther(cfg, s, sid, alive, after, done);
      var mid := Final(cfg, s, first);
      var rest := ProbesAll(cfg, mid, all, done + {sid}, alive, after);
      ReachesMore(cfg, s, first, rest, after(done + views.Keys), Probing(n, map[]));
      es := first + rest;
    }
  }

  /** Such a run over the listed sessions touches exactly the live ones. */
  lemma ProbesListed(cfg: Config, s: Sys, ids: set<string>, alive: int -> bool) returns (es: seq<Event>)
    requires cfg.host != "" && s.ticker.Probing? && s.ticker.views == ViewsIn(s.db, ids)
    requires forall sid :: sid in ids ==> Listed(s.db, sid)
    ensures Reaches(cfg, s, es,
                    TouchAll(s.db, LiveAmong(s.db, cfg.host, alive, ids), Seconds(cfg.store.sessionTTL),
                      s.ticker.nowMs),
                    Probing(s.ticker.nowMs, map[]))
  {
    var n, was := s.ticker.nowMs, s.db;
    var after := (done: set<string>) => TouchAll(was, LiveAmong(was, cfg.host, alive, done),
        Seconds(cfg.store.sessionTTL), n);
    assert LiveAmong(was, cfg.host, alive, {}) == {};
    TouchNobody(was, Seconds(cfg.store.sessionTTL), n);
    forall done, sid | sid in s.ticker.views && sid !in done
      ensures OneFurther(cfg, n, sid, s.ticker.views[sid], alive, after, done)
    {
      ProbeTouches(cfg, was, done, sid, alive, n);
    }
    es := ProbesAll(cfg, s, s.ticker.views, {}, alive, after);
    assert {} + s.ticker.views.Keys == ids;
  }

  lemma ListsAll(cfg: Config, s: Sys, nowMs: Time) returns (es: seq<Event>)
    requires cfg.host != "" && s.ticker.Resting?
    ensures Reaches(cfg, s, es, s.db, Probing(nowMs, ViewsIn(s.db, s.db.zset.Keys)))
  {
    OneStep(cfg, s, TickList(true));
    var s1 := Next(cfg, s, TickList(true));
    assert s1.ticker.views == ViewsIn(s.db, {});
    var gets := GetsAll(cfg, s1, {});
    var s2 := Final(cfg, s1, gets);
    assert {} + s1.ticker.pending == s.db.zset.Keys;
    var k := Probing(nowMs, ViewsIn(s.db, s.db.zset.Keys));
    OneStep(cfg, s2, TickNow(nowMs));
    ReachesMore(cfg, s1, gets, [TickNow(nowMs)], s.db, k);
    ReachesMore(cfg, s, [TickList(true)], gets + [TickNow(nowMs)], s.db, k);
    es := [TickList(true)] + (gets + [TickNow(nowMs)]);
  }

  lemma CutsAndSweeps(cfg: Config, s: Sys, clock: Time)
    requires s.ticker.Probing? && s.ticker.views == map[]
    ensures Reaches(cfg, s, [TickCut(clock)] + [TickSweep(true)], Apply(s.db, ZRemRange(clock - cfg.sweepTTL)), Resting)
  {
    var cut := Next(cfg, s, TickCut(clock));
    OneStep(cfg, s, TickCut(clock));
    OneStep(cfg, cut, TickSweep(true));
    ReachesMore(cfg, s, [TickCut(clock)], [TickSweep(true)], Apply(s.db, ZRemRange(clock - cfg.sweepTTL)), Resting);
  }

  lemma ListedOnly(db: Db) returns (ids: set<string>)
    ensures ViewsIn(db, db.zset.Keys) == ViewsIn(db, ids)
    ensures forall sid :: sid in ids ==> Listed(db, sid)
    ensures forall host, alive :: LiveAmong(db, host, alive, ids) == LiveMembers(db, host, alive)
  {
    ids := set sid | sid in db.zset && Listed(db, sid);
    forall host, alive
      ensures LiveAmong(db, host, alive, ids) == LiveMembers(db, host, alive)
    {
    }
  }

  /** There is a run of the ticker alone that touches exactly the live local sessions, all at one
      reading of the clock, and then sweeps: what `Daemon.Tick` does. */
  lemma UndisturbedTick(cfg: Config, s: Sys, alive: int -> bool, nowMs: Time, clock: Time) returns (es: seq<Event>)
    requires cfg.host != "" && s.ticker.Resting?
    ensures Reaches(cfg, s, es,
                    Apply(TouchAll(s.db, LiveMembers(s.db, cfg.host, alive), Seconds(cfg.store.sessionTTL), nowMs),
                          ZRemRange(clock - cfg.sweepTTL)),
                    Resting)
  {
    var was, ttl := s.db, Seconds(cfg.store.sessionTTL);
    var lists := ListsAll(cfg, s, nowMs);
    var listed := Final(cfg, s, lists);
    var ids := ListedOnly(was);
    var probes := ProbesListed(cfg, listed, ids, alive);
    var probed := Final(cfg, listed, probes);
    CutsAndSweeps(cfg, probed, clock);
    var end := [TickCut(clock)] + [TickSweep(true)];
    var swept := Apply(TouchAll(was, LiveMembers(was, cfg.host, alive), ttl, nowMs), ZRemRange(clock - cfg.sweepTTL));
    ReachesMore(cfg, listed, probes, end, swept, Resting);
    ReachesMore(cfg, s, lists, probes + end, swept, Resting);
    es := lists + (probes + end);
  }

  /** Without a host, or when the listing fails, a tick only sweeps. */
  lemma UnrefreshedTick(cfg: Config, s: Sys, clock: Time) returns (es: seq<Event>)
    requires s.ticker.Resting?
    ensures Reaches(cfg, s, es, Apply(s.db, ZRemRange(clock - cfg.sweepTTL)), Resting)
  {
    var cut := if cfg.host == "" then s else Next(cfg, s, TickList(false));
    var end := [TickCut(clock)] + [TickSweep(true)];
    OneStep(cfg, cut, TickCut(clock));
    OneStep(cfg, Next(cfg, cut, TickCut(clock)), TickSweep(true));
    ReachesMore(cfg, cut, [TickCut(clock)], [TickSweep(true)], Apply(s.db, ZRemRange(clock - cfg.sweepTTL)), Resting);
    if cfg.host == "" {
      es := end;
    } else {
      OneStep(cfg, s, TickList(false));
      ReachesMore(cfg, s, [TickList(false)], end, Apply(s.db, ZRemRange(clock - cfg.sweepTTL)), Resting);
      es := [TickList(false)] + end;
    }
  }

  /** A boot that nobody disturbs does what `RedisStore.TouchActiveSessions` does. */
  lemma UndisturbedBoot(cfg: Config, s: Sys, nowMs: Time)
    requires s.boot.Settled?
    ensures Valid(cfg, s, [BootList(nowMs)] + [BootTouch])
    ensures Final(cfg, s, [BootList(nowMs)] + [BootTouch]) ==
            s.(db := s.db.(zset := map m | m in s.db.zset :: nowMs))
  {
    var listed := Next(cfg, s, BootList(nowMs));
    OneStep(cfg, s, BootList(nowMs));
    OneStep(cfg, listed, BootTouch);
    FinalConcat(cfg, s, [BootList(nowMs)], [BootTouch]);
    assert Next(cfg, listed, BootTouch).db.zset == map m | m in s.db.zset :: nowMs;
  }

  // ---- whatever the order ----

  /** A step of the ticker and of nobody else, with every store call successful, probes answered
      by `alive`, and the two readings of the clock. */
  predicate TickerStep(s: Sys, e: Event, alive: int -> bool, nowMs: Time, clock: Time) {
    match e
    case TickList(ok) => ok
    case TickGet(_, ok) => ok
    case TickNow(n) => n == nowMs
    case TickProbe(sid, answer) =>
      s.ticker.Probing? && sid in s.ticker.views ==> answer == alive(s.ticker.views[sid].pid)
    case TickTouch => true
    case TickCut(c) => c == clock
    case TickSweep(ok) => ok
    case _ => false
  }

  /** Nothing but the ticker moves until it rests. */
  ghost predicate Round(cfg: Config, s: Sys, es: seq<Event>, alive: int -> bool, nowMs: Time, clock: Time)
    decreases |es|
  {
    if s.ticker.Resting? then es == []
    else
      && es != [] && Enabled(cfg, s, es[0]) && TickerStep(s, es[0], alive, nowMs, clock)
      && Round(cfg, Next(cfg, s, es[0]), es[1..], alive, nowMs, clock)
  }

  /** What a tick under way has done so far. `after(done)` is what touching the live ones among
      the sessions `done` leaves, `listed` all that are listed. */
  ghost predicate UnderWay(cfg: Config, was: Db, listed: map<string, SessionView>, after: set<string> -> Db,
                           db: Db, k: Ticker, nowMs: Time, clock: Time) {
    match k
    case Resting => db == Apply(after(listed.Keys), ZRemRange(clock - cfg.sweepTTL))
    case Listing(pending, views) =>
      db == was && was == after({}) && pending <= was.zset.Keys && views == ViewsIn(was, was.zset.Keys - pending)
    case Probing(n, views) =>
      n == nowMs && db == after(listed.Keys - views.Keys) && Among(views, listed)
    case Touching(n, views, x, todo) =>
      n == nowMs && todo != [] && Run(db, todo) == after(listed.Keys - views.Keys) && Among(views, listed)
    case Sweeping(cutoff) => db == after(listed.Keys) && cutoff == clock - cfg.sweepTTL
  }

  predicate Among(views: map<string, SessionView>, listed: map<string, SessionView>) {
    forall sid :: sid in views ==> sid in listed && views[sid] == listed[sid]
  }

  lemma GetStep(cfg: Config, was: Db, listed: map<string, SessionView>, after: set<string> -> Db, s: Sys, sid: string,
                nowMs: Time, clock: Time)
    requires UnderWay(cfg, was, listed, after, s.db, s.ticker, nowMs, clock) && Enabled(cfg, s, TickGet(sid, true))
    ensures var p := Next(cfg, s, TickGet(sid, true)); UnderWay(cfg, was, listed, after, p.db, p.ticker, nowMs, clock)
  {
    var pending := s.ticker.pending;
    assert was.zset.Keys - (pending - {sid}) == (was.zset.Keys - pending) + {sid};
    assert Next(cfg, s, TickGet(sid, true)).ticker.views == ViewsIn(was, was.zset.Keys - (pending - {sid}));
  }

  lemma NowStep(cfg: Config, was: Db, listed: map<string, SessionView>, after: set<string> -> Db, s: Sys, nowMs: Time,
                clock: Time)
    requires UnderWay(cfg, was, listed, after, s.db, s.ticker, nowMs, clock) && Enabled(cfg, s, TickNow(nowMs))
    requires listed == ViewsIn(was, was.zset.Keys)
    ensures var p := Next(cfg, s, TickNow(nowMs)); UnderWay(cfg, was, listed, after, p.db, p.ticker, nowMs, clock)
  {
    assert was.zset.Keys - {} == was.zset.Keys;
    assert listed.Keys - listed.Keys == {};
  }

  lemma ProbeStep(cfg: Config, was: Db, listed: map<string, SessionView>, after: set<string> -> Db, s: Sys, sid: string,
                  alive: int -> bool, nowMs: Time, clock: Time)
    requires UnderWay(cfg, was, listed, after, s.db, s.ticker, nowMs, clock) && s.ticker.Probing?
             && sid in s.ticker.views
    requires Stepwise(cfg, nowMs, listed, alive, after)
    ensures var p := Next(cfg, s, TickProbe(sid, alive(s.ticker.views[sid].pid)));
            UnderWay(cfg, was, listed, after, p.db, p.ticker, nowMs, clock)
  {
    var views := s.ticker.views;
    var done := listed.Keys - views.Keys;
    assert OneFurther(cfg, nowMs, sid, listed[sid], alive, after, done);
    assert (views - {sid}).Keys == views.Keys - {sid};
    assert listed.Keys - (views - {sid}).Keys == done + {sid};
  }

  lemma TouchStepUnderWay(cfg: Config, was: Db, listed: map<string, SessionView>, after: set<string> -> Db, s: Sys,
                          nowMs: Time, clock: Time)
    requires UnderWay(cfg, was, listed, after, s.db, s.ticker, nowMs, clock) && Enabled(cfg, s, TickTouch)
    ensures var p := Next(cfg, s, TickTouch); UnderWay(cfg, was, listed, after, p.db, p.ticker, nowMs, clock)
  {
    var k := s.ticker;
    assert Run(s.db, k.todo) == Run(Apply(s.db, k.todo[0]), k.todo[1..]);
    if |k.todo| == 1 {
      assert k.todo[1..] == [];
      assert Run(Apply(s.db, k.todo[0]), []) == Apply(s.db, k.todo[0]);
    }
  }

  lemma CutStep(cfg: Config, was: Db, listed: map<string, SessionView>, after: set<string> -> Db, s: Sys, nowMs: Time,
                clock: Time)
    requires UnderWay(cfg, was, listed, after, s.db, s.ticker, nowMs, clock) && Enabled(cfg, s, TickCut(clock))
    requires !s.ticker.Resting?
    ensures var p := Next(cfg, s, TickCut(clock)); UnderWay(cfg, was, listed, after, p.db, p.ticker, nowMs, clock)
  {
    assert listed.Keys - s.ticker.views.Keys == listed.Keys;
  }

  lemma UnderWayStep(cfg: Config, was: Db, listed: map<string, SessionView>, after: set<string> -> Db, s: Sys, e: Event,
                     alive: int -> bool, nowMs: Time, clock: Time)
    requires UnderWay(cfg, was, listed, after, s.db, s.ticker, nowMs, clock) && !s.ticker.Resting?
    requires Enabled(cfg, s, e) && TickerStep(s, e, alive, nowMs, clock)
    requires listed == ViewsIn(was, was.zset.Keys) && Stepwise(cfg, nowMs, listed, alive, after)
    ensures Next(cfg, s, e).workers == s.workers
    ensures var p := Next(cfg, s, e); UnderWay(cfg, was, listed, after, p.db, p.ticker, nowMs, clock)
  {
    match e
    case TickGet(sid, _) => GetStep(cfg, was, listed, after, s, sid, nowMs, clock);
    case TickNow(_) => NowStep(cfg, was, listed, after, s, nowMs, clock);
    case TickProbe(sid, _) => ProbeStep(cfg, was, listed, after, s, sid, alive, nowMs, clock);
    case TickTouch => TouchStepUnderWay(cfg, was, listed, after, s, nowMs, clock);
    case TickCut(_) => CutStep(cfg, was, listed, after, s, nowMs, clock);
    case TickSweep(_) =>
  }

  lemma {:induction false} EveryRound(cfg: Config, was: Db, listed: map<string, SessionView>,
                                      after: set<string> -> Db, s: Sys,
                                      es: seq<Event>, alive: int -> bool, nowMs: Time, clock: Time)
    requires UnderWay(cfg, was, listed, after, s.db, s.ticker, nowMs, clock) && Round(cfg, s, es, alive, nowMs, clock)
    requires listed == ViewsIn(was, was.zset.Keys) && Stepwise(cfg, nowMs, listed, alive, after)
    ensures Reaches(cfg, s, es, Apply(after(listed.Keys), ZRemRange(clock - cfg.sweepTTL)), Resting)
    decreases |es|
  {
    if !s.ticker.Resting? {
      UnderWayStep(cfg, was, listed, after, s, es[0], alive, nowMs, clock);
      EveryRound(cfg, was, listed, after, Next(cfg, s, es[0]), es[1..], alive, nowMs, clock);
    }
  }

  lemma ViewIsListed(was: Db, sid: string)
    requires sid in ViewsIn(was, was.zset.Keys)
    ensures Listed(was, sid) && ViewsIn(was, was.zset.Keys)[sid] == ViewFromHash(sid, FieldsAt(was, SessionKey(sid)))
  {
  }

  lemma LiveViewed(was: Db, host: string, alive: int -> bool)
    ensures LiveAmong(was, host, alive, ViewsIn(was, was.zset.Keys).Keys) == LiveMembers(was, host, alive)
    ensures LiveAmong(was, host, alive, {}) == {}
  {
  }

  /** Every tick that nobody disturbs, whatever the order in which it reads and probes the
      sessions, does what `Daemon.Tick` does. */
  lemma EveryUndisturbedTick(cfg: Config, s: Sys, es: seq<Event>, alive: int -> bool, nowMs: Time, clock: Time)
    requires cfg.host != "" && s.ticker.Resting?
    requires Round(cfg, Next(cfg, s, TickList(true)), es, alive, nowMs, clock)
    ensures Reaches(cfg, s, [TickList(true)] + es,
                    Apply(TouchAll(s.db, LiveMembers(s.db, cfg.host, alive), Seconds(cfg.store.sessionTTL), nowMs),
                          ZRemRange(clock - cfg.sweepTTL)),
                    Resting)
  {
    var was, ttl := s.db, Seconds(cfg.store.sessionTTL);
    var listed := ViewsIn(was, was.zset.Keys);
    var after := (done: set<string>) => TouchAll(was, LiveAmong(was, cfg.host, alive, done), ttl, nowMs);
    LiveViewed(was, cfg.host, alive);
    TouchNobody(was, ttl, nowMs);
    forall done, sid | sid in listed && sid !in done
      ensures OneFurther(cfg, nowMs, sid, listed[sid], alive, after, done)
    {
      ViewIsListed(was, sid);
      ProbeTouches(cfg, was, done, sid, alive, nowMs);
    }
    OneStep(cfg, s, TickList(true));
    var s1 := Next(cfg, s, TickList(true));
    FirstUnderWay(cfg, listed, after, s, nowMs, clock);
    EveryRound(cfg, was, listed, after, s1, es, alive, nowMs, clock);
    ReachesMore(cfg, s, [TickList(true)], es, Apply(after(listed.Keys), ZRemRange(clock - cfg.sweepTTL)), Resting);
  }

  lemma FirstUnderWay(cfg: Config, listed: map<string, SessionView>, after: set<string> -> Db, s: Sys, nowMs: Time,
                      clock: Time)
    requires cfg.host != "" && s.ticker.Resting? && s.db == after({})
    ensures var p := Next(cfg, s, TickList(true)); UnderWay(cfg, s.db, listed, after, p.db, p.ticker, nowMs, clock)
  {
    assert s.db.zset.Keys - s.db.zset.Keys == {};
    assert ViewsIn(s.db, {}) == map[];
  }
}
