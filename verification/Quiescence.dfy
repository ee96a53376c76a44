/** What holds of a session in the running mesh whenever nobody is at work on it, and what it
    takes while somebody is: the results about messages handled one after another, command by
    command. */
module Quiescence {
  import opened Events
  import opened Keys
  import opened Redis
  import opened Store
  import opened Bridge
  import opened Mesh
  import opened NonInterference
  import Messages

  // ---- one worker at a time ----

  lemma HolderMoves(workers: seq<Worker>, i: nat, next: Worker, sid: string)
    requires i < |workers| && Exclusive(workers, sid) && Holds(workers[i], sid)
    requires Holds(next, sid) || next.Idle?
    ensures Holder(workers, sid) == workers[i] && Holder(workers[i := next], sid) == next
  {
    HolderIs(workers, sid, i);
    var after := workers[i := next];
    if next.Idle? {
      HolderNone(after, sid);
    } else {
      HolderIs(after, sid, i);
    }
  }

  lemma HolderTakes(workers: seq<Worker>, i: nat, next: Worker, sid: string)
    requires i < |workers| && workers[i].Idle? && Exclusive(workers[i := next], sid) && Holds(next, sid)
    ensures Holder(workers, sid) == Idle && Holder(workers[i := next], sid) == next
  {
    var after := workers[i := next];
    assert Holds(after[i], sid);
    forall l | 0 <= l < |workers|
      ensures !Holds(workers[l], sid)
    {
      assert l != i ==> after[l] == workers[l] && !Holds(after[l], sid);
    }
    HolderNone(workers, sid);
    HolderIs(after, sid, i);
  }

  /** What is left to do for the session. */
  function Left(w: Worker): seq<Cmd> {
    if w.Running? then w.todo else []
  }

  lemma RestLeft(w: Worker)
    requires w.Running? && w.todo != []
    ensures Left(Rest(w)) == w.todo[1..]
  {
  }

  // ---- the rings ----

  /** The pushes to a ring that are still to come, the last first. */
  function Pushes(todo: seq<Cmd>, key: string): seq<Activity> {
    if todo == [] then []
    else Pushes(todo[1..], key) + if todo[0].LPush? && todo[0].key == key then [todo[0].item] else []
  }

  lemma {:induction false} PushesConcat(a: seq<Cmd>, b: seq<Cmd>, key: string)
    ensures Pushes(a + b, key) == Pushes(b, key) + Pushes(a, key)
    decreases |a|
  {
    if a == [] {
      assert a + b == b;
    } else {
      assert (a + b)[1..] == a[1..] + b && (a + b)[0] == a[0];
      PushesConcat(a[1..], b, key);
    }
  }

  lemma {:induction false} NoPushes(todo: seq<Cmd>, key: string)
    requires forall c :: c in todo ==> !c.LPush? || c.key != key
    ensures Pushes(todo, key) == []
  {
    if todo != [] {
      NoPushes(todo[1..], key);
    }
  }

  lemma RingPushes(key: string, ev: Activity, size: int, ttl: int)
    ensures Pushes(RingPipeline(key, ev, size, ttl), key) == [ev]
  {
    var p := RingPipeline(key, ev, size, ttl);
    NoPushes(p[1..], key);
  }

  lemma PushPushes(cfg: Config, ev: Activity, hashExists: bool, key: string)
    ensures Pushes(PushPipeline(cfg.store, ev, hashExists), key) ==
            Pushes(GlobalRingPipeline(cfg.store, ev), key) + Pushes(OwnRingPipeline(cfg.store, ev, hashExists), key)
  {
    var own, tail := OwnRingPipeline(cfg.store, ev, hashExists), GlobalRingPipeline(cfg.store, ev);
    var mid := RegisterPipeline(ev.sid, PushFields(ev, hashExists), TTL(cfg), ev.ts);
    PushParts(cfg.store, ev, hashExists);
    PushesConcat(own, mid + tail, key);
    PushesConcat(mid, tail, key);
    NoPushes(mid, key);
  }

  lemma RingsPushes(cfg: Config, ev: Activity, hashExists: bool)
    requires ev.sid != "global"
    ensures Pushes(GlobalRingPipeline(cfg.store, ev), ACTIVITY_GLOBAL_KEY) == [ev]
    ensures Pushes(GlobalRingPipeline(cfg.store, ev), ActivityKey(ev.sid)) == []
    ensures Pushes(OwnRingPipeline(cfg.store, ev, hashExists), ACTIVITY_GLOBAL_KEY) == []
    ensures Pushes(OwnRingPipeline(cfg.store, ev, hashExists), ActivityKey(ev.sid)) == if hashExists then [ev] else []
  {
    KeysSeparate(ev.sid, ev.sid);
    RingPushes(ActivityKey(ev.sid), ev, cfg.store.activityRingSize, cfg.store.activityPerSessTTL);
    RingPushes(ACTIVITY_GLOBAL_KEY, ev, cfg.store.globalRingSize, cfg.store.activityGlobalTTL);
    NoPushes(OwnRingPipeline(cfg.store, ev, hashExists), ACTIVITY_GLOBAL_KEY);
    NoPushes(GlobalRingPipeline(cfg.store, ev), ActivityKey(ev.sid));
  }

  lemma ProgramPushes(cfg: Config, m: Msg, hashExists: bool)
    requires m.ActivityMsg? && WellAddressed(m) && m.sid != "global"
    ensures Pushes(ActivityProgram(cfg, m, hashExists), ACTIVITY_GLOBAL_KEY) == [m.activity]
    ensures Pushes(ActivityProgram(cfg, m, hashExists), ActivityKey(m.sid)) == if hashExists then [m.activity] else []
  {
    RingsPushes(cfg, m.activity, hashExists);
    SeedingPushesNothing(cfg, m, hashExists, ActivityKey(m.sid));
    SeedingPushesNothing(cfg, m, hashExists, ACTIVITY_GLOBAL_KEY);
  }

  lemma SeedingPushesNothing(cfg: Config, m: Msg, hashExists: bool, key: string)
    requires m.ActivityMsg?
    ensures var ev := m.activity;
            Pushes(ActivityProgram(cfg, m, hashExists), key) ==
            Pushes(GlobalRingPipeline(cfg.store, ev), key) + Pushes(OwnRingPipeline(cfg.store, ev, hashExists), key)
  {
    var ev, seeding := m.activity, TouchOrCreatePipeline(cfg.store, m.sid, m.activity.ts, m.activity.cwd);
    PushesConcat(PushPipeline(cfg.store, ev, hashExists), seeding, key);
    NoPushes(seeding, key);
    PushPushes(cfg, ev, hashExists, key);
  }

  /** The entries of the session's own ring, those on their way included, are the newest of its
      pushes to the global ring, those on their way included. */
  predicate RingsInStep(s: Sys, sid: string) {
    var left := Left(Holder(s.workers, sid));
    Pushes(left, ActivityKey(sid)) + ItemsAt(s.db, ActivityKey(sid)) <=
    Pushes(left, ACTIVITY_GLOBAL_KEY) + Messages.Of(LogAt(s, ACTIVITY_GLOBAL_KEY), sid)
  }

  ghost predicate WithinLogs(s: Sys) {
    forall key :: ItemsAt(s.db, key) <= LogAt(s, key)
  }

  lemma PerformWithinLogs(s: Sys, c: Cmd)
    requires WithinLogs(s)
    ensures WithinLogs(Perform(s, c))
  {
    var p := Perform(s, c);
    forall key
      ensures ItemsAt(p.db, key) <= LogAt(p, key)
    {
      assert ItemsAt(s.db, key) <= LogAt(s, key);
    }
  }

  lemma WithinLogsStep(cfg: Config, s: Sys, e: Event)
    requires WithinLogs(s) && Enabled(cfg, s, e)
    ensures WithinLogs(Next(cfg, s, e))
  {
    match e
    case Clock(t) =>
      forall key
        ensures ItemsAt(Advance(s.db, t), key) <= LogAt(s, key)
      {
        assert ItemsAt(s.db, key) <= LogAt(s, key);
      }
    case Work(i) =>
      if s.workers[i].Running? {
        PerformWithinLogs(s, s.workers[i].todo[0]);
      }
    case TickTouch => PerformWithinLogs(s, s.ticker.todo[0]);
    case TickSweep(_) => PerformWithinLogs(s, ZRemRange(s.ticker.cutoff));
    case BootTouch => PerformWithinLogs(s, ZAddXX(s.boot.members, s.boot.nowMs));
    case _ =>
  }

  lemma PrefixUnder(a: seq<Activity>, items: seq<Activity>, shorter: seq<Activity>, whole: seq<Activity>)
    requires a + items <= whole && shorter <= items
    ensures a + shorter <= whole
  {
  }

  lemma PushesHead(todo: seq<Cmd>, key: string)
    requires todo != []
    ensures todo[0].LPush? && todo[0].key == key ==> Pushes(todo, key) == Pushes(todo[1..], key) + [todo[0].item]
    ensures !(todo[0].LPush? && todo[0].key == key) ==> Pushes(todo, key) == Pushes(todo[1..], key)
  {
  }

  /** A list command shortens a ring at most, but for a push. */
  lemma RingShortened(db: Db, c: Cmd, key: string)
    requires !c.LPush? || c.key != key
    ensures ItemsAt(Apply(db, c), key) <= ItemsAt(db, key)
  {
  }

  lemma RingPushed(db: Db, c: Cmd, key: string)
    requires c.LPush? && c.key == key
    ensures ItemsAt(Apply(db, c), key) == [c.item] + ItemsAt(db, key)
  {
  }

  lemma Reassociate(a: seq<Activity>, x: Activity, b: seq<Activity>)
    ensures (a + [x]) + b == a + ([x] + b)
  {
  }

  /** One command for the session: what is pushed was on its way. */
  lemma OwnCommandInStep(db: Db, log: seq<Activity>, todo: seq<Cmd>, sid: string)
    requires todo != [] && Owned(todo[0], sid) && sid != "global"
    requires Pushes(todo, ActivityKey(sid)) + ItemsAt(db, ActivityKey(sid)) <=
             Pushes(todo, ACTIVITY_GLOBAL_KEY) + Messages.Of(log, sid)
    ensures var c := todo[0];
            var log' := if c.LPush? && c.key == ACTIVITY_GLOBAL_KEY then [c.item] + log else log;
            Pushes(todo[1..], ActivityKey(sid)) + ItemsAt(Apply(db, c), ActivityKey(sid)) <=
            Pushes(todo[1..], ACTIVITY_GLOBAL_KEY) + Messages.Of(log', sid)
  {
    var c, key, rest := todo[0], ActivityKey(sid), todo[1..];
    var items, shared := ItemsAt(db, key), Messages.Of(log, sid);
    KeysSeparate(sid, sid);
    PushesHead(todo, key);
    PushesHead(todo, ACTIVITY_GLOBAL_KEY);
    if c.LPush? && c.key == key {
      RingPushed(db, c, key);
      Reassociate(Pushes(rest, key), c.item, items);
    } else {
      RingShortened(db, c, key);
      PrefixUnder(Pushes(rest, key), items, ItemsAt(Apply(db, c), key), Pushes(todo, ACTIVITY_GLOBAL_KEY) + shared);
      if c.LPush? {
        Messages.OfCons(c.item, log, sid);
        Reassociate(Pushes(rest, ACTIVITY_GLOBAL_KEY), c.item, shared);
      }
    }
  }

  /** An activity of the session finds its Hash, or no entry in its ring. */
  predicate NotOrphaned(s: Sys, e: Event, sid: string) {
    e.Work? && e.i < |s.workers| && s.workers[e.i].Checking? && Holds(s.workers[e.i], sid) ==>
      SessionKey(sid) in s.db.hashes || ItemsAt(s.db, ActivityKey(sid)) == []
  }

  lemma CheckInStep(cfg: Config, s: Sys, i: nat, sid: string)
    requires sid != "global" && RingsInStep(s, sid) && SysOk(s) && Exclusive(s.workers, sid)
    requires Enabled(cfg, s, Work(i)) && s.workers[i].Checking? && Holds(s.workers[i], sid)
             && NotOrphaned(s, Work(i), sid)
    ensures RingsInStep(Next(cfg, s, Work(i)), sid)
  {
    var w := s.workers[i];
    assert w in s.workers;
    var hashExists := SessionKey(sid) in s.db.hashes;
    HolderMoves(s.workers, i, Running(w.msg, ActivityProgram(cfg, w.msg, hashExists)), sid);
    ProgramPushes(cfg, w.msg, hashExists);
    var items, log := ItemsAt(s.db, ActivityKey(sid)), Messages.Of(LogAt(s, ACTIVITY_GLOBAL_KEY), sid);
    assert Left(w) == [] && Pushes([], ActivityKey(sid)) == [] && Pushes([], ACTIVITY_GLOBAL_KEY) == [];
    BothExtended(w.msg.activity, items, log, hashExists);
  }

  lemma BothExtended(ev: Activity, items: seq<Activity>, log: seq<Activity>, found: bool)
    requires [] + items <= [] + log && (!found ==> items == [])
    ensures (if found then [ev] else []) + items <= [ev] + log
  {
    assert [] + items == items && [] + log == log;
  }

  lemma OwnWorkInStep(cfg: Config, s: Sys, i: nat, sid: string)
    requires sid != "global" && RingsInStep(s, sid) && SysOk(s) && Exclusive(s.workers, sid)
    requires Enabled(cfg, s, Work(i)) && s.workers[i].Running? && Holds(s.workers[i], sid)
    ensures RingsInStep(Next(cfg, s, Work(i)), sid)
  {
    var w := s.workers[i];
    assert w in s.workers && w.todo[0] in w.todo;
    HolderMoves(s.workers, i, Rest(w), sid);
    RestLeft(w);
    OwnCommandInStep(s.db, LogAt(s, ACTIVITY_GLOBAL_KEY), w.todo, sid);
  }

  lemma ForeignCommandInStep(s: Sys, c: Cmd, other: string, sid: string)
    requires sid != "global" && Owned(c, other) && other != sid
    ensures ItemsAt(Apply(s.db, c), ActivityKey(sid)) == ItemsAt(s.db, ActivityKey(sid))
    ensures Messages.Of(LogAt(Perform(s, c), ACTIVITY_GLOBAL_KEY), sid)
            == Messages.Of(LogAt(s, ACTIVITY_GLOBAL_KEY), sid)
  {
    KeysSeparate(sid, other);
    KeysSeparate(other, sid);
    if c.LPush? {
      Messages.OfCons(c.item, LogAt(s, ACTIVITY_GLOBAL_KEY), sid);
    }
  }

  lemma ForeignWorkInStep(cfg: Config, s: Sys, i: nat, sid: string)
    requires sid != "global" && RingsInStep(s, sid) && SysOk(s)
    requires Enabled(cfg, s, Work(i)) && !Holds(s.workers[i], sid)
    ensures RingsInStep(Next(cfg, s, Work(i)), sid)
  {
    var w := s.workers[i];
    assert w in s.workers;
    HolderKept(s.workers, sid, i, Next(cfg, s, Work(i)).workers[i]);
    if w.Running? {
      assert w.todo[0] in w.todo;
      ForeignCommandInStep(s, w.todo[0], MsgSid(w.msg), sid);
    }
  }

  lemma WorkInStep(cfg: Config, s: Sys, i: nat, sid: string)
    requires sid != "global" && RingsInStep(s, sid) && SysOk(s) && Exclusive(s.workers, sid)
    requires Enabled(cfg, s, Work(i)) && NotOrphaned(s, Work(i), sid)
    ensures RingsInStep(Next(cfg, s, Work(i)), sid)
  {
    if !Holds(s.workers[i], sid) {
      ForeignWorkInStep(cfg, s, i, sid);
    } else if s.workers[i].Checking? {
      CheckInStep(cfg, s, i, sid);
    } else {
      OwnWorkInStep(cfg, s, i, sid);
    }
  }

  lemma TakeInStep(cfg: Config, s: Sys, i: nat, m: Msg, clock: Time, sid: string)
    requires RingsInStep(s, sid) && Enabled(cfg, s, Take(i, m, clock))
    requires Exclusive(Next(cfg, s, Take(i, m, clock)).workers, sid)
    ensures RingsInStep(Next(cfg, s, Take(i, m, clock)), sid)
  {
    var w := Begin(cfg, m, clock);
    if Holds(w, sid) {
      HolderTakes(s.workers, i, w, sid);
      NoPushes(Left(w), ActivityKey(sid));
      NoPushes(Left(w), ACTIVITY_GLOBAL_KEY);
    } else {
      HolderKept(s.workers, sid, i, w);
    }
  }

  lemma TouchInStep(cfg: Config, s: Sys, sid: string)
    requires sid != "global" && RingsInStep(s, sid) && SysOk(s) && Enabled(cfg, s, TickTouch)
    requires s.ticker.sid == sid ==> !s.ticker.todo[0].LPush?
    ensures RingsInStep(Next(cfg, s, TickTouch), sid)
  {
    var c, left := s.ticker.todo[0], Left(Holder(s.workers, sid));
    assert c in s.ticker.todo;
    if s.ticker.sid == sid {
      var items, after := ItemsAt(s.db, ActivityKey(sid)), ItemsAt(Apply(s.db, c), ActivityKey(sid));
      assert after <= items;
      PrefixUnder(Pushes(left, ActivityKey(sid)), items, after,
                  Pushes(left, ACTIVITY_GLOBAL_KEY) + Messages.Of(LogAt(s, ACTIVITY_GLOBAL_KEY), sid));
    } else {
      ForeignCommandInStep(s, c, s.ticker.sid, sid);
    }
  }

  lemma ClockInStep(s: Sys, t: Time, sid: string)
    requires RingsInStep(s, sid)
    ensures RingsInStep(s.(db := Advance(s.db, t)), sid)
  {
    var left := Left(Holder(s.workers, sid));
    var items, after := ItemsAt(s.db, ActivityKey(sid)), ItemsAt(Advance(s.db, t), ActivityKey(sid));
    PrefixUnder(Pushes(left, ActivityKey(sid)), items, after,
                Pushes(left, ACTIVITY_GLOBAL_KEY) + Messages.Of(LogAt(s, ACTIVITY_GLOBAL_KEY), sid));
  }

  predicate TouchPushesNothing(k: Ticker) {
    k.Touching? ==> forall c :: c in k.todo ==> !c.LPush?
  }

  /** Any other step leaves the rings, and who holds the session, alone. */
  lemma OtherInStep(cfg: Config, s: Sys, e: Event, sid: string)
    requires RingsInStep(s, sid) && TouchPushesNothing(s.ticker) && Enabled(cfg, s, e)
    requires !e.Clock? && !e.Take? && !e.Work? && !e.TickTouch?
    ensures RingsInStep(Next(cfg, s, e), sid) && TouchPushesNothing(Next(cfg, s, e).ticker)
  {
    var p := Next(cfg, s, e);
    assert p.workers == s.workers && p.db.lists == s.db.lists && p.log == s.log;
  }

  lemma InStep(cfg: Config, s: Sys, e: Event, sid: string)
    requires sid != "global" && RingsInStep(s, sid) && SysOk(s) && TouchPushesNothing(s.ticker) && Enabled(cfg, s, e)
    requires Exclusive(s.workers, sid) && Exclusive(Next(cfg, s, e).workers, sid) && NotOrphaned(s, e, sid)
    ensures RingsInStep(Next(cfg, s, e), sid) && TouchPushesNothing(Next(cfg, s, e).ticker)
  {
    match e
    case Clock(t) => ClockInStep(s, t, sid);
    case Take(i, m, clock) => TakeInStep(cfg, s, i, m, clock, sid);
    case Work(i) => WorkInStep(cfg, s, i, sid);
    case TickTouch =>
      assert s.ticker.todo[0] in s.ticker.todo;
      TouchInStep(cfg, s, sid);
    case _ => OtherInStep(cfg, s, e, sid);
  }

  ghost predicate NotOrphanedRun(cfg: Config, s: Sys, es: seq<Event>, sid: string)
    decreases |es|
  {
    es == [] || (NotOrphaned(s, es[0], sid) && NotOrphanedRun(cfg, Next(cfg, s, es[0]), es[1..], sid))
  }

  lemma {:induction false} InStepRun(cfg: Config, s: Sys, es: seq<Event>, sid: string)
    requires sid != "global" && RingsInStep(s, sid) && WithinLogs(s) && SysOk(s) && TouchPushesNothing(s.ticker)
    requires Valid(cfg, s, es) && ExclusiveRun(cfg, s, es, sid) && NotOrphanedRun(cfg, s, es, sid)
    ensures RingsInStep(Final(cfg, s, es), sid) && WithinLogs(Final(cfg, s, es))
    decreases |es|
  {
    if es != [] {
      var next := Next(cfg, s, es[0]);
      assert Exclusive(next.workers, sid);
      InStep(cfg, s, es[0], sid);
      WithinLogsStep(cfg, s, es[0]);
      SysOkStep(cfg, s, es[0]);
      InStepRun(cfg, next, es[1..], sid);
    }
  }

  /** In every state of the mesh in which nobody is at work on the session, its own ring and the
      global ring filtered to it are prefixes of one push history, so one is a prefix of the
      other, if no two workers ever held it at once and no activity of it was orphaned. */
  lemma RingsAgreeAtRest(cfg: Config, n: nat, es: seq<Event>, sid: string)
    requires sid != "global" && Valid(cfg, Start(n), es)
    requires ExclusiveRun(cfg, Start(n), es, sid) && NotOrphanedRun(cfg, Start(n), es, sid)
    requires forall w :: w in Final(cfg, Start(n), es).workers ==> !Holds(w, sid)
    ensures var s := Final(cfg, Start(n), es);
            var own, shared := ItemsAt(s.db, ActivityKey(sid)), Messages.Of(ItemsAt(s.db, ACTIVITY_GLOBAL_KEY), sid);
            var history := Messages.Of(LogAt(s, ACTIVITY_GLOBAL_KEY), sid);
            own <= history && shared <= history && (own <= shared || shared <= own)
  {
    HolderNone(Start(n).workers, sid);
    InStepRun(cfg, Start(n), es, sid);
    var s := Final(cfg, Start(n), es);
    HolderNone(s.workers, sid);
    var own, history := ItemsAt(s.db, ActivityKey(sid)), Messages.Of(LogAt(s, ACTIVITY_GLOBAL_KEY), sid);
    assert [] + own == own && [] + history == history;
    Messages.OfPrefix(ItemsAt(s.db, ACTIVITY_GLOBAL_KEY), LogAt(s, ACTIVITY_GLOBAL_KEY), sid);
  }
}
