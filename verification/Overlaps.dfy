/** Two workers on one session at once: runs that show what the conditions of `Quiescence` and
    `Scoring` are needed for. */
module Overlaps {
  import opened Events
  import opened Wrappers
  import opened Keys
  import opened Redis
  import opened Store
  import opened Bridge
  import opened Mesh
  import opened NonInterference
  import opened Undisturbed
  import opened Quiescence
  import opened Scoring
  import opened Journeys
  import Atomic
  import Messages
  import Phantoms
  import Strays

  // ---- the rings ----

  /** A run of the mesh in which no activity of the session is orphaned. */
  ghost predicate Goes(cfg: Config, s: Sys, es: seq<Event>, t: Sys, sid: string) {
    Valid(cfg, s, es) && NotOrphanedRun(cfg, s, es, sid) && Final(cfg, s, es) == t
  }

  lemma {:induction false} NotOrphanedConcat(cfg: Config, s: Sys, a: seq<Event>, b: seq<Event>, sid: string)
    requires NotOrphanedRun(cfg, s, a, sid) && NotOrphanedRun(cfg, Final(cfg, s, a), b, sid)
    ensures NotOrphanedRun(cfg, s, a + b, sid)
    decreases |a|
  {
    if a == [] {
      assert a + b == b;
    } else {
      assert (a + b)[0] == a[0] && (a + b)[1..] == a[1..] + b;
      NotOrphanedConcat(cfg, Next(cfg, s, a[0]), a[1..], b, sid);
    }
  }

  lemma GoesOn(cfg: Config, s: Sys, a: seq<Event>, t: Sys, b: seq<Event>, u: Sys, sid: string)
    requires Goes(cfg, s, a, t, sid) && Goes(cfg, t, b, u, sid)
    ensures Goes(cfg, s, a + b, u, sid)
  {
    FinalConcat(cfg, s, a, b);
    NotOrphanedConcat(cfg, s, a, b, sid);
  }

  lemma GoesOne(cfg: Config, s: Sys, e: Event, sid: string)
    requires Enabled(cfg, s, e) && NotOrphaned(s, e, sid)
    ensures Goes(cfg, s, [e], Next(cfg, s, e), sid)
  {
    OneStep(cfg, s, e);
    assert [e][1..] == [] && NotOrphanedRun(cfg, Next(cfg, s, e), [], sid);
  }

  lemma {:induction false} WorksGo(cfg: Config, s: Sys, i: nat, n: nat, sid: string)
    requires i < |s.workers| && s.workers[i].Running? && n <= |s.workers[i].todo|
    ensures NotOrphanedRun(cfg, s, Works(i, n), sid)
    decreases n
  {
    if n > 0 {
      var es := Works(i, n);
      assert es[0] == Work(i) && es[1..] == Works(i, n - 1);
      if n > 1 {
        WorksGo(cfg, Next(cfg, s, Work(i)), i, n - 1, sid);
      }
    }
  }

  /** A worker sends all it has left. */
  lemma Finishes(cfg: Config, s: Sys, i: nat, sid: string) returns (t: Sys)
    requires i < |s.workers| && s.workers[i].Running? && s.workers[i].todo != []
    ensures Goes(cfg, s, Works(i, |s.workers[i].todo|), t, sid)
    ensures t.db == Run(s.db, s.workers[i].todo) && t.workers == s.workers[i := Idle]
  {
    WorksOff(cfg, s, i);
    WorksGo(cfg, s, i, |s.workers[i].todo|, sid);
    t := Final(cfg, s, Works(i, |s.workers[i].todo|));
  }

  /** A worker takes an activity and finds its Hash. */
  lemma TakesActivity(cfg: Config, s: Sys, i: nat, ev: Activity)
    returns (t: Sys)
    requires i < |s.workers| && s.workers[i].Idle? && SessionKey(ev.sid) in s.db.hashes
    ensures Goes(cfg, s, [Take(i, ActivityMsg(ev.sid, ev), s.db.now)] + [Work(i)], t, ev.sid)
    ensures t.db == s.db
    ensures t.workers == s.workers[i := Running(ActivityMsg(ev.sid, ev), FoundProgram(cfg, ev))]
  {
    var m := ActivityMsg(ev.sid, ev);
    var mid := Next(cfg, s, Take(i, m, s.db.now));
    t := Next(cfg, mid, Work(i));
    GoesOne(cfg, s, Take(i, m, s.db.now), ev.sid);
    GoesOne(cfg, mid, Work(i), ev.sid);
    GoesOn(cfg, s, [Take(i, m, s.db.now)], mid, [Work(i)], t, ev.sid);
  }

  /** What a worker sends for an activity whose Hash exists. */
  function FoundProgram(cfg: Config, ev: Activity): seq<Cmd> {
    ActivityProgram(cfg, ActivityMsg(ev.sid, ev), true)
  }

  /** All of it but the commands to the session's own ring. */
  function Behind(cfg: Config, ev: Activity): seq<Cmd> {
    RegisterPipeline(ev.sid, PushFields(ev, true), TTL(cfg), ev.ts)
    + (GlobalRingPipeline(cfg.store, ev) + TouchOrCreatePipeline(cfg.store, ev.sid, ev.ts, ev.cwd))
  }

  lemma FoundParts(cfg: Config, ev: Activity)
    ensures FoundProgram(cfg, ev) == OwnRingPipeline(cfg.store, ev, true) + Behind(cfg, ev)
  {
    PushParts(cfg.store, ev, true);
  }

  predicate ListCommand(c: Cmd, key: string) {
    (c.LPush? || c.LTrim? || c.ExpireList?) && c.key == key
  }

  lemma {:induction false} RingAside(db: Db, cmds: seq<Cmd>, key: string)
    requires forall c :: c in cmds ==> !ListCommand(c, key)
    ensures ItemsAt(Run(db, cmds), key) == ItemsAt(db, key)
    decreases |cmds|
  {
    if cmds != [] {
      assert !ListCommand(cmds[0], key);
      RingAside(Apply(db, cmds[0]), cmds[1..], key);
    }
  }

  /** The newest entry of a ring. */
  predicate Heads(db: Db, key: string, ev: Activity) {
    ItemsAt(db, key) != [] && ItemsAt(db, key)[0] == ev
  }

  lemma RingHead(db: Db, key: string, ev: Activity, size: int, ttl: int)
    requires size >= 0 && ttl > 0
    ensures Heads(Run(db, RingPipeline(key, ev, size, ttl)), key, ev)
    ensures Heads(db, key, ev) ==> Heads(Run(db, RingPipeline(key, ev, size, ttl)[1..]), key, ev)
  {
    var trim, expire := LTrim(key, size - 1), ExpireList(key, Seconds(ttl));
    RingEffect(db, key, ev, size, ttl);
    assert RingPipeline(key, ev, size, ttl)[1..] == [trim, expire] && [trim, expire][1..] == [expire];
    assert Run(db, [trim, expire]) == Run(Apply(db, trim), [expire]) == Run(Apply(Apply(db, trim), expire), []);
  }

  /** The rest of the program leaves the session's own ring alone and heads the global one. */
  lemma BehindRings(cfg: Config, db: Db, ev: Activity)
    requires ev.sid != "global" && cfg.store.globalRingSize >= 0 && cfg.store.activityGlobalTTL > 0
    ensures var d := Run(db, Behind(cfg, ev));
            ItemsAt(d, ActivityKey(ev.sid)) == ItemsAt(db, ActivityKey(ev.sid)) && Heads(d, ACTIVITY_GLOBAL_KEY, ev)
  {
    var register := RegisterPipeline(ev.sid, PushFields(ev, true), TTL(cfg), ev.ts);
    var push, seed := GlobalRingPipeline(cfg.store, ev), TouchOrCreatePipeline(cfg.store, ev.sid, ev.ts, ev.cwd);
    KeysSeparate(ev.sid, ev.sid);
    RingAside(db, register + (push + seed), ActivityKey(ev.sid));
    RunConcat(db, register, push + seed);
    var d := Run(db, register);
    RunConcat(d, push, seed);
    RingHead(d, ACTIVITY_GLOBAL_KEY, ev, cfg.store.globalRingSize, cfg.store.activityGlobalTTL);
    RingAside(Run(d, push), seed, ACTIVITY_GLOBAL_KEY);
  }

  predicate RingsKept(store: StoreConfig) {
    && store.activityRingSize >= 0 && store.activityPerSessTTL > 0
    && store.globalRingSize >= 0 && store.activityGlobalTTL > 0
  }

  /** The whole program puts the activity in front of both rings. */
  lemma ProgramHeads(cfg: Config, db: Db, ev: Activity)
    requires ev.sid != "global" && RingsKept(cfg.store)
    ensures var d := Run(db, FoundProgram(cfg, ev));
            Heads(d, ActivityKey(ev.sid), ev) && Heads(d, ACTIVITY_GLOBAL_KEY, ev)
  {
    var own := OwnRingPipeline(cfg.store, ev, true);
    FoundParts(cfg, ev);
    RunConcat(db, own, Behind(cfg, ev));
    BehindRings(cfg, Run(db, own), ev);
    RingHead(db, ActivityKey(ev.sid), ev, cfg.store.activityRingSize, cfg.store.activityPerSessTTL);
  }

  /** Without its first command, the push to the session's own ring, it leaves that one's newest
      entry in front. */
  lemma RestHeads(cfg: Config, db: Db, ev: Activity, other: Activity)
    requires ev.sid != "global" && RingsKept(cfg.store) && Heads(db, ActivityKey(ev.sid), other)
    ensures FoundProgram(cfg, ev)[0] == LPush(ActivityKey(ev.sid), ev)
    ensures var d := Run(db, FoundProgram(cfg, ev)[1..]);
            Heads(d, ActivityKey(ev.sid), other) && Heads(d, ACTIVITY_GLOBAL_KEY, ev)
  {
    var own, rest := OwnRingPipeline(cfg.store, ev, true), Behind(cfg, ev);
    FoundParts(cfg, ev);
    assert FoundProgram(cfg, ev)[1..] == own[1..] + rest;
    RunConcat(db, own[1..], rest);
    BehindRings(cfg, Run(db, own[1..]), ev);
    TrimmedHead(db, cfg.store, ev, other);
  }

  lemma TrimmedHead(db: Db, store: StoreConfig, ev: Activity, other: Activity)
    requires RingsKept(store) && Heads(db, ActivityKey(ev.sid), other)
    ensures Heads(Run(db, OwnRingPipeline(store, ev, true)[1..]), ActivityKey(ev.sid), other)
  {
    var key, size, ttl := ActivityKey(ev.sid), store.activityRingSize, store.activityPerSessTTL;
    assert RingPipeline(key, ev, size, ttl)[1..] == RingPipeline(key, other, size, ttl)[1..];
    RingHead(db, key, other, size, ttl);
  }

  /** A worker has only just pushed to the session's own ring. */
  lemma PushesOwn(cfg: Config, s: Sys, a: Activity) returns (es: seq<Event>, t: Sys)
    requires s.workers == [Idle, Idle] && SessionKey(a.sid) in s.db.hashes
    ensures Goes(cfg, s, es, t, a.sid) && SessionKey(a.sid) in t.db.hashes
    ensures t.workers == [Running(ActivityMsg(a.sid, a), FoundProgram(cfg, a)[1..]), Idle]
    ensures FoundProgram(cfg, a)[1..] != []
  {
    var m, p := ActivityMsg(a.sid, a), FoundProgram(cfg, a);
    FoundParts(cfg, a);
    assert p[0] == LPush(ActivityKey(a.sid), a);
    var mid := TakesActivity(cfg, s, 0, a);
    assert mid.workers == [Running(m, p), Idle];
    t := Next(cfg, mid, Work(0));
    GoesOne(cfg, mid, Work(0), a.sid);
    var taken := [Take(0, m, s.db.now)] + [Work(0)];
    GoesOn(cfg, s, taken, mid, [Work(0)], t, a.sid);
    es := taken + [Work(0)];
  }

  /** The other worker runs its whole program, then the one finishes. */
  lemma PushesCross(cfg: Config, s: Sys, w: Worker, a: Activity, b: Activity) returns (es: seq<Event>, t: Sys)
    requires a.sid == b.sid != "global" && RingsKept(cfg.store) && SessionKey(a.sid) in s.db.hashes
    requires w.Running? && w.todo == FoundProgram(cfg, a)[1..] != [] && s.workers == [w, Idle]
    ensures Goes(cfg, s, es, t, a.sid) && t.workers == [Idle, Idle]
    ensures Heads(t.db, ActivityKey(a.sid), b) && Heads(t.db, ACTIVITY_GLOBAL_KEY, a)
  {
    var m := ActivityMsg(b.sid, b);
    FoundParts(cfg, b);
    var s1 := TakesActivity(cfg, s, 1, b);
    assert s1.workers == [w, Running(m, FoundProgram(cfg, b))];
    var s2 := Finishes(cfg, s1, 1, a.sid);
    assert s2.workers == [w, Idle];
    t := Finishes(cfg, s2, 0, a.sid);
    ProgramHeads(cfg, s1.db, b);
    RestHeads(cfg, s2.db, a, b);
    var taken, all, rest := [Take(1, m, s.db.now)] + [Work(1)], Works(1, |FoundProgram(cfg, b)|), Works(0, |w.todo|);
    GoesOn(cfg, s, taken, s1, all, s2, a.sid);
    GoesOn(cfg, s, taken + all, s2, rest, t, a.sid);
    es := taken + all + rest;
  }

  lemma OpensFirst(cfg: Config, sid: string) returns (es: seq<Event>, t: Sys)
    requires TTL(cfg) > 0.0
    ensures Goes(cfg, Start(2), es, t, sid) && t.workers == [Idle, Idle] && SessionKey(sid) in t.db.hashes
  {
    var ev := Strays.OpenOf(sid);
    var m, all := OpenMsg(ev), OpenPipeline(cfg.store, ev, 0.0);
    var s1 := Next(cfg, Start(2), Take(0, m, 0.0));
    GoesOne(cfg, Start(2), Take(0, m, 0.0), sid);
    assert s1.workers == [Running(m, all), Idle];
    t := Finishes(cfg, s1, 0, sid);
    OpenEffect(s1.db, cfg.store, ev, 0.0);
    GoesOn(cfg, Start(2), [Take(0, m, 0.0)], s1, Works(0, |all|), t, sid);
    es := [Take(0, m, 0.0)] + Works(0, |all|);
  }

  /** Two workers that hold one session at once can push to its two rings in different orders. At
      rest neither ring is then a prefix of the other, although no activity was orphaned. */
  lemma OverlapPartsRings(cfg: Config, a: Activity, b: Activity) returns (es: seq<Event>)
    requires a.sid == b.sid != "global" && a != b && RingsKept(cfg.store) && TTL(cfg) > 0.0
    ensures Valid(cfg, Start(2), es) && NotOrphanedRun(cfg, Start(2), es, a.sid)
    ensures var s := Final(cfg, Start(2), es);
            var own := ItemsAt(s.db, ActivityKey(a.sid));
            var shared := Messages.Of(ItemsAt(s.db, ACTIVITY_GLOBAL_KEY), a.sid);
            s.workers == [Idle, Idle] && !(own <= shared) && !(shared <= own)
  {
    var first, mid := OpensFirst(cfg, a.sid);
    var own, half := PushesOwn(cfg, mid, a);
    var cross, end := PushesCross(cfg, half, half.workers[0], a, b);
    GoesOn(cfg, Start(2), first, mid, own, half, a.sid);
    GoesOn(cfg, Start(2), first + own, half, cross, end, a.sid);
    es := first + own + cross;
    var shared := Messages.Of(ItemsAt(end.db, ACTIVITY_GLOBAL_KEY), a.sid);
    assert shared != [] && shared[0] == a;
  }

  // ---- scores and last_seen ----

  /** Without a ticker or a boot nothing but messages changes a score. */
  lemma {:induction false} WorkersOnly(cfg: Config, s: Sys, es: seq<Event>, sid: string)
    requires s.ticker.Resting? && forall e :: e in es ==> e.Take? || e.Work?
    ensures MessagesOnlyRun(cfg, s, es, sid) && !RaisedAfter(cfg, s, false, es, sid)
    decreases |es|
  {
    if es != [] {
      assert es[0].Take? || es[0].Work?;
      WorkersOnly(cfg, Next(cfg, s, es[0]), es[1..], sid);
    }
  }

  /** No rules, two workers. */
  function Free(cfg: Config, sid: string): Trip {
    Trip({}, Atomic.Timing(0.0, 0.0, 0.0, 0), cfg, 2, sid)
  }

  function Crossing(a: SessionOpen, clockA: Time, b: SessionOpen, clockB: Time): seq<Event> {
    [Take(0, OpenMsg(a), clockA), Take(1, OpenMsg(b), clockB),
     Work(0), Work(1), Work(1), Work(1), Work(0), Work(0)]
  }

  /** Two workers that hold one session at once can leave it the `last_seen` of the one and the
      score of the other. At rest the two then differ, and the last message has not decided. */
  lemma OverlapPartsScore(cfg: Config, a: SessionOpen, clockA: Time, b: SessionOpen, clockB: Time)
    requires a.sid == b.sid && TTL(cfg) > 0.0 && OpenStamp(a, clockA) != OpenStamp(b, clockB)
    ensures var es, sid := Crossing(a, clockA, b, clockB), a.sid;
            var s := Final(cfg, Start(2), es);
            && Valid(cfg, Start(2), es) && Quiet(s, sid)
            && MessagesOnlyRun(cfg, Start(2), es, sid) && !RaisedAfter(cfg, Start(2), false, es, sid)
            && MarkAt(s.db, sid) == Mark(Some(Stamp(OpenStamp(b, clockB))), Some(OpenStamp(a, clockA)))
            && !Agree(MarkAt(s.db, sid)) && MarkAt(s.db, sid).score != LastScore(None, es, sid)
  {
    var es, sid := Crossing(a, clockA, b, clockB), a.sid;
    WorkersOnly(cfg, Start(2), es, sid);
    CrossingLast(a, clockA, b, clockB);
    var h := CrossingLeads(cfg, a, clockA, b, clockB);
    LeadsFollows(Free(cfg, sid), es, Phantoms.Begun(Free(cfg, sid).tm),
                 Strays.Lone(sid, 0.0, Some(h), Some(OpenStamp(a, clockA)), Idle, Idle));
  }

  /** Both openers have written to the Hash, the second one last. */
  lemma BothWrite(cfg: Config, a: SessionOpen, clockA: Time, b: SessionOpen, clockB: Time) returns (h: Hash)
    requires a.sid == b.sid && TTL(cfg) > 0.0
    ensures "last_seen" in h.fields && h.fields["last_seen"] == Stamp(OpenStamp(b, clockB))
    ensures var trip := Free(cfg, a.sid);
            Leads(trip, Crossing(a, clockA, b, clockB)[..4], Phantoms.Begun(trip.tm),
                  Strays.Lone(a.sid, 0.0, Some(h), None, Strays.Opener(cfg, a, OpenStamp(a, clockA), 1),
                              Strays.Opener(cfg, b, OpenStamp(b, clockB), 1)))
  {
    var trip, x, y := Free(cfg, a.sid), OpenStamp(a, clockA), OpenStamp(b, clockB);
    var j := Phantoms.Begun(trip.tm);
    Strays.OpenerSteps(cfg, a, x);
    Strays.OpenerSteps(cfg, b, y);
    var a0, b0 := Strays.Opener(cfg, a, x, 0), Strays.Opener(cfg, b, y, 0);
    assert Start(2) == Strays.Lone(a.sid, 0.0, None, None, Idle, Idle);
    Strays.Takes(trip, [], j, 0.0, None, None, Idle, Idle, 0, OpenMsg(a), clockA);
    var es := [] + [Take(0, OpenMsg(a), clockA)];
    Strays.Takes(trip, es, j, 0.0, None, None, a0, Idle, 1, OpenMsg(b), clockB);
    es := es + [Take(1, OpenMsg(b), clockB)];
    Strays.Sends(trip, es, j, 0.0, None, None, a0, b0, 0);
    var first := Strays.HashAfter(0.0, None, a0.todo[0]);
    Strays.Sends(trip, es + [Work(0)], j, 0.0, first, None, Rest(a0), b0, 1);
    h := Strays.HashAfter(0.0, first, b0.todo[0]).value;
    assert es + [Work(0)] + [Work(1)] == Crossing(a, clockA, b, clockB)[..4];
  }

  /** Then the second scores the session, and after it the first. */
  lemma CrossingLeads(cfg: Config, a: SessionOpen, clockA: Time, b: SessionOpen, clockB: Time) returns (h: Hash)
    requires a.sid == b.sid && TTL(cfg) > 0.0
    ensures "last_seen" in h.fields && h.fields["last_seen"] == Stamp(OpenStamp(b, clockB))
    ensures var trip := Free(cfg, a.sid);
            Leads(trip, Crossing(a, clockA, b, clockB), Phantoms.Begun(trip.tm),
                  Strays.Lone(a.sid, 0.0, Some(h), Some(OpenStamp(a, clockA)), Idle, Idle))
  {
    var trip, x, y := Free(cfg, a.sid), OpenStamp(a, clockA), OpenStamp(b, clockB);
    var j, es := Phantoms.Begun(trip.tm), Crossing(a, clockA, b, clockB)[..4];
    Strays.OpenerSteps(cfg, a, x);
    Strays.OpenerSteps(cfg, b, y);
    var a1, b1 := Strays.Opener(cfg, a, x, 1), Strays.Opener(cfg, b, y, 1);
    h := BothWrite(cfg, a, clockA, b, clockB);
    Strays.Sends(trip, es, j, 0.0, Some(h), None, a1, b1, 1);
    h := h.(expiry := Some(TTL(cfg)));
    Strays.Sends(trip, es + [Work(1)], j, 0.0, Some(h), None, a1, Rest(b1), 1);
    es := es + [Work(1)] + [Work(1)];
    Strays.Sends(trip, es, j, 0.0, Some(h), Some(y), a1, Idle, 0);
    Strays.Sends(trip, es + [Work(0)], j, 0.0, Some(h), Some(y), Rest(a1), Idle, 0);
    assert es + [Work(0)] + [Work(0)] == Crossing(a, clockA, b, clockB);
  }

  lemma CrossingLast(a: SessionOpen, clockA: Time, b: SessionOpen, clockB: Time)
    requires a.sid == b.sid
    ensures LastScore(None, Crossing(a, clockA, b, clockB), a.sid) == Some(OpenStamp(b, clockB))
  {
    var es := Crossing(a, clockA, b, clockB);
    assert LastScore(None, es, a.sid) == LastScore(Some(OpenStamp(a, clockA)), es[1..], a.sid)
        == LastScore(Some(OpenStamp(b, clockB)), es[1..][1..], a.sid);
    SameLast(Some(OpenStamp(b, clockB)), es[1..][1..], a.sid);
  }

  lemma {:induction false} SameLast(last: Option<Time>, es: seq<Event>, sid: string)
    requires forall e :: e in es ==> e.Work?
    ensures LastScore(last, es, sid) == last
    decreases |es|
  {
    if es != [] {
      assert es[0] in es;
      SameLast(last, es[1..], sid);
    }
  }
}
