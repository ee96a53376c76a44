/** Seen from one session, any interleaving of the workers, the ticker and a booting
    bridge is a run of the same machine with one worker and that session alone. */
module NonInterference {
  import opened Events
  import opened Wrappers
  import opened Keys
  import opened Redis
  import opened Store
  import opened Bridge
  import opened Mesh
  import Messages

  predicate SameAt<V(==)>(a: map<string, V>, b: map<string, V>, k: string) {
    (k in a <==> k in b) && (k in a ==> a[k] == b[k])
  }

  /** The two data bases agree on everything that is the session's own. */
  predicate Same(a: Db, b: Db, sid: string) {
    SameUnder(a, b, SessionKey(sid), sid, ActivityKey(sid))
  }

  predicate SameUnder(a: Db, b: Db, hashKey: string, member: string, listKey: string) {
    && a.now == b.now
    && SameAt(a.hashes, b.hashes, hashKey)
    && SameAt(a.zset, b.zset, member)
    && SameAt(a.lists, b.lists, listKey)
  }

  predicate Concerns(c: Cmd, sid: string) {
    match c
    case HSet(key, _) => key == SessionKey(sid)
    case HSetNX(key, _, _) => key == SessionKey(sid)
    case ExpireHash(key, _) => key == SessionKey(sid)
    case ZAdd(m, _) => m == sid
    case ZRem(m) => m == sid
    case ZAddXX(_, _) => true
    case ZRemRange(_) => true
    case LPush(key, _) => key == ActivityKey(sid)
    case LTrim(key, _) => key == ActivityKey(sid)
    case ExpireList(key, _) => key == ActivityKey(sid)
  }

  lemma Framed(db: Db, c: Cmd, sid: string)
    requires !Concerns(c, sid)
    ensures Same(Apply(db, c), db, sid)
  {
  }

  lemma Congruent(a: Db, b: Db, c: Cmd, sid: string)
    requires Same(a, b, sid)
    ensures Same(Apply(a, c), Apply(b, c), sid)
  {
    CongruentUnder(a, b, c, SessionKey(sid), sid, ActivityKey(sid));
  }

  lemma CongruentUnder(a: Db, b: Db, c: Cmd, hashKey: string, member: string, listKey: string)
    requires SameUnder(a, b, hashKey, member, listKey)
    ensures SameUnder(Apply(a, c), Apply(b, c), hashKey, member, listKey)
  {
    if c.HSet? || c.HSetNX? || c.ExpireHash? {
      HashCongruent(a, b, c, hashKey, member, listKey);
    } else if c.LPush? || c.LTrim? || c.ExpireList? {
      ListCongruent(a, b, c, hashKey, member, listKey);
    }
  }

  lemma HashCongruent(a: Db, b: Db, c: Cmd, hashKey: string, member: string, listKey: string)
    requires c.HSet? || c.HSetNX? || c.ExpireHash?
    requires SameUnder(a, b, hashKey, member, listKey)
    ensures SameUnder(Apply(a, c), Apply(b, c), hashKey, member, listKey)
  {
    assert FieldsAt(a, hashKey) == FieldsAt(b, hashKey) && HashExpiryAt(a, hashKey) == HashExpiryAt(b, hashKey);
  }

  lemma ListCongruent(a: Db, b: Db, c: Cmd, hashKey: string, member: string, listKey: string)
    requires c.LPush? || c.LTrim? || c.ExpireList?
    requires SameUnder(a, b, hashKey, member, listKey)
    ensures SameUnder(Apply(a, c), Apply(b, c), hashKey, member, listKey)
  {
    assert ItemsAt(a, listKey) == ItemsAt(b, listKey) && ListExpiryAt(a, listKey) == ListExpiryAt(b, listKey);
  }

  lemma AdvanceCongruent(a: Db, b: Db, t: Time, sid: string)
    requires Same(a, b, sid)
    ensures Same(Advance(a, t), Advance(b, t), sid)
  {
  }

  lemma RescoreCongruent(a: Db, b: Db, members: set<string>, nowMs: Time, sid: string)
    requires Same(a, b, sid)
    ensures Same(Apply(a, ZAddXX(members, nowMs)), Apply(b, ZAddXX(members * {sid}, nowMs)), sid)
  {
  }

  lemma ForeignUnconcerned(c: Cmd, other: string, sid: string)
    requires Owned(c, other) && other != sid && sid != "global"
    ensures !Concerns(c, sid)
  {
    KeysSeparate(other, sid);
    KeysSeparate(sid, other);
  }

  // ---- the session's view of the system ----

  predicate Holds(w: Worker, sid: string) {
    !w.Idle? && MsgSid(w.msg) == sid
  }

  /** No two workers hold the session at once. */
  ghost predicate Exclusive(workers: seq<Worker>, sid: string) {
    forall i, j :: 0 <= i < j < |workers| ==> !(Holds(workers[i], sid) && Holds(workers[j], sid))
  }

  function Holder(workers: seq<Worker>, sid: string): Worker {
    if workers == [] then Idle
    else if Holds(workers[0], sid) then workers[0]
    else Holder(workers[1..], sid)
  }

  lemma {:induction false} HolderIs(workers: seq<Worker>, sid: string, i: nat)
    requires i < |workers| && Holds(workers[i], sid) && Exclusive(workers, sid)
    ensures Holder(workers, sid) == workers[i]
  {
    if i > 0 {
      assert !Holds(workers[0], sid);
      HolderIs(workers[1..], sid, i - 1);
    }
  }

  lemma {:induction false} HolderNone(workers: seq<Worker>, sid: string)
    requires forall i :: 0 <= i < |workers| ==> !Holds(workers[i], sid)
    ensures Holder(workers, sid) == Idle
  {
    if workers != [] {
      HolderNone(workers[1..], sid);
    }
  }

  lemma {:induction false} HolderKept(workers: seq<Worker>, sid: string, i: nat, w: Worker)
    requires i < |workers| && !Holds(workers[i], sid) && !Holds(w, sid)
    ensures Holder(workers[i := w], sid) == Holder(workers, sid)
  {
    if i > 0 {
      assert workers[i := w][1..] == workers[1..][i - 1 := w];
      HolderKept(workers[1..], sid, i - 1, w);
    } else {
      assert workers[0 := w][1..] == workers[1..];
    }
  }

  function Only(views: map<string, SessionView>, sid: string): map<string, SessionView> {
    map v | v in views && v == sid :: views[v]
  }

  function TickerOf(k: Ticker, sid: string): Ticker {
    match k
    case Resting => Resting
    case Listing(pending, views) => Listing(pending * {sid}, Only(views, sid))
    case Probing(nowMs, views) => Probing(nowMs, Only(views, sid))
    case Touching(nowMs, views, s, todo) =>
      if s == sid then Touching(nowMs, Only(views, sid), s, todo) else Probing(nowMs, Only(views, sid))
    case Sweeping(cutoff) => Sweeping(cutoff)
  }

  function BootOf(b: Boot, sid: string): Boot {
    match b
    case Settled => Settled
    case Rehydrating(members, nowMs) => Rehydrating(members * {sid}, nowMs)
  }

  /** Agreement on the session's data and on its share of the pushes. */
  ghost predicate DataMirrors(s: Sys, t: Sys, sid: string) {
    && Same(s.db, t.db, sid)
    && t.db.zset.Keys <= {sid}
    && LogAt(t, ActivityKey(sid)) == LogAt(s, ActivityKey(sid))
    && LogAt(t, ACTIVITY_GLOBAL_KEY) == Messages.Of(LogAt(s, ACTIVITY_GLOBAL_KEY), sid)
  }

  ghost predicate ControlMirrors(s: Sys, t: Sys, sid: string) {
    && t.workers == [Holder(s.workers, sid)]
    && t.ticker == TickerOf(s.ticker, sid)
    && t.boot == BootOf(s.boot, sid)
  }

  /** `t`, a one-worker machine that knows no member but `sid`, mirrors `s` as far as
      `sid` goes: its Hash, score, own ring and expiries, whatever is under way for it,
      and its share of the pushes to the global ring. */
  ghost predicate Mirrors(s: Sys, t: Sys, sid: string) {
    DataMirrors(s, t, sid) && ControlMirrors(s, t, sid)
  }

  /** The session's part in an event of the whole system. */
  function Share(s: Sys, e: Event, sid: string): Option<Event> {
    match e
    case Take(_, m, clock) => if MsgSid(m) == sid then Some(Take(0, m, clock)) else None
    case Work(i) => if i < |s.workers| && Holds(s.workers[i], sid) then Some(Work(0)) else None
    case TickGet(x, _) => if x == sid then Some(e) else None
    case TickProbe(x, _) => if x == sid then Some(e) else None
    case TickTouch => if s.ticker.Touching? && s.ticker.sid == sid then Some(e) else None
    case _ => Some(e)
  }

  ghost predicate Followed(cfg: Config, s: Sys, t: Sys, e: Event, sid: string) {
    match Share(s, e, sid)
    case None => Mirrors(Next(cfg, s, e), t, sid)
    case Some(e') => Enabled(cfg, t, e') && Mirrors(Next(cfg, s, e), Next(cfg, t, e'), sid)
  }

  lemma PerformShared(s: Sys, t: Sys, c: Cmd, sid: string)
    requires DataMirrors(s, t, sid) && Owned(c, sid) && sid != "global"
    ensures DataMirrors(Perform(s, c), Perform(t, c), sid)
  {
    Congruent(s.db, t.db, c, sid);
    KeysSeparate(sid, sid);
    if c.LPush? {
      Messages.OfCons(c.item, LogAt(s, ACTIVITY_GLOBAL_KEY), sid);
    }
  }

  lemma PerformForeign(s: Sys, t: Sys, c: Cmd, other: string, sid: string)
    requires DataMirrors(s, t, sid) && Owned(c, other) && other != sid && sid != "global"
    ensures DataMirrors(Perform(s, c), t, sid)
  {
    ForeignUnconcerned(c, other, sid);
    Framed(s.db, c, sid);
    KeysSeparate(sid, other);
    if c.LPush? {
      Messages.OfCons(c.item, LogAt(s, ACTIVITY_GLOBAL_KEY), sid);
    }
  }

  lemma PerformOnlyData(s: Sys, c: Cmd)
    ensures var s' := Perform(s, c); s'.workers == s.workers && s'.ticker == s.ticker && s'.boot == s.boot
  {
  }

  /** Data and control can be looked at separately. */
  lemma Assemble(p: Sys, q: Sys, workers: seq<Worker>, ticker: Ticker, tWorkers: seq<Worker>, tTicker: Ticker,
                 sid: string)
    requires DataMirrors(p, q, sid) && q.boot == BootOf(p.boot, sid)
    requires tWorkers == [Holder(workers, sid)] && tTicker == TickerOf(ticker, sid)
    ensures Mirrors(p.(workers := workers, ticker := ticker), q.(workers := tWorkers, ticker := tTicker), sid)
  {
  }

  lemma TakeFollowed(cfg: Config, s: Sys, t: Sys, i: nat, m: Msg, clock: Time, sid: string)
    requires Mirrors(s, t, sid) && Enabled(cfg, s, Take(i, m, clock))
    requires Exclusive(Next(cfg, s, Take(i, m, clock)).workers, sid)
    ensures Followed(cfg, s, t, Take(i, m, clock), sid)
  {
    var w := Begin(cfg, m, clock);
    var workers := s.workers[i := w];
    if MsgSid(m) == sid {
      HolderIs(workers, sid, i);
      forall j | 0 <= j < |s.workers|
        ensures !Holds(s.workers[j], sid)
      {
        assert j != i ==> workers[j] == s.workers[j];
      }
      HolderNone(s.workers, sid);
      assert [Idle][0 := w] == [w];
    } else {
      HolderKept(s.workers, sid, i, w);
    }
  }

  lemma OwnWorkFollowed(cfg: Config, s: Sys, t: Sys, i: nat, sid: string)
    requires Mirrors(s, t, sid) && Enabled(cfg, s, Work(i)) && SysOk(s) && sid != "global"
    requires Exclusive(s.workers, sid) && Holds(s.workers[i], sid)
    ensures Followed(cfg, s, t, Work(i), sid)
  {
    var w := s.workers[i];
    assert w in s.workers;
    HolderIs(s.workers, sid, i);
    var next := if w.Running? then Rest(w)
                else Running(w.msg, ActivityProgram(cfg, w.msg, SessionKey(w.msg.activity.sid) in s.db.hashes));
    var workers := s.workers[i := next];
    if Holds(next, sid) {
      HolderIs(workers, sid, i);
    } else {
      HolderNone(workers, sid);
    }
    assert [w][0 := next] == [next];
    var p, q := s, t;
    if w.Running? {
      PerformShared(s, t, w.todo[0], sid);
      PerformOnlyData(s, w.todo[0]);
      PerformOnlyData(t, w.todo[0]);
      p, q := Perform(s, w.todo[0]), Perform(t, w.todo[0]);
    }
    Assemble(p, q, workers, p.ticker, [next], q.ticker, sid);
  }

  lemma ForeignWorkFollowed(cfg: Config, s: Sys, t: Sys, i: nat, sid: string)
    requires Mirrors(s, t, sid) && Enabled(cfg, s, Work(i)) && SysOk(s) && sid != "global"
    requires !Holds(s.workers[i], sid)
    ensures Followed(cfg, s, t, Work(i), sid)
  {
    var w := s.workers[i];
    assert w in s.workers;
    var next := if w.Running? then Rest(w)
                else Running(w.msg, ActivityProgram(cfg, w.msg, SessionKey(w.msg.activity.sid) in s.db.hashes));
    HolderKept(s.workers, sid, i, next);
    var p := s;
    if w.Running? {
      PerformForeign(s, t, w.todo[0], MsgSid(w.msg), sid);
      PerformOnlyData(s, w.todo[0]);
      p := Perform(s, w.todo[0]);
    }
    Assemble(p, t, s.workers[i := next], p.ticker, t.workers, t.ticker, sid);
  }

  lemma TouchFollowed(cfg: Config, s: Sys, t: Sys, sid: string)
    requires Mirrors(s, t, sid) && Enabled(cfg, s, TickTouch) && SysOk(s) && sid != "global"
    ensures Followed(cfg, s, t, TickTouch, sid)
  {
    var k, c := s.ticker, s.ticker.todo[0];
    var next := if |k.todo| == 1 then Probing(k.nowMs, k.views) else k.(todo := k.todo[1..]);
    var p := Perform(s, c);
    PerformOnlyData(s, c);
    if k.sid == sid {
      PerformShared(s, t, c, sid);
      PerformOnlyData(t, c);
      var q := Perform(t, c);
      Assemble(p, q, p.workers, next, q.workers, TickerOf(next, sid), sid);
    } else {
      PerformForeign(s, t, c, k.sid, sid);
      Assemble(p, t, p.workers, next, t.workers, t.ticker, sid);
    }
  }

  lemma OnlyPut(views: map<string, SessionView>, x: string, v: SessionView, sid: string)
    ensures Only(views[x := v], sid) == if x == sid then Only(views, sid)[x := v] else Only(views, sid)
  {
  }

  lemma OnlyDrop(views: map<string, SessionView>, x: string, sid: string)
    ensures Only(views - {x}, sid) == if x == sid then Only(views, sid) - {x} else Only(views, sid)
  {
  }

  lemma TickerMoves(s: Sys, t: Sys, next: Ticker, sid: string)
    requires Mirrors(s, t, sid)
    ensures Mirrors(s.(ticker := next), t.(ticker := TickerOf(next, sid)), sid)
    ensures TickerOf(next, sid) == t.ticker ==> Mirrors(s.(ticker := next), t, sid)
  {
  }

  lemma GetFollowed(cfg: Config, s: Sys, t: Sys, x: string, ok: bool, sid: string)
    requires Mirrors(s, t, sid) && Enabled(cfg, s, TickGet(x, ok))
    ensures Followed(cfg, s, t, TickGet(x, ok), sid)
  {
    var pending, views := s.ticker.pending, s.ticker.views;
    var h := FieldsAt(s.db, SessionKey(x));
    var v := ViewFromHash(x, h);
    var next := Listing(pending - {x}, if ok && h != map[] then views[x := v] else views);
    OnlyPut(views, x, v, sid);
    TickerMoves(s, t, next, sid);
    if x == sid {
      assert h == FieldsAt(t.db, SessionKey(x));
      assert (pending - {x}) * {sid} == t.ticker.pending - {x};
    } else {
      assert (pending - {x}) * {sid} == t.ticker.pending;
    }
  }

  lemma ProbeFollowed(cfg: Config, s: Sys, t: Sys, x: string, alive: bool, sid: string)
    requires Mirrors(s, t, sid) && Enabled(cfg, s, TickProbe(x, alive))
    ensures Followed(cfg, s, t, TickProbe(x, alive), sid)
  {
    var k, v, rest := s.ticker, s.ticker.views[x], s.ticker.views - {x};
    var next := if v.host == cfg.host && alive
                then Touching(k.nowMs, rest, x, TouchPipeline(cfg.store, x, k.nowMs))
                else Probing(k.nowMs, rest);
    OnlyDrop(k.views, x, sid);
    TickerMoves(s, t, next, sid);
  }

  lemma TickFollowed(cfg: Config, s: Sys, t: Sys, e: Event, sid: string)
    requires Mirrors(s, t, sid) && Enabled(cfg, s, e)
    requires e.TickList? || e.TickNow? || e.TickCut?
    ensures Followed(cfg, s, t, e, sid)
  {
    assert Only(map[], sid) == map[];
    match e
    case TickList(ok) =>
      assert s.db.zset.Keys * {sid} == t.db.zset.Keys;
    case TickNow(_) =>
    case TickCut(_) =>
  }

  lemma WholeFollowed(cfg: Config, s: Sys, t: Sys, e: Event, sid: string)
    requires Mirrors(s, t, sid) && Enabled(cfg, s, e)
    requires e.Clock? || e.TickSweep?
    ensures Followed(cfg, s, t, e, sid)
  {
    match e
    case Clock(now) => AdvanceCongruent(s.db, t.db, now, sid);
    case TickSweep(ok) =>
      if ok {
        Congruent(s.db, t.db, ZRemRange(s.ticker.cutoff), sid);
      }
  }

  lemma BootFollowed(cfg: Config, s: Sys, t: Sys, e: Event, sid: string)
    requires Mirrors(s, t, sid) && Enabled(cfg, s, e)
    requires e.BootList? || e.BootTouch?
    ensures Followed(cfg, s, t, e, sid)
  {
    match e
    case BootList(_) => assert s.db.zset.Keys * {sid} == t.db.zset.Keys;
    case BootTouch => RescoreCongruent(s.db, t.db, s.boot.members, s.boot.nowMs, sid);
  }

  lemma StepFollowed(cfg: Config, s: Sys, t: Sys, e: Event, sid: string)
    requires Mirrors(s, t, sid) && Enabled(cfg, s, e) && SysOk(s) && sid != "global"
    requires Exclusive(s.workers, sid) && Exclusive(Next(cfg, s, e).workers, sid)
    ensures Followed(cfg, s, t, e, sid)
  {
    match e
    case Take(i, m, clock) => TakeFollowed(cfg, s, t, i, m, clock, sid);
    case Work(i) =>
      if Holds(s.workers[i], sid) {
        OwnWorkFollowed(cfg, s, t, i, sid);
      } else {
        ForeignWorkFollowed(cfg, s, t, i, sid);
      }
    case TickTouch => TouchFollowed(cfg, s, t, sid);
    case Clock(_) => WholeFollowed(cfg, s, t, e, sid);
    case TickSweep(_) => WholeFollowed(cfg, s, t, e, sid);
    case BootList(_) => BootFollowed(cfg, s, t, e, sid);
    case BootTouch => BootFollowed(cfg, s, t, e, sid);
    case TickGet(x, ok) => GetFollowed(cfg, s, t, x, ok, sid);
    case TickProbe(x, alive) => ProbeFollowed(cfg, s, t, x, alive, sid);
    case _ => TickFollowed(cfg, s, t, e, sid);
  }

  /** Throughout the run, at most one worker at a time holds the session. */
  ghost predicate ExclusiveRun(cfg: Config, s: Sys, es: seq<Event>, sid: string)
    decreases |es|
  {
    Exclusive(s.workers, sid) && (es == [] || ExclusiveRun(cfg, Next(cfg, s, es[0]), es[1..], sid))
  }

  /** The session's part in a whole run. */
  function Shares(cfg: Config, s: Sys, es: seq<Event>, sid: string): seq<Event>
    decreases |es|
  {
    if es == [] then []
    else
      (match Share(s, es[0], sid) case None => [] case Some(e') => [e'])
      + Shares(cfg, Next(cfg, s, es[0]), es[1..], sid)
  }

  /** Non-interference, at the granularity of single commands and for any number of workers:
      the session's part of a run is itself a run of the one-worker machine, and it leaves the
      session where the whole run left it. The session's pushes to the global ring are, in
      order, that machine's own: the global history interleaves those of the sessions. */
  lemma {:induction false} SessionRunsAlone(cfg: Config, s: Sys, t: Sys, es: seq<Event>, sid: string)
    requires sid != "global" && SysOk(s) && Mirrors(s, t, sid)
    requires Valid(cfg, s, es) && ExclusiveRun(cfg, s, es, sid)
    ensures Valid(cfg, t, Shares(cfg, s, es, sid))
    ensures Mirrors(Final(cfg, s, es), Final(cfg, t, Shares(cfg, s, es, sid)), sid)
    decreases |es|
  {
    if es != [] {
      var e, s' := es[0], Next(cfg, s, es[0]);
      assert Exclusive(s'.workers, sid);
      StepFollowed(cfg, s, t, e, sid);
      SysOkStep(cfg, s, e);
      match Share(s, e, sid)
      case None =>
        SessionRunsAlone(cfg, s', t, es[1..], sid);
        assert [] + Shares(cfg, s', es[1..], sid) == Shares(cfg, s', es[1..], sid);
      case Some(e') =>
        SessionRunsAlone(cfg, s', Next(cfg, t, e'), es[1..], sid);
        assert ([e'] + Shares(cfg, s', es[1..], sid))[1..] == Shares(cfg, s', es[1..], sid);
    }
  }

  /** The mesh before anything happens, with `n` workers. */
  function Start(n: nat): Sys {
    Sys(Db(0.0, map[], map[], map[]), seq(n, i => Idle), Resting, Settled, map[], map[])
  }

  /** Every run of the mesh from its start, and every session in it. */
  lemma EverySessionRunsAlone(cfg: Config, n: nat, es: seq<Event>, sid: string)
    requires sid != "global" && Valid(cfg, Start(n), es) && ExclusiveRun(cfg, Start(n), es, sid)
    ensures var alone := Shares(cfg, Start(n), es, sid);
            Valid(cfg, Start(1), alone) && Mirrors(Final(cfg, Start(n), es), Final(cfg, Start(1), alone), sid)
  {
    HolderNone(Start(n).workers, sid);
    assert Start(1).workers == [Idle];
    SessionRunsAlone(cfg, Start(n), Start(1), es, sid);
  }

  /** The exception: the session named "global" does interfere. Its own ring is the global
      ring, so another session's push reaches it. */
  lemma GlobalSessionInterferes(db: Db, ev: Activity)
    ensures !Same(Apply(db, LPush(ACTIVITY_GLOBAL_KEY, ev)), db, "global")
  {
    KeysSeparate("global", "global");
    var before, after := ItemsAt(db, ACTIVITY_GLOBAL_KEY),
                         ItemsAt(Apply(db, LPush(ACTIVITY_GLOBAL_KEY, ev)), ACTIVITY_GLOBAL_KEY);
    assert |after| == 1 + |before|;
  }
}
