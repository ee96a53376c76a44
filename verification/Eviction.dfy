/** How sessions leave the active set and the only ways back into it, with every listing,
    probe, touch and rehydration split into its commands. */
module Eviction {
  import opened Events
  import opened Keys
  import opened Redis
  import opened Store
  import opened Bridge
  import opened Mesh
  import NonInterference

  function StateAt(cfg: Config, s: Sys, es: seq<Event>, k: nat): Sys
    requires k <= |es|
  {
    Final(cfg, s, es[..k])
  }

  lemma StateAtTail(cfg: Config, s: Sys, es: seq<Event>, k: nat)
    requires k < |es|
    ensures StateAt(cfg, s, es, k + 1) == StateAt(cfg, Next(cfg, s, es[0]), es[1..], k)
  {
    assert es[..k + 1][0] == es[0] && es[..k + 1][1..] == es[1..][..k];
  }

  // ---- resurrection ----

  /** The session is in the ticker's snapshot of the active set and not yet dealt with. */
  predicate InSnapshot(k: Ticker, sid: string) {
    match k
    case Resting => false
    case Listing(pending, views) => sid in pending || sid in views
    case Probing(_, views) => sid in views
    case Touching(_, views, x, _) => x == sid || sid in views
    case Sweeping(_) => false
  }

  /** A worker scores the session, for an open or an activity of that session. */
  predicate ScoredByMessage(s: Sys, e: Event, sid: string) {
    && e.Work? && e.i < |s.workers| && s.workers[e.i].Running? && s.workers[e.i].todo != []
    && s.workers[e.i].todo[0].ZAdd? && s.workers[e.i].todo[0].member == sid
    && !s.workers[e.i].msg.CloseMsg? && MsgSid(s.workers[e.i].msg) == sid
  }

  predicate ScoredByTouch(s: Sys, e: Event, sid: string) {
    e.TickTouch? && s.ticker.Touching? && s.ticker.sid == sid
  }

  lemma OnlyZAddAdds(db: Db, c: Cmd, sid: string)
    requires sid !in db.zset && sid in Apply(db, c).zset
    ensures c.ZAdd? && c.member == sid
  {
  }

  lemma OnlyWaysIn(cfg: Config, s: Sys, e: Event, sid: string)
    requires SysOk(s) && Enabled(cfg, s, e)
    requires sid !in s.db.zset && sid in Next(cfg, s, e).db.zset
    ensures ScoredByMessage(s, e, sid) || ScoredByTouch(s, e, sid)
  {
    match e
    case Work(i) =>
      var w := s.workers[i];
      assert w in s.workers;
      if w.Running? {
        OnlyZAddAdds(s.db, w.todo[0], sid);
        assert w.todo[0] in w.todo && Owned(w.todo[0], MsgSid(w.msg));
      }
    case TickTouch =>
      OnlyZAddAdds(s.db, s.ticker.todo[0], sid);
      assert s.ticker.todo[0] in s.ticker.todo && Owned(s.ticker.todo[0], s.ticker.sid);
    case TickSweep(_) =>
    case BootTouch =>
    case _ =>
  }

  lemma SnapshotStep(cfg: Config, s: Sys, e: Event, sid: string)
    requires Enabled(cfg, s, e) && InSnapshot(Next(cfg, s, e).ticker, sid)
    ensures if e.TickList? then sid in s.db.zset else InSnapshot(s.ticker, sid)
  {
  }

  /** From a state in which the session is not a member (a close or a sweep has just removed
      it), it is one again only because a worker scored it for an open or an activity of its
      own, or because the ticker was then still busy with a snapshot taken before. */
  lemma {:induction false} Resurrection(cfg: Config, s: Sys, es: seq<Event>, sid: string) returns (k: nat)
    requires SysOk(s) && Valid(cfg, s, es)
    requires sid !in s.db.zset && sid in Final(cfg, s, es).db.zset
    ensures k < |es|
    ensures ScoredByMessage(StateAt(cfg, s, es, k), es[k], sid)
         || (ScoredByTouch(StateAt(cfg, s, es, k), es[k], sid)
             && InSnapshot(s.ticker, sid) && forall j :: 0 <= j < k ==> !es[j].TickList?)
    decreases |es|
  {
    var s' := Next(cfg, s, es[0]);
    if sid in s'.db.zset {
      k := 0;
      OnlyWaysIn(cfg, s, es[0], sid);
    } else {
      SysOkStep(cfg, s, es[0]);
      var j := Resurrection(cfg, s', es[1..], sid);
      k := j + 1;
      StateAtTail(cfg, s, es, j);
      assert es[1..][j] == es[k];
      if ScoredByTouch(StateAt(cfg, s, es, k), es[k], sid) && !ScoredByMessage(StateAt(cfg, s, es, k), es[k], sid) {
        SnapshotStep(cfg, s, es[0], sid);
        forall i | 0 <= i < k
          ensures !es[i].TickList?
        {
          assert i > 0 ==> es[i] == es[1..][i - 1];
        }
      }
    }
  }

  // ---- sessions no refresh may touch ----

  /** Nobody is at work on a new open of the session. */
  predicate NoOpenUnderWay(w: Worker, sid: string) {
    NonInterference.Holds(w, sid) ==> !w.msg.OpenMsg?
  }

  predicate NotReopened(e: Event, sid: string) {
    e.Take? && e.msg.OpenMsg? ==> MsgSid(e.msg) != sid
  }

  /** A command that does not write the session's host. */
  predicate HostKept(c: Cmd, sid: string) {
    match c
    case HSet(key, fields) => key == SessionKey(sid) ==> "host" !in fields
    case HSetNX(key, field, _) => key == SessionKey(sid) ==> field != "host"
    case _ => true
  }

  ghost predicate AllHostKept(todo: seq<Cmd>, sid: string) {
    forall c :: c in todo ==> HostKept(c, sid)
  }

  /** The session belongs to another host, or to none, and so does the ticker's view of it. */
  ghost predicate Foreign(cfg: Config, s: Sys, sid: string) {
    && cfg.host != ""
    && TextField(FieldsAt(s.db, SessionKey(sid)), "host") != cfg.host
    && ((s.ticker.Listing? || s.ticker.Probing? || s.ticker.Touching?) && sid in s.ticker.views ==>
          s.ticker.views[sid].host != cfg.host)
    && (s.ticker.Touching? ==> s.ticker.sid != sid && AllHostKept(s.ticker.todo, sid))
    && (forall w :: w in s.workers ==> NoOpenUnderWay(w, sid) && (w.Running? ==> AllHostKept(w.todo, sid)))
  }

  lemma HostKeptKeeps(db: Db, c: Cmd, sid: string, host: string)
    requires HostKept(c, sid) && host != "" && TextField(FieldsAt(db, SessionKey(sid)), "host") != host
    ensures TextField(FieldsAt(Apply(db, c), SessionKey(sid)), "host") != host
  {
  }

  lemma ProgramHostKept(cfg: Config, m: Msg, hashExists: bool, sid: string)
    requires m.ActivityMsg? && WellAddressed(m)
    ensures AllHostKept(ActivityProgram(cfg, m, hashExists), sid)
  {
    var ev := m.activity;
    assert |"host"| == 4 && |"last_seen"| == 9 && |"session_id"| == 10 && |"cwd"| == 3 && |"opened_at"| == 9;
    assert "host" !in MinimalFields(ev) && "host" !in map["last_seen" := Stamp(ev.ts)];
  }

  lemma BeginHostKept(cfg: Config, m: Msg, clock: Time, sid: string)
    requires WellAddressed(m) && !m.ActivityMsg? && (m.OpenMsg? ==> MsgSid(m) != sid)
    ensures AllHostKept(Begin(cfg, m, clock).todo, sid)
  {
    KeysSeparate(MsgSid(m), sid);
  }

  lemma TouchHostKept(cfg: Config, x: string, nowMs: Time, sid: string)
    ensures AllHostKept(TouchPipeline(cfg.store, x, nowMs), sid)
  {
    assert |"host"| == 4 && |"last_seen"| == 9;
  }

  lemma ForeignWork(cfg: Config, s: Sys, i: nat, sid: string)
    requires Foreign(cfg, s, sid) && SysOk(s) && Enabled(cfg, s, Work(i))
    ensures Foreign(cfg, Next(cfg, s, Work(i)), sid)
  {
    var w := s.workers[i];
    assert w in s.workers;
    if w.Checking? {
      ProgramHostKept(cfg, w.msg, SessionKey(w.msg.activity.sid) in s.db.hashes, sid);
    } else {
      assert w.todo[0] in w.todo;
      HostKeptKeeps(s.db, w.todo[0], sid, cfg.host);
    }
  }

  lemma ForeignTick(cfg: Config, s: Sys, e: Event, sid: string)
    requires Foreign(cfg, s, sid) && SysOk(s) && Enabled(cfg, s, e)
    requires !e.Take? && !e.Work? && !e.TickTouch? && !e.TickProbe?
    ensures Foreign(cfg, Next(cfg, s, e), sid)
  {
  }

  lemma ForeignStep(cfg: Config, s: Sys, e: Event, sid: string)
    requires Foreign(cfg, s, sid) && SysOk(s) && Enabled(cfg, s, e) && NotReopened(e, sid)
    ensures Foreign(cfg, Next(cfg, s, e), sid)
  {
    match e
    case Take(i, m, clock) =>
      if !m.ActivityMsg? {
        BeginHostKept(cfg, m, clock, sid);
      }
    case Work(i) => ForeignWork(cfg, s, i, sid);
    case TickTouch =>
      assert s.ticker.todo[0] in s.ticker.todo;
      HostKeptKeeps(s.db, s.ticker.todo[0], sid, cfg.host);
    case TickProbe(x, _) => TouchHostKept(cfg, x, s.ticker.nowMs, sid);
    case _ => ForeignTick(cfg, s, e, sid);
  }

  /** A session of another host, or one revived without a host, is never touched by this
      bridge's refreshes before a new open of it, whatever activities arrive. */
  lemma {:induction false} ForeignNeverTouched(cfg: Config, s: Sys, es: seq<Event>, sid: string)
    requires Foreign(cfg, s, sid) && SysOk(s) && Valid(cfg, s, es)
    requires forall e :: e in es ==> NotReopened(e, sid)
    ensures Foreign(cfg, Final(cfg, s, es), sid)
    ensures ProbesFail(cfg, s, es, sid)
    decreases |es|
  {
    if es != [] {
      ForeignStep(cfg, s, es[0], sid);
      SysOkStep(cfg, s, es[0]);
      ForeignNeverTouched(cfg, Next(cfg, s, es[0]), es[1..], sid);
    }
  }

  // ---- eviction ----

  /** Whenever the run probes the session, the process is dead or the host another. */
  ghost predicate ProbesFail(cfg: Config, s: Sys, es: seq<Event>, sid: string)
    decreases |es|
  {
    es == [] ||
    (ProbeFails(cfg, s, es[0], sid) && ProbesFail(cfg, Next(cfg, s, es[0]), es[1..], sid))
  }

  predicate ProbeFails(cfg: Config, s: Sys, e: Event, sid: string) {
    e.TickProbe? && e.sid == sid && s.ticker.Probing? && sid in s.ticker.views ==>
      !e.alive || s.ticker.views[sid].host != cfg.host
  }

  /** No open or activity of the session is under way, and no touch of it. */
  ghost predicate Quiet(s: Sys, sid: string) {
    && (forall w :: w in s.workers && NonInterference.Holds(w, sid) ==> w.msg.CloseMsg?)
    && (s.ticker.Touching? ==> s.ticker.sid != sid)
  }

  predicate NoMoreOf(e: Event, sid: string) {
    e.Take? && MsgSid(e.msg) == sid ==> e.msg.CloseMsg?
  }

  lemma QuietStep(cfg: Config, s: Sys, e: Event, sid: string)
    requires Quiet(s, sid) && SysOk(s) && Enabled(cfg, s, e) && NoMoreOf(e, sid) && ProbeFails(cfg, s, e, sid)
    ensures Quiet(Next(cfg, s, e), sid)
    ensures sid in Next(cfg, s, e).db.zset ==> sid in s.db.zset
    ensures !e.BootTouch? && sid in Next(cfg, s, e).db.zset ==> Next(cfg, s, e).db.zset[sid] == s.db.zset[sid]
  {
    if e.Work? {
      var w := s.workers[e.i];
      assert w in s.workers;
      if w.Running? {
        assert w.todo[0] in w.todo && Owned(w.todo[0], MsgSid(w.msg));
      }
    } else if e.TickTouch? {
      assert s.ticker.todo[0] in s.ticker.todo && Owned(s.ticker.todo[0], s.ticker.sid);
    }
  }

  /** Without events of its own and with every probe failing, a session can only leave the
      active set, never enter it, whatever listings, touches, sweeps and rehydrations do. */
  lemma {:induction false} QuietRun(cfg: Config, s: Sys, es: seq<Event>, sid: string)
    requires Quiet(s, sid) && SysOk(s) && Valid(cfg, s, es) && ProbesFail(cfg, s, es, sid)
    requires forall e :: e in es ==> NoMoreOf(e, sid)
    ensures Quiet(Final(cfg, s, es), sid) && SysOk(Final(cfg, s, es))
    ensures sid in Final(cfg, s, es).db.zset ==> sid in s.db.zset
    ensures BootTouch !in es && sid in Final(cfg, s, es).db.zset ==> Final(cfg, s, es).db.zset[sid] == s.db.zset[sid]
    decreases |es|
  {
    if es != [] {
      QuietStep(cfg, s, es[0], sid);
      SysOkStep(cfg, s, es[0]);
      QuietRun(cfg, Next(cfg, s, es[0]), es[1..], sid);
    }
  }

  lemma {:induction false} Cut(cfg: Config, s: Sys, es: seq<Event>, k: nat, sid: string)
    requires k <= |es| && Valid(cfg, s, es) && ProbesFail(cfg, s, es, sid)
    ensures Valid(cfg, s, es[..k]) && ProbesFail(cfg, s, es[..k], sid)
    ensures Valid(cfg, StateAt(cfg, s, es, k), es[k..]) && ProbesFail(cfg, StateAt(cfg, s, es, k), es[k..], sid)
    ensures Final(cfg, s, es) == Final(cfg, StateAt(cfg, s, es, k), es[k..])
    decreases k
  {
    if k == 0 {
      assert es[..0] == [] && es[0..] == es;
    } else {
      Cut(cfg, Next(cfg, s, es[0]), es[1..], k - 1, sid);
      StateAtTail(cfg, s, es, k - 1);
      assert es[..k][1..] == es[1..][..k - 1] && es[1..][k - 1..] == es[k..];
    }
  }

  /** Eviction is complete and final. A session whose probes all fail and that gets no more
      events is out of the active set after the first sweep whose cutoff reaches its score, the
      cutoff included, and stays out for the rest of the run, boots during it notwithstanding. */
  lemma EvictedForGood(cfg: Config, s: Sys, es: seq<Event>, k: nat, sid: string)
    requires Quiet(s, sid) && SysOk(s) && Valid(cfg, s, es) && ProbesFail(cfg, s, es, sid)
    requires forall e :: e in es ==> NoMoreOf(e, sid)
    requires k < |es| && es[k] == TickSweep(true) && BootTouch !in es[..k]
    requires sid in s.db.zset && StateAt(cfg, s, es, k).ticker.Sweeping?
    requires s.db.zset[sid] <= StateAt(cfg, s, es, k).ticker.cutoff
    ensures sid !in Final(cfg, s, es).db.zset
  {
    Cut(cfg, s, es, k, sid);
    QuietRun(cfg, s, es[..k], sid);
    var before := StateAt(cfg, s, es, k);
    var after := Next(cfg, before, es[k]);
    assert es[k..][0] == es[k] && es[k..][1..] == es[k + 1..];
    assert sid !in after.db.zset;
    QuietStep(cfg, before, es[k], sid);
    SysOkStep(cfg, before, es[k]);
    QuietRun(cfg, after, es[k + 1..], sid);
  }
}
