/** The score of a session and its `last_seen` field in the running mesh: what the commands still
    under way will make of them. */
module Scoring {
  import opened Events
  import opened Wrappers
  import opened Keys
  import opened Redis
  import opened Store
  import opened Bridge
  import opened Mesh
  import opened NonInterference
  import opened Quiescence
  import Phantoms

  datatype Mark = Mark(stamp: Option<Val>, score: Option<Time>)

  function StampAt(db: Db, sid: string): Option<Val> {
    var h := FieldsAt(db, SessionKey(sid));
    if "last_seen" in h then Some(h["last_seen"]) else None
  }

  function MarkAt(db: Db, sid: string): Mark {
    Mark(StampAt(db, sid), if sid in db.zset then Some(db.zset[sid]) else None)
  }

  /** The mark after one of the session's commands. */
  function Marked(m: Mark, c: Cmd): Mark {
    match c
    case HSet(_, fields) => if "last_seen" in fields then m.(stamp := Some(fields["last_seen"])) else m
    case ZAdd(_, x) => m.(score := Some(x))
    case ZRem(_) => m.(score := None)
    case _ => m
  }

  /** The mark once all the commands have been sent. */
  function Outlook(m: Mark, todo: seq<Cmd>): Mark
    decreases |todo|
  {
    if todo == [] then m else Outlook(Marked(m, todo[0]), todo[1..])
  }

  predicate Agree(m: Mark) {
    m.stamp.Some? && m.score.Some? ==> m.stamp.value == Stamp(m.score.value)
  }

  ghost predicate HasScore(todo: seq<Cmd>) {
    exists c :: c in todo && c.ZAdd?
  }

  /** Commands that seed no timestamp and delete no Hash. */
  predicate Usual(c: Cmd) {
    (c.HSetNX? ==> c.field != "last_seen") && (c.ExpireHash? ==> c.ttl > 0.0)
  }

  ghost predicate AllUsual(todo: seq<Cmd>) {
    forall c :: c in todo ==> Usual(c)
  }

  lemma OwnMarks(db: Db, c: Cmd, sid: string)
    requires Owned(c, sid) && Usual(c)
    ensures MarkAt(Apply(db, c), sid) == Marked(MarkAt(db, sid), c)
  {
  }

  lemma ForeignMarks(db: Db, c: Cmd, other: string, sid: string)
    requires Owned(c, other) && other != sid
    ensures MarkAt(Apply(db, c), sid) == MarkAt(db, sid)
  {
    KeysSeparate(other, sid);
  }

  lemma {:induction false} OutlookConcat(m: Mark, a: seq<Cmd>, b: seq<Cmd>)
    ensures Outlook(m, a + b) == Outlook(Outlook(m, a), b)
    decreases |a|
  {
    if a == [] {
      assert a + b == b;
    } else {
      assert (a + b)[1..] == a[1..] + b && (a + b)[0] == a[0];
      OutlookConcat(Marked(m, a[0]), a[1..], b);
    }
  }

  /** Whatever becomes of the stamp and the score meanwhile, commands that set them set them. */
  lemma {:induction false} OutlookLess(m: Mark, less: Mark, todo: seq<Cmd>)
    requires less.stamp == m.stamp || less.stamp.None?
    requires less.score == m.score || less.score.None?
    ensures var a, b := Outlook(m, todo), Outlook(less, todo);
            && (b.stamp == a.stamp || (b.stamp.None? && less.stamp != m.stamp))
            && (b.score == a.score || (b.score.None? && less.score != m.score))
    decreases |todo|
  {
    if todo != [] {
      OutlookLess(Marked(m, todo[0]), Marked(less, todo[0]), todo[1..]);
    }
  }

  lemma {:induction false} OutlookScored(m: Mark, other: Mark, todo: seq<Cmd>)
    requires other.stamp == m.stamp && (HasScore(todo) || other.score == m.score)
    ensures Outlook(other, todo) == Outlook(m, todo)
    decreases |todo|
  {
    if todo != [] {
      assert forall c :: c in todo ==> c == todo[0] || c in todo[1..];
      OutlookScored(Marked(m, todo[0]), Marked(other, todo[0]), todo[1..]);
    }
  }

  // ---- the pipelines ----

  lemma {:induction false} MarklessOutlook(m: Mark, todo: seq<Cmd>)
    requires forall c :: c in todo ==> !c.HSet? && !c.ZAdd? && !c.ZRem?
    ensures Outlook(m, todo) == m
    decreases |todo|
  {
    if todo != [] {
      MarklessOutlook(m, todo[1..]);
    }
  }

  lemma RegisterOutlook(m: Mark, sid: string, fields: map<string, Val>, ttl: Time, score: Time)
    requires "last_seen" in fields && fields["last_seen"] == Stamp(score)
    ensures Outlook(m, RegisterPipeline(sid, fields, ttl, score)) == Mark(Some(Stamp(score)), Some(score))
  {
    var p := RegisterPipeline(sid, fields, ttl, score);
    var m1 := Marked(m, p[0]);
    assert p[1..][1..] == [ZAdd(sid, score)] && p[1..][1..][1..] == [];
    assert Outlook(m1, p[1..]) == Outlook(m1, p[1..][1..]) == Outlook(Marked(m1, ZAdd(sid, score)), []);
  }

  lemma PushOutlook(m: Mark, cfg: StoreConfig, ev: Activity, hashExists: bool)
    ensures Outlook(m, PushPipeline(cfg, ev, hashExists)) == Mark(Some(Stamp(ev.ts)), Some(ev.ts))
  {
    var own, tail := OwnRingPipeline(cfg, ev, hashExists), GlobalRingPipeline(cfg, ev);
    var mid := RegisterPipeline(ev.sid, PushFields(ev, hashExists), Seconds(cfg.sessionTTL), ev.ts);
    PushParts(cfg, ev, hashExists);
    OutlookConcat(m, own, mid + tail);
    OutlookConcat(Outlook(m, own), mid, tail);
    RegisterOutlook(Outlook(m, own), ev.sid, PushFields(ev, hashExists), Seconds(cfg.sessionTTL), ev.ts);
    MarklessOutlook(Mark(Some(Stamp(ev.ts)), Some(ev.ts)), tail);
  }

  lemma ProgramOutlook(m: Mark, cfg: Config, msg: Msg, hashExists: bool)
    requires msg.ActivityMsg?
    ensures Outlook(m, ActivityProgram(cfg, msg, hashExists))
            == Mark(Some(Stamp(msg.activity.ts)), Some(msg.activity.ts))
  {
    var ts, key, seen := msg.activity.ts, SessionKey(msg.sid), map["last_seen" := Stamp(msg.activity.ts)];
    var push := PushPipeline(cfg.store, msg.activity, hashExists);
    var seeds := [HSetNX(key, "session_id", Text(msg.sid)), HSetNX(key, "cwd", Text(msg.activity.cwd)),
                  HSetNX(key, "opened_at", Stamp(ts))];
    var register := RegisterPipeline(msg.sid, seen, TTL(cfg), ts);
    assert ActivityProgram(cfg, msg, hashExists) == push + (seeds + register);
    OutlookConcat(m, push, seeds + register);
    PushOutlook(m, cfg.store, msg.activity, hashExists);
    OutlookConcat(Outlook(m, push), seeds, register);
    RegisterOutlook(Outlook(Outlook(m, push), seeds), msg.sid, seen, TTL(cfg), ts);
  }

  lemma OpenOutlook(m: Mark, cfg: Config, ev: SessionOpen, stamp: Time)
    ensures Outlook(m, OpenPipeline(cfg.store, ev, stamp)) == Mark(Some(Stamp(stamp)), Some(stamp))
  {
    RegisterOutlook(m, ev.sid, OpenFields(ev, stamp), TTL(cfg), stamp);
  }

  lemma TouchOutlook(m: Mark, cfg: Config, sid: string, nowMs: Time)
    ensures Outlook(m, TouchPipeline(cfg.store, sid, nowMs)) == Mark(Some(Stamp(nowMs)), Some(nowMs))
  {
    RegisterOutlook(m, sid, map["last_seen" := Stamp(nowMs)], TTL(cfg), nowMs);
  }

  lemma CloseOutlook(m: Mark, sid: string)
    ensures Outlook(m, ClosePipeline(sid)).score.None?
  {
    var p := ClosePipeline(sid);
    assert p[1..] == [ExpireHash(SessionKey(sid), Seconds(GRACE_SECONDS))] && p[1..][1..] == [];
    assert Outlook(m, p) == Outlook(Marked(m, p[0]), p[1..]) == Outlook(Marked(m, p[0]), []);
  }

  lemma ProgramUsual(cfg: Config, m: Msg, hashExists: bool)
    requires m.ActivityMsg? && TTL(cfg) > 0.0
    ensures AllUsual(ActivityProgram(cfg, m, hashExists))
  {
    PushParts(cfg.store, m.activity, hashExists);
    assert |"last_seen"| == 9 && |"session_id"| == 10 && |"cwd"| == 3 && "opened_at"[0] != "last_seen"[0];
  }

  lemma BeginUsual(cfg: Config, m: Msg, clock: Time)
    requires TTL(cfg) > 0.0 && !m.ActivityMsg?
    ensures AllUsual(Begin(cfg, m, clock).todo)
  {
  }

  lemma TouchUsual(cfg: Config, sid: string, nowMs: Time)
    requires TTL(cfg) > 0.0
    ensures AllUsual(TouchPipeline(cfg.store, sid, nowMs))
  {
  }

  // ---- what stays usual ----

  ghost predicate UsualSys(s: Sys) {
    (forall w :: w in s.workers ==> AllUsual(Left(w))) && (s.ticker.Touching? ==> AllUsual(s.ticker.todo))
  }

  lemma UsualStep(cfg: Config, s: Sys, e: Event)
    requires TTL(cfg) > 0.0 && UsualSys(s) && SysOk(s) && Enabled(cfg, s, e)
    ensures UsualSys(Next(cfg, s, e))
  {
    match e
    case Take(i, m, clock) =>
      if !m.ActivityMsg? {
        BeginUsual(cfg, m, clock);
      }
    case Work(i) =>
      var w := s.workers[i];
      assert w in s.workers;
      if w.Checking? {
        ProgramUsual(cfg, w.msg, SessionKey(w.msg.activity.sid) in s.db.hashes);
      } else {
        RestLeft(w);
      }
    case TickProbe(x, _) => TouchUsual(cfg, x, s.ticker.nowMs);
    case _ =>
  }

  // ---- one at a time ----

  predicate Touches(k: Ticker, sid: string) {
    k.Touching? && k.sid == sid
  }

  /** At most one of the workers and the ticker is at work on the session. */
  ghost predicate Alone(s: Sys, sid: string) {
    Exclusive(s.workers, sid) && (Touches(s.ticker, sid) ==> forall w :: w in s.workers ==> !Holds(w, sid))
  }

  /** What is left to do for the session, by whoever it is. */
  function AllLeft(s: Sys, sid: string): seq<Cmd> {
    if Touches(s.ticker, sid) then s.ticker.todo else Left(Holder(s.workers, sid))
  }

  function Expected(s: Sys, sid: string): Mark {
    Outlook(MarkAt(s.db, sid), AllLeft(s, sid))
  }

  /** How a step changes what is to be expected of the session. */
  datatype Turn =
    | Same                    // not at all
    | Faded                   // its stamp may be gone
    | Swept                   // its score may be gone
    | Raised                  // its score may be another
    | Fixed(mark: Mark)       // as a pipeline that starts will leave it
    | Dropped                 // no score, as a close will leave it

  function TurnOf(cfg: Config, s: Sys, e: Event, sid: string): Turn {
    match e
    case Clock(_) => Faded
    case TickSweep(_) => Swept
    case BootTouch => if s.boot.Rehydrating? && sid in s.boot.members then Raised else Same
    case Take(_, m, clock) =>
      if MsgSid(m) != sid || m.ActivityMsg? then Same
      else if m.CloseMsg? then Dropped
      else Fixed(Mark(Some(Stamp(OpenStamp(m.open, clock))), Some(OpenStamp(m.open, clock))))
    case Work(i) =>
      if i < |s.workers| && s.workers[i].Checking? && Holds(s.workers[i], sid) && s.workers[i].msg.ActivityMsg?
      then Fixed(Mark(Some(Stamp(s.workers[i].msg.activity.ts)), Some(s.workers[i].msg.activity.ts))) else Same
    case TickProbe(x, _) =>
      if s.ticker.Probing? && Touches(Next(cfg, s, e).ticker, sid)
      then Fixed(Mark(Some(Stamp(s.ticker.nowMs)), Some(s.ticker.nowMs))) else Same
    case _ => Same
  }

  ghost predicate Turned(t: Turn, was: Mark, now: Mark, todo: seq<Cmd>) {
    match t
    case Same => now == was
    case Faded => (now.stamp == was.stamp || now.stamp.None?) && now.score == was.score
    case Swept => now.stamp == was.stamp && (now.score == was.score || now.score.None?)
    case Raised => HasScore(todo) ==> now == was
    case Fixed(m) => now == m
    case Dropped => now.score.None?
  }

  lemma HolderIdle(s: Sys, sid: string)
    requires forall w :: w in s.workers ==> !Holds(w, sid)
    ensures Holder(s.workers, sid) == Idle
  {
    HolderNone(s.workers, sid);
  }

  lemma TakeTurns(cfg: Config, s: Sys, i: nat, m: Msg, clock: Time, sid: string)
    requires Enabled(cfg, s, Take(i, m, clock)) && Alone(s, sid) && Alone(Next(cfg, s, Take(i, m, clock)), sid)
    ensures var p := Next(cfg, s, Take(i, m, clock));
            Turned(TurnOf(cfg, s, Take(i, m, clock), sid), Expected(s, sid), Expected(p, sid), AllLeft(p, sid))
  {
    var w := Begin(cfg, m, clock);
    var p := Next(cfg, s, Take(i, m, clock));
    if MsgSid(m) == sid {
      assert p.workers[i] == w && w in p.workers;
      HolderTakes(s.workers, i, w, sid);
      if m.OpenMsg? {
        OpenOutlook(MarkAt(s.db, sid), cfg, m.open, OpenStamp(m.open, clock));
      } else if m.CloseMsg? {
        CloseOutlook(MarkAt(s.db, sid), sid);
      }
    } else {
      HolderKept(s.workers, sid, i, w);
    }
  }

  lemma CheckTurns(cfg: Config, s: Sys, i: nat, sid: string)
    requires Enabled(cfg, s, Work(i)) && Alone(s, sid) && s.workers[i].Checking? && Holds(s.workers[i], sid)
    ensures var p := Next(cfg, s, Work(i));
            Turned(TurnOf(cfg, s, Work(i), sid), Expected(s, sid), Expected(p, sid), AllLeft(p, sid))
  {
    var v := s.workers[i];
    assert v in s.workers;
    var hashExists := SessionKey(v.msg.activity.sid) in s.db.hashes;
    HolderMoves(s.workers, i, Running(v.msg, ActivityProgram(cfg, v.msg, hashExists)), sid);
    ProgramOutlook(MarkAt(s.db, sid), cfg, v.msg, hashExists);
  }

  lemma OwnWorkTurns(cfg: Config, s: Sys, i: nat, sid: string)
    requires Enabled(cfg, s, Work(i)) && Alone(s, sid) && s.workers[i].Running? && Holds(s.workers[i], sid)
    requires SysOk(s) && UsualSys(s)
    ensures Expected(Next(cfg, s, Work(i)), sid) == Expected(s, sid)
  {
    var v := s.workers[i];
    assert v in s.workers && Left(v) == v.todo && v.todo[0] in v.todo;
    HolderMoves(s.workers, i, Rest(v), sid);
    RestLeft(v);
    OwnMarks(s.db, v.todo[0], sid);
  }

  lemma ForeignWorkTurns(cfg: Config, s: Sys, i: nat, sid: string)
    requires Enabled(cfg, s, Work(i)) && !Holds(s.workers[i], sid) && SysOk(s)
    ensures Expected(Next(cfg, s, Work(i)), sid) == Expected(s, sid)
  {
    var v := s.workers[i];
    assert v in s.workers;
    HolderKept(s.workers, sid, i, Next(cfg, s, Work(i)).workers[i]);
    if v.Running? {
      assert v.todo[0] in v.todo;
      ForeignMarks(s.db, v.todo[0], MsgSid(v.msg), sid);
    }
  }

  lemma TouchTurns(cfg: Config, s: Sys, sid: string)
    requires Enabled(cfg, s, TickTouch) && Alone(s, sid) && SysOk(s) && UsualSys(s)
    ensures Expected(Next(cfg, s, TickTouch), sid) == Expected(s, sid)
  {
    var k := s.ticker;
    assert k.todo[0] in k.todo;
    if k.sid == sid {
      OwnMarks(s.db, k.todo[0], sid);
      HolderIdle(s, sid);
      if |k.todo| == 1 {
        assert k.todo[1..] == [];
      }
    } else {
      ForeignMarks(s.db, k.todo[0], k.sid, sid);
    }
  }

  lemma ProbeTurns(cfg: Config, s: Sys, x: string, alive: bool, sid: string)
    requires Enabled(cfg, s, TickProbe(x, alive))
    ensures var p := Next(cfg, s, TickProbe(x, alive));
            Turned(TurnOf(cfg, s, TickProbe(x, alive), sid), Expected(s, sid), Expected(p, sid), AllLeft(p, sid))
  {
    TouchOutlook(MarkAt(s.db, sid), cfg, sid, s.ticker.nowMs);
  }

  lemma FadeTurns(cfg: Config, s: Sys, e: Event, sid: string)
    requires Enabled(cfg, s, e) && (e.Clock? || e.TickSweep?)
    ensures var p := Next(cfg, s, e); Turned(TurnOf(cfg, s, e, sid), Expected(s, sid), Expected(p, sid),
            AllLeft(p, sid))
  {
    OutlookLess(MarkAt(s.db, sid), MarkAt(Next(cfg, s, e).db, sid), AllLeft(s, sid));
  }

  lemma BootTurns(cfg: Config, s: Sys, sid: string)
    requires Enabled(cfg, s, BootTouch)
    ensures var p := Next(cfg, s, BootTouch);
            Turned(TurnOf(cfg, s, BootTouch, sid), Expected(s, sid), Expected(p, sid), AllLeft(p, sid))
  {
    var p := Next(cfg, s, BootTouch);
    if HasScore(AllLeft(s, sid)) || MarkAt(p.db, sid).score == MarkAt(s.db, sid).score {
      OutlookScored(MarkAt(s.db, sid), MarkAt(p.db, sid), AllLeft(s, sid));
    }
  }

  /** Every step of the mesh turns the outlook as it says. */
  lemma Turns(cfg: Config, s: Sys, e: Event, sid: string)
    requires Enabled(cfg, s, e) && SysOk(s) && UsualSys(s) && Alone(s, sid) && Alone(Next(cfg, s, e), sid)
    ensures var p := Next(cfg, s, e);
            Turned(TurnOf(cfg, s, e, sid), Expected(s, sid), Expected(p, sid), AllLeft(p, sid))
  {
    match e
    case Clock(_) => FadeTurns(cfg, s, e, sid);
    case Take(i, m, clock) => TakeTurns(cfg, s, i, m, clock, sid);
    case Work(i) =>
      if !Holds(s.workers[i], sid) {
        ForeignWorkTurns(cfg, s, i, sid);
      } else if s.workers[i].Checking? {
        CheckTurns(cfg, s, i, sid);
      } else {
        OwnWorkTurns(cfg, s, i, sid);
      }
    case TickTouch => TouchTurns(cfg, s, sid);
    case TickProbe(x, alive) => ProbeTurns(cfg, s, x, alive, sid);
    case TickSweep(_) => FadeTurns(cfg, s, e, sid);
    case BootTouch => BootTurns(cfg, s, sid);
    case _ =>
  }

  /** What is left to do shrinks by what is sent, or stays, unless a pipeline starts. */
  ghost predicate Shrunk(s: Sys, e: Event, sid: string, left: seq<Cmd>) {
    var all := AllLeft(s, sid);
    if Phantoms.Scores(s, e, sid) then all != [] && all[0].ZAdd? && left == all[1..]
    else left == all || (all != [] && !all[0].ZAdd? && left == all[1..])
  }

  lemma WorkShrinks(cfg: Config, s: Sys, i: nat, sid: string)
    requires Enabled(cfg, s, Work(i)) && Alone(s, sid) && SysOk(s) && !s.workers[i].Checking?
    ensures Shrunk(s, Work(i), sid, AllLeft(Next(cfg, s, Work(i)), sid))
  {
    var v := s.workers[i];
    assert v in s.workers;
    if Holds(v, sid) {
      assert v.todo[0] in v.todo;
      HolderMoves(s.workers, i, Rest(v), sid);
      RestLeft(v);
    } else {
      HolderKept(s.workers, sid, i, Rest(v));
    }
  }

  lemma TouchShrinks(cfg: Config, s: Sys, sid: string)
    requires Enabled(cfg, s, TickTouch) && Alone(s, sid)
    ensures Shrunk(s, TickTouch, sid, AllLeft(Next(cfg, s, TickTouch), sid))
  {
    var k := s.ticker;
    if k.sid == sid {
      HolderIdle(s, sid);
      if |k.todo| == 1 {
        assert k.todo[1..] == [];
      }
    }
  }

  lemma TakeShrinks(cfg: Config, s: Sys, i: nat, m: Msg, clock: Time, sid: string)
    requires Enabled(cfg, s, Take(i, m, clock)) && Alone(Next(cfg, s, Take(i, m, clock)), sid)
    requires MsgSid(m) != sid || m.ActivityMsg?
    ensures AllLeft(Next(cfg, s, Take(i, m, clock)), sid) == AllLeft(s, sid)
  {
    var w := Begin(cfg, m, clock);
    var p := Next(cfg, s, Take(i, m, clock));
    if MsgSid(m) == sid {
      assert p.workers[i] == w && w in p.workers;
      HolderTakes(s.workers, i, w, sid);
    } else {
      HolderKept(s.workers, sid, i, w);
    }
  }

  lemma Shrinks(cfg: Config, s: Sys, e: Event, sid: string)
    requires Enabled(cfg, s, e) && SysOk(s) && Alone(s, sid) && Alone(Next(cfg, s, e), sid)
    requires !TurnOf(cfg, s, e, sid).Fixed? && !TurnOf(cfg, s, e, sid).Dropped?
    ensures Shrunk(s, e, sid, AllLeft(Next(cfg, s, e), sid))
  {
    match e
    case Take(i, m, clock) => TakeShrinks(cfg, s, i, m, clock, sid);
    case Work(i) =>
      if s.workers[i].Checking? {
        assert s.workers[i] in s.workers;
        HolderKept(s.workers, sid, i, Next(cfg, s, e).workers[i]);
      } else {
        WorkShrinks(cfg, s, i, sid);
      }
    case TickTouch => TouchShrinks(cfg, s, sid);
    case _ =>
  }

  // ---- scores and last_seen ----

  /** Whether a rehydration has raised the session's score since it was last scored. */
  function NoteRaised(raised: bool, s: Sys, e: Event, sid: string): bool {
    if e.BootTouch? && s.boot.Rehydrating? && sid in s.boot.members then true
    else if Phantoms.Scores(s, e, sid) then false
    else raised
  }

  ghost predicate WillAgree(s: Sys, raised: bool, sid: string) {
    HasScore(AllLeft(s, sid)) || !raised ==> Agree(Expected(s, sid))
  }

  lemma WillAgreeStep(cfg: Config, s: Sys, raised: bool, e: Event, sid: string)
    requires WillAgree(s, raised, sid) && UsualSys(s) && SysOk(s) && Enabled(cfg, s, e)
    requires Alone(s, sid) && Alone(Next(cfg, s, e), sid)
    ensures WillAgree(Next(cfg, s, e), NoteRaised(raised, s, e, sid), sid)
  {
    Turns(cfg, s, e, sid);
    var t, all := TurnOf(cfg, s, e, sid), AllLeft(s, sid);
    if !t.Fixed? && !t.Dropped? {
      Shrinks(cfg, s, e, sid);
      if Phantoms.Scores(s, e, sid) {
        assert all[0] in all;
      }
    }
  }

  ghost predicate AloneRun(cfg: Config, s: Sys, es: seq<Event>, sid: string)
    decreases |es|
  {
    Alone(s, sid) && (es == [] || AloneRun(cfg, Next(cfg, s, es[0]), es[1..], sid))
  }

  function RaisedAfter(cfg: Config, s: Sys, raised: bool, es: seq<Event>, sid: string): bool
    decreases |es|
  {
    if es == [] then raised else RaisedAfter(cfg, Next(cfg, s, es[0]), NoteRaised(raised, s, es[0], sid), es[1..], sid)
  }

  lemma {:induction false} WillAgreeRun(cfg: Config, s: Sys, raised: bool, es: seq<Event>, sid: string)
    requires TTL(cfg) > 0.0 && WillAgree(s, raised, sid) && UsualSys(s) && SysOk(s)
    requires Valid(cfg, s, es) && AloneRun(cfg, s, es, sid)
    ensures WillAgree(Final(cfg, s, es), RaisedAfter(cfg, s, raised, es, sid), sid)
    decreases |es|
  {
    if es != [] {
      var p := Next(cfg, s, es[0]);
      assert Alone(p, sid);
      WillAgreeStep(cfg, s, raised, es[0], sid);
      UsualStep(cfg, s, es[0]);
      SysOkStep(cfg, s, es[0]);
      WillAgreeRun(cfg, p, NoteRaised(raised, s, es[0], sid), es[1..], sid);
    }
  }

  /** Nobody is at work on the session. */
  ghost predicate Quiet(s: Sys, sid: string) {
    !Touches(s.ticker, sid) && forall w :: w in s.workers ==> !Holds(w, sid)
  }

  lemma QuietExpected(s: Sys, sid: string)
    requires Quiet(s, sid)
    ensures AllLeft(s, sid) == [] && Expected(s, sid) == MarkAt(s.db, sid)
  {
    HolderIdle(s, sid);
  }

  lemma StartQuiet(n: nat, sid: string)
    ensures Quiet(Start(n), sid) && UsualSys(Start(n)) && MarkAt(Start(n).db, sid) == Mark(None, None)
  {
  }

  /** Command by command and whatever the clock, sweeps and boots do: in every state in which
      nobody is at work on the session, its score is its `last_seen` if its Hash has one, unless a
      rehydration raised the score since, if no two were ever at work on it at once. */
  lemma ScoreIsLastSeenAtRest(cfg: Config, n: nat, es: seq<Event>, sid: string)
    requires TTL(cfg) > 0.0 && Valid(cfg, Start(n), es) && AloneRun(cfg, Start(n), es, sid)
    requires Quiet(Final(cfg, Start(n), es), sid) && !RaisedAfter(cfg, Start(n), false, es, sid)
    ensures Agree(MarkAt(Final(cfg, Start(n), es).db, sid))
  {
    StartQuiet(n, sid);
    QuietExpected(Start(n), sid);
    WillAgreeRun(cfg, Start(n), false, es, sid);
    QuietExpected(Final(cfg, Start(n), es), sid);
  }

  // ---- the last message ----

  /** What the last message taken for the session asks for. */
  function NoteLast(last: Option<Time>, e: Event, sid: string): Option<Time> {
    match e
    case Take(_, m, clock) =>
      if MsgSid(m) != sid then last
      else if m.CloseMsg? then None
      else Some(if m.ActivityMsg? then m.activity.ts else if m.open.ts != 0.0 then m.open.ts else clock)
    case _ => last
  }

  function LastScore(last: Option<Time>, es: seq<Event>, sid: string): Option<Time>
    decreases |es|
  {
    if es == [] then last else LastScore(NoteLast(last, es[0], sid), es[1..], sid)
  }

  /** Neither a sweep, nor a boot, nor a touch of the session. */
  predicate MessagesOnly(cfg: Config, s: Sys, e: Event, sid: string) {
    && (e.TickSweep? ==> !e.ok)
    && !e.BootTouch?
    && !Touches(Next(cfg, s, e).ticker, sid)
  }

  ghost predicate MessagesOnlyRun(cfg: Config, s: Sys, es: seq<Event>, sid: string)
    decreases |es|
  {
    es == [] || (MessagesOnly(cfg, s, es[0], sid) && MessagesOnlyRun(cfg, Next(cfg, s, es[0]), es[1..], sid))
  }

  ghost predicate LastDecides(s: Sys, last: Option<Time>, sid: string) {
    var w := Holder(s.workers, sid);
    if w.Checking? && w.msg.ActivityMsg? then last == Some(w.msg.activity.ts) else Expected(s, sid).score == last
  }

  lemma LastTake(cfg: Config, s: Sys, last: Option<Time>, i: nat, m: Msg, clock: Time, sid: string)
    requires LastDecides(s, last, sid) && Enabled(cfg, s, Take(i, m, clock))
    requires Alone(s, sid) && Alone(Next(cfg, s, Take(i, m, clock)), sid)
    ensures LastDecides(Next(cfg, s, Take(i, m, clock)), NoteLast(last, Take(i, m, clock), sid), sid)
  {
    TakeTurns(cfg, s, i, m, clock, sid);
    var w := Begin(cfg, m, clock);
    if MsgSid(m) == sid {
      HolderTakes(s.workers, i, w, sid);
    } else {
      HolderKept(s.workers, sid, i, w);
    }
  }

  lemma LastWork(cfg: Config, s: Sys, last: Option<Time>, i: nat, sid: string)
    requires LastDecides(s, last, sid) && Enabled(cfg, s, Work(i)) && SysOk(s) && UsualSys(s)
    requires Alone(s, sid) && Alone(Next(cfg, s, Work(i)), sid)
    ensures LastDecides(Next(cfg, s, Work(i)), last, sid)
  {
    var v := s.workers[i];
    assert v in s.workers;
    Turns(cfg, s, Work(i), sid);
    var next := Next(cfg, s, Work(i)).workers[i];
    if Holds(v, sid) {
      HolderMoves(s.workers, i, next, sid);
    } else {
      HolderKept(s.workers, sid, i, next);
    }
  }

  lemma LastStep(cfg: Config, s: Sys, last: Option<Time>, e: Event, sid: string)
    requires LastDecides(s, last, sid) && Enabled(cfg, s, e) && SysOk(s) && UsualSys(s)
    requires Alone(s, sid) && Alone(Next(cfg, s, e), sid) && MessagesOnly(cfg, s, e, sid)
    ensures LastDecides(Next(cfg, s, e), NoteLast(last, e, sid), sid)
  {
    match e
    case Take(i, m, clock) => LastTake(cfg, s, last, i, m, clock, sid);
    case Work(i) => LastWork(cfg, s, last, i, sid);
    case TickSweep(_) =>
    case _ => Turns(cfg, s, e, sid);
  }

  lemma {:induction false} LastRun(cfg: Config, s: Sys, last: Option<Time>, es: seq<Event>, sid: string)
    requires TTL(cfg) > 0.0 && LastDecides(s, last, sid) && SysOk(s) && UsualSys(s)
    requires Valid(cfg, s, es) && AloneRun(cfg, s, es, sid) && MessagesOnlyRun(cfg, s, es, sid)
    ensures LastDecides(Final(cfg, s, es), LastScore(last, es, sid), sid)
    decreases |es|
  {
    if es != [] {
      var p := Next(cfg, s, es[0]);
      assert Alone(p, sid);
      LastStep(cfg, s, last, es[0], sid);
      UsualStep(cfg, s, es[0]);
      SysOkStep(cfg, s, es[0]);
      LastRun(cfg, p, NoteLast(last, es[0], sid), es[1..], sid);
    }
  }

  /** The last message decides in the running mesh as well: in every state in which nobody is at
      work on the session, it is a member exactly when the last message taken for it is not a
      close, with that message's timestamp for its score, if no two workers ever held it at once
      and no sweep, boot or touch of it came between. */
  lemma LastMessageDecidesAtRest(cfg: Config, n: nat, es: seq<Event>, sid: string)
    requires TTL(cfg) > 0.0 && Valid(cfg, Start(n), es) && AloneRun(cfg, Start(n), es, sid)
    requires MessagesOnlyRun(cfg, Start(n), es, sid) && Quiet(Final(cfg, Start(n), es), sid)
    ensures MarkAt(Final(cfg, Start(n), es).db, sid).score == LastScore(None, es, sid)
  {
    StartQuiet(n, sid);
    HolderIdle(Start(n), sid);
    LastRun(cfg, Start(n), None, es, sid);
    HolderIdle(Final(cfg, Start(n), es), sid);
    QuietExpected(Final(cfg, Start(n), es), sid);
  }
}
