/** Each of the rules of `Phantoms` is needed: runs that follow all the others and end, with
    nothing under way, in a member without a Hash. */
module Strays {
  import opened Events
  import opened Wrappers
  import opened Keys
  import opened Redis
  import opened Store
  import opened Bridge
  import opened Mesh
  import opened NonInterference
  import opened Phantoms
  import opened Journeys
  import Atomic

  // ---- two workers and one session ----

  /** Nothing in the system but one session's Hash and score, and two workers. */
  function Lone(sid: string, now: Time, h: Option<Hash>, score: Option<Time>, w0: Worker, w1: Worker): Sys {
    Sys(Db(now, if h.Some? then map[SessionKey(sid) := h.value] else map[],
           if score.Some? then map[sid := score.value] else map[], map[]),
        [w0, w1], Resting, Settled, map[], map[])
  }

  predicate OwnCommand(c: Cmd, sid: string) {
    (c.HSet? && c.key == SessionKey(sid)) || (c.ExpireHash? && c.key == SessionKey(sid) && c.ttl > 0.0)
    || (c.ZAdd? && c.member == sid) || (c.ZRem? && c.member == sid)
  }

  function HashAfter(now: Time, h: Option<Hash>, c: Cmd): Option<Hash> {
    match c
    case HSet(_, fields) => if h.Some? then Some(Hash(h.value.fields + fields, h.value.expiry))
      else Some(Hash(map[] + fields, None))
    case ExpireHash(_, ttl) => if h.Some? then Some(Hash(h.value.fields, Some(now + ttl))) else None
    case _ => h
  }

  function ScoreAfter(score: Option<Time>, c: Cmd): Option<Time> {
    match c
    case ZAdd(_, x) => Some(x)
    case ZRem(_) => None
    case _ => score
  }

  /** The Hash, if it lives to see that time. */
  function Aged(h: Option<Hash>, t: Time): Option<Hash> {
    if h.Some? && Unexpired(h.value.expiry, t) then h else None
  }

  lemma LoneApply(sid: string, now: Time, h: Option<Hash>, score: Option<Time>, c: Cmd)
    requires OwnCommand(c, sid)
    ensures Apply(Lone(sid, now, h, score, Idle, Idle).db, c) ==
            Lone(sid, now, HashAfter(now, h, c), ScoreAfter(score, c), Idle, Idle).db
  {
  }

  lemma LoneWork(cfg: Config, sid: string, now: Time, h: Option<Hash>, score: Option<Time>, w0: Worker, w1: Worker,
                 i: nat)
    requires i < 2
    requires var w := if i == 0 then w0 else w1;
             w.Running? && w.todo != [] && OwnCommand(w.todo[0], sid)
    ensures var w := if i == 0 then w0 else w1;
            && Enabled(cfg, Lone(sid, now, h, score, w0, w1), Work(i))
            && Next(cfg, Lone(sid, now, h, score, w0, w1), Work(i)) ==
               Lone(sid, now, HashAfter(now, h, w.todo[0]), ScoreAfter(score, w.todo[0]),
                    if i == 0 then Rest(w) else w0, if i == 0 then w1 else Rest(w))
  {
    LoneApply(sid, now, h, score, (if i == 0 then w0 else w1).todo[0]);
  }

  lemma LoneClock(cfg: Config, sid: string, now: Time, h: Option<Hash>, score: Option<Time>, w0: Worker, w1: Worker,
                  t: Time)
    requires now <= t
    ensures Next(cfg, Lone(sid, now, h, score, w0, w1), Clock(t)) == Lone(sid, t, Aged(h, t), score, w0, w1)
  {
  }

  // ---- runs, one step at a time ----

  /** What the rules ask of one command of a worker. */
  predicate MaySend(trip: Trip, j: Journal, now: Time, h: Option<Hash>, w: Worker)
    requires w.Running? && w.todo != []
  {
    && (HashFound in trip.rules && !w.msg.CloseMsg? && w.todo[0].ExpireHash? ==> h.Some?)
    && (ScorePrompt in trip.rules && !w.msg.CloseMsg? && w.todo[0].ZAdd? ==>
          now < j.renewed + trip.tm.sweepTTL || Lasts(trip.tm, j.plan, j.renewed + TTL(trip.cfg)))
  }

  predicate NoneClosing(trip: Trip, w0: Worker, w1: Worker) {
    CloseAlone in trip.rules && Holds(w0, trip.sid) && Holds(w1, trip.sid) ==> !w0.msg.CloseMsg? && !w1.msg.CloseMsg?
  }

  function Written(j: Journal, now: Time, w: Worker): Journal
    requires w.Running? && w.todo != []
  {
    if !w.msg.CloseMsg? && w.todo[0].ExpireHash? then j.(renewed := now) else j
  }

  lemma Takes(trip: Trip, es: seq<Event>, j: Journal, now: Time, h: Option<Hash>, score: Option<Time>,
              w0: Worker, w1: Worker, i: nat, m: Msg, clock: Time)
    requires Leads(trip, es, j, Lone(trip.sid, now, h, score, w0, w1))
    requires i < 2 && (if i == 0 then w0 else w1) == Idle
    requires MsgSid(m) == trip.sid && !m.ActivityMsg? && trip.tm.ahead >= 0.0
    requires Pace in trip.rules && m.OpenMsg? ==> OpenStamp(m.open, clock) <= now
    requires NoneClosing(trip, if i == 0 then Begin(trip.cfg, m, clock) else w0,
                         if i == 0 then w1 else Begin(trip.cfg, m, clock))
    ensures Leads(trip, es + [Take(i, m, clock)], j,
                  Lone(trip.sid, now, h, score, if i == 0 then Begin(trip.cfg, m, clock) else w0,
                       if i == 0 then w1 else Begin(trip.cfg, m, clock)))
  {
    var s, w := Lone(trip.sid, now, h, score, w0, w1), Begin(trip.cfg, m, clock);
    assert Next(trip.cfg, s, Take(i, m, clock)).workers == [if i == 0 then w else w0, if i == 0 then w1 else w];
    Then(trip, es, j, s, Take(i, m, clock));
  }

  lemma Sends(trip: Trip, es: seq<Event>, j: Journal, now: Time, h: Option<Hash>, score: Option<Time>,
              w0: Worker, w1: Worker, i: nat)
    requires Leads(trip, es, j, Lone(trip.sid, now, h, score, w0, w1)) && i < 2 && NoneClosing(trip, w0, w1)
    requires var w := if i == 0 then w0 else w1;
             && w.Running? && w.todo != [] && MsgSid(w.msg) == trip.sid && OwnCommand(w.todo[0], trip.sid)
             && MaySend(trip, j, now, h, w)
    ensures var w := if i == 0 then w0 else w1;
            Leads(trip, es + [Work(i)], Written(j, now, w),
                  Lone(trip.sid, now, HashAfter(now, h, w.todo[0]), ScoreAfter(score, w.todo[0]),
                       if i == 0 then Rest(w) else w0, if i == 0 then w1 else Rest(w)))
  {
    LoneWork(trip.cfg, trip.sid, now, h, score, w0, w1, i);
    Then(trip, es, j, Lone(trip.sid, now, h, score, w0, w1), Work(i));
  }

  lemma Waits(trip: Trip, es: seq<Event>, j: Journal, now: Time, h: Option<Hash>, score: Option<Time>,
              w0: Worker, w1: Worker, t: Time)
    requires Leads(trip, es, j, Lone(trip.sid, now, h, score, w0, w1))
    requires now <= t && (Pace in trip.rules ==> t <= j.plan.deadline) && NoneClosing(trip, w0, w1)
    ensures Leads(trip, es + [Clock(t)], j, Lone(trip.sid, t, Aged(h, t), score, w0, w1))
  {
    LoneClock(trip.cfg, trip.sid, now, h, score, w0, w1, t);
    Then(trip, es, j, Lone(trip.sid, now, h, score, w0, w1), Clock(t));
  }

  /** A bridge without a host, whose ticks only sweep. */
  predicate Sweeper(trip: Trip) {
    trip.cfg.host == "" && trip.cfg.sweepTTL == trip.tm.sweepTTL && Atomic.Sane(trip.tm)
  }

  /** A sweep whose cutoff was read at `clock`, while the session is not a member. */
  lemma Sweeps(trip: Trip, es: seq<Event>, j: Journal, now: Time, h: Option<Hash>, w0: Worker, w1: Worker, clock: Time)
    requires Leads(trip, es, j, Lone(trip.sid, now, h, None, w0, w1))
    requires Sweeper(trip) && now - trip.tm.tickGap <= clock <= now && NoneClosing(trip, w0, w1)
    ensures Leads(trip, es + [TickCut(clock)] + [TickSweep(true)],
                  j.(plan := j.plan.(deadline := clock + trip.tm.tickGap)), Lone(trip.sid, now, h, None, w0, w1))
  {
    var s := Lone(trip.sid, now, h, None, w0, w1);
    var t := s.(ticker := Sweeping(clock - trip.tm.sweepTTL));
    assert Next(trip.cfg, s, TickCut(clock)) == t;
    Then(trip, es, j, s, TickCut(clock));
    assert Next(trip.cfg, t, TickSweep(true)) == s;
    Then(trip, es + [TickCut(clock)], j, t, TickSweep(true));
  }

  /** Sweeps at the pace carry the clock to any later time, the last of them so that the next is
      due at once. */
  lemma {:induction false} Drifts(trip: Trip, es: seq<Event>, j: Journal, now: Time, h: Option<Hash>,
                                  w0: Worker, w1: Worker, t: Time, n: nat)
    returns (es': seq<Event>)
    requires Leads(trip, es, j, Lone(trip.sid, now, h, None, w0, w1))
    requires Sweeper(trip) && NoneClosing(trip, w0, w1)
    requires now <= j.plan.deadline && now <= t <= j.plan.deadline + Atomic.Times(trip.tm.tickGap, n)
    ensures Leads(trip, es', j.(plan := j.plan.(deadline := t)), Lone(trip.sid, t, Aged(h, t), None, w0, w1))
    decreases n
  {
    var due, gap := j.plan.deadline, trip.tm.tickGap;
    if t <= due {
      Waits(trip, es, j, now, h, None, w0, w1, t);
      Sweeps(trip, es + [Clock(t)], j, t, Aged(h, t), w0, w1, t - gap);
      es' := es + [Clock(t)] + [TickCut(t - gap)] + [TickSweep(true)];
    } else {
      Waits(trip, es, j, now, h, None, w0, w1, due);
      Sweeps(trip, es + [Clock(due)], j, due, Aged(h, due), w0, w1, due);
      assert Aged(Aged(h, due), t) == Aged(h, t);
      es' := Drifts(trip, es + [Clock(due)] + [TickCut(due)] + [TickSweep(true)],
                    j.(plan := j.plan.(deadline := due + gap)), due, Aged(h, due), w0, w1, t, n - 1);
    }
  }

  lemma Boots(trip: Trip, es: seq<Event>, j: Journal)
    requires Leads(trip, es, j, Start(2)) && j.plan.boots > 0
    ensures Leads(trip, es + [BootList(0.0)] + [BootTouch], j.(plan := j.plan.(boots := j.plan.boots - 1)), Start(2))
  {
    var s, t := Start(2), Start(2).(boot := Rehydrating({}, 0.0));
    assert s.db.zset.Keys == {};
    assert Next(trip.cfg, s, BootList(0.0)) == t;
    Then(trip, es, j, s, BootList(0.0));
    assert Next(trip.cfg, t, BootTouch) == s;
    Then(trip, es + [BootList(0.0)], j, t, BootTouch);
  }

  lemma {:induction false} BootsAll(trip: Trip, es: seq<Event>, j: Journal) returns (es': seq<Event>)
    requires Leads(trip, es, j, Start(2))
    ensures Leads(trip, es', j.(plan := j.plan.(boots := 0)), Start(2))
    decreases j.plan.boots
  {
    if j.plan.boots == 0 {
      es' := es;
    } else {
      Boots(trip, es, j);
      es' := BootsAll(trip, es + [BootList(0.0)] + [BootTouch], j.(plan := j.plan.(boots := j.plan.boots - 1)));
    }
  }

  // ---- the four runs ----

  function TripWithout(tm: Atomic.Timing, store: StoreConfig, rule: Rule, sid: string): Trip {
    Trip(ALL_RULES - {rule}, tm, Config(store, "", tm.sweepTTL), 2, sid)
  }

  /** An open without a timestamp, stamped by the store. */
  function OpenOf(sid: string): SessionOpen {
    SessionOpen(0.0, sid, "", "", "", "", 0)
  }

  /** A worker on an open, some of whose three commands are sent. */
  function Opener(cfg: Config, ev: SessionOpen, stamp: Time, done: nat): Worker
    requires done <= 2
  {
    Running(OpenMsg(ev), OpenPipeline(cfg.store, ev, stamp)[done..])
  }

  lemma OpenerSteps(cfg: Config, ev: SessionOpen, stamp: Time)
    ensures var w0, w1, w2 := Opener(cfg, ev, stamp, 0), Opener(cfg, ev, stamp, 1), Opener(cfg, ev, stamp, 2);
            && w0 == Running(OpenMsg(ev), OpenPipeline(cfg.store, ev, stamp))
            && w0.todo[0] == HSet(SessionKey(ev.sid), OpenFields(ev, stamp)) && Rest(w0) == w1
            && w1.todo[0] == ExpireHash(SessionKey(ev.sid), TTL(cfg)) && Rest(w1) == w2
            && w2.todo[0] == ZAdd(ev.sid, stamp) && Rest(w2) == Idle
  {
  }

  /** What is noted once the boots have all been and gone. */
  function Booted(trip: Trip): Journal {
    Journal(Atomic.Plan(trip.tm.tickGap, 0), 0.0)
  }

  predicate Ready(trip: Trip) {
    Sweeper(trip) && trip.n == 2 && TTL(trip.cfg) > 0.0
  }

  lemma SoundReady(tm: Atomic.Timing, store: StoreConfig, rule: Rule, sid: string)
    requires Sound(tm, TripWithout(tm, store, rule, sid).cfg)
    ensures Ready(TripWithout(tm, store, rule, sid))
  {
    Atomic.TimesMono(Atomic.Window(tm), 1, tm.boots + 1);
    assert Atomic.Times(Atomic.Window(tm), 1) == Atomic.Window(tm) + Atomic.Times(Atomic.Window(tm), 0);
  }

  /** An open that has come as far as its EXPIRE. */
  lemma HalfOpened(trip: Trip) returns (es: seq<Event>, h: Hash)
    requires Ready(trip)
    ensures h.expiry == Some(TTL(trip.cfg))
    ensures Leads(trip, es, Booted(trip),
                  Lone(trip.sid, 0.0, Some(h), None, Opener(trip.cfg, OpenOf(trip.sid), 0.0, 2), Idle))
  {
    var cfg, sid, j := trip.cfg, trip.sid, Booted(trip);
    OpenerSteps(cfg, OpenOf(sid), 0.0);
    es := BootsAll(trip, [], Begun(trip.tm));
    assert Start(2) == Lone(sid, 0.0, None, None, Idle, Idle);
    Takes(trip, es, j, 0.0, None, None, Idle, Idle, 0, OpenMsg(OpenOf(sid)), 0.0);
    es := es + [Take(0, OpenMsg(OpenOf(sid)), 0.0)];
    Sends(trip, es, j, 0.0, None, None, Opener(cfg, OpenOf(sid), 0.0, 0), Idle, 0);
    var h0 := HashAfter(0.0, None, Opener(cfg, OpenOf(sid), 0.0, 0).todo[0]);
    Sends(trip, es + [Work(0)], j, 0.0, h0, None, Opener(cfg, OpenOf(sid), 0.0, 1), Idle, 0);
    es := es + [Work(0)] + [Work(0)];
    h := HashAfter(0.0, h0, Opener(cfg, OpenOf(sid), 0.0, 1).todo[0]).value;
  }

  /** An open that is done. */
  lemma Opened(trip: Trip) returns (es: seq<Event>, h: Hash)
    requires Ready(trip)
    ensures h.expiry == Some(TTL(trip.cfg))
    ensures Leads(trip, es, Booted(trip), Lone(trip.sid, 0.0, Some(h), Some(0.0), Idle, Idle))
  {
    OpenerSteps(trip.cfg, OpenOf(trip.sid), 0.0);
    es, h := HalfOpened(trip);
    Sends(trip, es, Booted(trip), 0.0, Some(h), None, Opener(trip.cfg, OpenOf(trip.sid), 0.0, 2), Idle, 0);
    es := es + [Work(0)];
  }

  /** A worker takes a close and sees it through. */
  lemma Closes(trip: Trip, was: seq<Event>, j: Journal, h: Hash, score: Option<Time>, w0: Worker, w1: Worker, i: nat)
    returns (es: seq<Event>)
    requires Leads(trip, was, j, Lone(trip.sid, 0.0, Some(h), score, w0, w1))
    requires i < 2 && (if i == 0 then w0 else w1) == Idle && trip.tm.ahead >= 0.0
    requires CloseAlone in trip.rules ==> !Holds(if i == 0 then w1 else w0, trip.sid)
    ensures Leads(trip, es, j,
                  Lone(trip.sid, 0.0, Some(h.(expiry := Some(Seconds(GRACE_SECONDS)))), None, w0, w1))
  {
    var m, c := CloseMsg(trip.sid), Running(CloseMsg(trip.sid), ClosePipeline(trip.sid));
    Takes(trip, was, j, 0.0, Some(h), score, w0, w1, i, m, 0.0);
    es := was + [Take(i, m, 0.0)];
    Sends(trip, es, j, 0.0, Some(h), score, if i == 0 then c else w0, if i == 0 then w1 else c, i);
    es := es + [Work(i)];
    Sends(trip, es, j, 0.0, Some(h), None, if i == 0 then Rest(c) else w0, if i == 0 then w1 else Rest(c), i);
    es := es + [Work(i)];
  }

  /** The session is a member, has no Hash, and nobody is at work. */
  ghost predicate Stray(s: Sys, sid: string) {
    sid in s.db.zset && SessionKey(sid) !in s.db.hashes && s.workers == [Idle, Idle] && s.ticker.Resting?
  }

  lemma Strayed(trip: Trip, es: seq<Event>, j: Journal, now: Time, score: Time)
    requires Leads(trip, es, j, Lone(trip.sid, now, None, Some(score), Idle, Idle)) && trip.n == 2
    ensures Strands(trip, es)
  {
    LeadsFollows(trip, es, j, Lone(trip.sid, now, None, Some(score), Idle, Idle));
  }

  ghost predicate Strands(trip: Trip, es: seq<Event>) {
    && Valid(trip.cfg, Start(2), es)
    && Follows(trip.rules, trip.tm, trip.cfg, Begun(trip.tm), Start(2), es, trip.sid)
    && Stray(Final(trip.cfg, Start(2), es), trip.sid)
  }

  /** Without sweeps at the pace the score outlives the Hash. */
  lemma OutOfPace(trip: Trip) returns (es: seq<Event>)
    requires Ready(trip) && Pace !in trip.rules
    ensures Strands(trip, es)
  {
    var h;
    es, h := Opened(trip);
    Waits(trip, es, Booted(trip), 0.0, Some(h), Some(0.0), Idle, Idle, TTL(trip.cfg));
    es := es + [Clock(TTL(trip.cfg))];
    Strayed(trip, es, Booted(trip), TTL(trip.cfg), 0.0);
  }

  /** The open has renewed the Hash when the close of another worker shortens its life, so that it
      is gone when the open scores the session. */
  lemma CloseBetween(trip: Trip) returns (es: seq<Event>)
    requires Ready(trip) && CloseAlone !in trip.rules && Seconds(GRACE_SECONDS) < TTL(trip.cfg)
    ensures Strands(trip, es)
  {
    var h;
    es, h := HalfOpened(trip);
    OpenerSteps(trip.cfg, OpenOf(trip.sid), 0.0);
    var grace, w0, gap := Seconds(GRACE_SECONDS), Opener(trip.cfg, OpenOf(trip.sid), 0.0, 2), trip.tm.tickGap;
    es := Closes(trip, es, Booted(trip), h, None, w0, Idle, 1);
    var n := Atomic.Archimedes(gap, grace - gap);
    es := Drifts(trip, es, Booted(trip), 0.0, Some(h.(expiry := Some(grace))), w0, Idle, grace, n);
    var j := Journal(Atomic.Plan(grace, 0), 0.0);
    Sends(trip, es, j, grace, None, None, w0, Idle, 0);
    es := es + [Work(0)];
    Strayed(trip, es, j, grace, 0.0);
  }

  /** One worker and no overlap: a second open writes to the Hash that a close has left, the Hash
      expires, and the EXPIRE finds none. */
  lemma WroteTooLate(trip: Trip) returns (es: seq<Event>)
    requires Ready(trip) && HashFound !in trip.rules
    ensures Strands(trip, es)
  {
    var h;
    es, h := Opened(trip);
    OpenerSteps(trip.cfg, OpenOf(trip.sid), 0.0);
    var cfg, sid, grace, gap := trip.cfg, trip.sid, Seconds(GRACE_SECONDS), trip.tm.tickGap;
    es := Closes(trip, es, Booted(trip), h, Some(0.0), Idle, Idle, 0);
    h := h.(expiry := Some(grace));
    Takes(trip, es, Booted(trip), 0.0, Some(h), None, Idle, Idle, 0, OpenMsg(OpenOf(sid)), 0.0);
    es := es + [Take(0, OpenMsg(OpenOf(sid)), 0.0)];
    Sends(trip, es, Booted(trip), 0.0, Some(h), None, Opener(cfg, OpenOf(sid), 0.0, 0), Idle, 0);
    es := es + [Work(0)];
    var n := Atomic.Archimedes(gap, grace - gap);
    es := Drifts(trip, es, Booted(trip), 0.0, HashAfter(0.0, Some(h), Opener(cfg, OpenOf(sid), 0.0, 0).todo[0]),
                 Opener(cfg, OpenOf(sid), 0.0, 1), Idle, grace, n);
    var plan := Atomic.Plan(grace, 0);
    Sends(trip, es, Journal(plan, 0.0), grace, None, None, Opener(cfg, OpenOf(sid), 0.0, 1), Idle, 0);
    es := es + [Work(0)];
    Sends(trip, es, Journal(plan, grace), grace, None, None, Opener(cfg, OpenOf(sid), 0.0, 2), Idle, 0);
    es := es + [Work(0)];
    Strayed(trip, es, Journal(plan, grace), grace, 0.0);
  }

  /** The ZADD comes when the Hash has lived out its time, sweeps or no sweeps. */
  lemma ScoredTooLate(trip: Trip) returns (es: seq<Event>)
    requires Ready(trip) && ScorePrompt !in trip.rules
    ensures Strands(trip, es)
  {
    var h;
    es, h := HalfOpened(trip);
    OpenerSteps(trip.cfg, OpenOf(trip.sid), 0.0);
    var ttl, w0, gap := TTL(trip.cfg), Opener(trip.cfg, OpenOf(trip.sid), 0.0, 2), trip.tm.tickGap;
    var n := Atomic.Archimedes(gap, ttl - gap);
    es := Drifts(trip, es, Booted(trip), 0.0, Some(h), w0, Idle, ttl, n);
    var j := Journal(Atomic.Plan(ttl, 0), 0.0);
    Sends(trip, es, j, ttl, None, None, w0, Idle, 0);
    es := es + [Work(0)];
    Strayed(trip, es, j, ttl, 0.0);
  }

  /** Whatever the settings under which all four rules together suffice: drop any one rule, and a
      run follows the other three and strands a member; for the rule about closes, if the grace period
      is shorter than a Hash's time to live. */
  lemma EveryRuleNeeded(tm: Atomic.Timing, store: StoreConfig, rule: Rule, sid: string) returns (es: seq<Event>)
    requires Sound(tm, Config(store, "", tm.sweepTTL))
    requires rule.CloseAlone? ==> Seconds(GRACE_SECONDS) < Seconds(store.sessionTTL)
    ensures Strands(TripWithout(tm, store, rule, sid), es)
  {
    var trip := TripWithout(tm, store, rule, sid);
    SoundReady(tm, store, rule, sid);
    match rule
    case CloseAlone => es := CloseBetween(trip);
    case HashFound => es := WroteTooLate(trip);
    case ScorePrompt => es := ScoredTooLate(trip);
    case Pace => es := OutOfPace(trip);
  }
}
