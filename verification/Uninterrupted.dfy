/** Runs of atomic pipelines are runs of the mesh that nobody interrupts. The exact condition for
    the absence of phantom members therefore holds command by command as well. */
module Uninterrupted {
  import opened Events
  import opened Keys
  import opened Redis
  import opened Store
  import opened Bridge
  import opened Mesh
  import opened NonInterference
  import opened Phantoms
  import opened Journeys
  import Atomic

  /** The atomic pipelines of one message. */
  function PipelinesOf(m: Msg, clock: Time, hashExists: bool): seq<Atomic.Op> {
    match m
    case OpenMsg(ev) => [Atomic.Open(ev, clock)]
    case ActivityMsg(sid, ev) => [Atomic.Push(ev, hashExists)] + [Atomic.TouchOrCreate(sid, ev.ts, ev.cwd)]
    case CloseMsg(sid) => [Atomic.Close(sid)]
  }

  /** Handling a message is a run of them. */
  lemma DeliveredAtomically(db: Db, cfg: StoreConfig, m: Msg, clock: Time)
    ensures var hashExists := m.ActivityMsg? && SessionKey(m.activity.sid) in db.hashes;
            Deliver(db, cfg, m, clock) == Atomic.Exec(db, cfg, PipelinesOf(m, clock, hashExists))
  {
    var hashExists := m.ActivityMsg? && SessionKey(m.activity.sid) in db.hashes;
    var ops := PipelinesOf(m, clock, hashExists);
    var d := Atomic.ApplyOp(db, cfg, ops[0]);
    assert Atomic.Exec(db, cfg, ops) == Atomic.Exec(d, cfg, ops[1..]);
    if m.ActivityMsg? {
      assert ops[1..] == [ops[1]] && [ops[1]][1..] == [];
      assert Atomic.Exec(d, cfg, [ops[1]]) == Atomic.Exec(Atomic.ApplyOp(d, cfg, ops[1]), cfg, []);
    } else {
      assert ops[1..] == [] && Atomic.Exec(d, cfg, []) == d;
    }
  }

  /** One worker, and nobody at work. */
  predicate AtRest(s: Sys) {
    s.workers == [Idle] && s.ticker.Resting? && s.boot.Settled?
  }

  lemma TwoSteps(trip: Trip, es: seq<Event>, j: Journal, s: Sys, a: Event, b: Event)
    requires Leads(trip, es, j, s) && Allowed(trip, j, s, a)
    requires Allowed(trip, After(trip, j, s, a).j, After(trip, j, s, a).s, b)
    ensures var mid := After(trip, j, s, a);
            Leads(trip, es + [a] + [b], After(trip, mid.j, mid.s, b).j, After(trip, mid.j, mid.s, b).s)
  {
    Then(trip, es, j, s, a);
    Then(trip, es + [a], After(trip, j, s, a).j, After(trip, j, s, a).s, b);
  }

  lemma LiftSweep(trip: Trip, es: seq<Event>, j: Journal, s: Sys, cutoff: Time)
    returns (es': seq<Event>, j': Journal, s': Sys)
    requires Leads(trip, es, j, s) && AtRest(s) && trip.cfg.host == "" && trip.cfg.sweepTTL == trip.tm.sweepTTL
    requires Atomic.PacedStep(trip.tm, s.db, j.plan, Atomic.Sweep(cutoff))
    ensures Leads(trip, es', j', s') && AtRest(s') && s'.db == Apply(s.db, ZRemRange(cutoff))
    ensures j'.plan == Atomic.NextPlan(trip.tm, j.plan, Atomic.Sweep(cutoff))
  {
    var cut := TickCut(cutoff + trip.tm.sweepTTL);
    var s1 := Next(trip.cfg, s, cut);
    assert s1 == s.(ticker := Sweeping(cutoff));
    s' := Next(trip.cfg, s1, TickSweep(true));
    j' := Noted(trip.tm, j, s1, TickSweep(true), trip.sid);
    TwoSteps(trip, es, j, s, cut, TickSweep(true));
    es' := es + [cut] + [TickSweep(true)];
  }

  lemma LiftBoot(trip: Trip, es: seq<Event>, j: Journal, s: Sys, nowMs: Time)
    returns (es': seq<Event>, j': Journal, s': Sys)
    requires Leads(trip, es, j, s) && AtRest(s) && Atomic.PacedStep(trip.tm, s.db, j.plan, Atomic.Rehydrate(nowMs))
    ensures Leads(trip, es', j', s') && AtRest(s') && s'.db == Apply(s.db, ZAddXX(s.db.zset.Keys, nowMs))
    ensures j'.plan == Atomic.NextPlan(trip.tm, j.plan, Atomic.Rehydrate(nowMs))
  {
    var s1 := Next(trip.cfg, s, BootList(nowMs));
    s' := Next(trip.cfg, s1, BootTouch);
    j' := Noted(trip.tm, j, s1, BootTouch, trip.sid);
    TwoSteps(trip, es, j, s, BootList(nowMs), BootTouch);
    es' := es + [BootList(nowMs)] + [BootTouch];
  }

  /** The one worker sends a command of its open, which the rules allow. */
  lemma LiftSend(trip: Trip, es: seq<Event>, j: Journal, s: Sys, w: Worker)
    returns (es': seq<Event>, j': Journal, s': Sys)
    requires Leads(trip, es, j, s)
    requires s.workers == [w] && s.ticker.Resting? && s.boot.Settled?
    requires w.Running? && w.msg.OpenMsg? && MsgSid(w.msg) == trip.sid && w.todo != []
    requires w.todo[0].ExpireHash? ==> SessionKey(trip.sid) in s.db.hashes
    requires w.todo[0].ZAdd? ==> s.db.now < j.renewed + trip.tm.sweepTTL
    ensures Leads(trip, es', j', s')
    ensures s'.workers == [Rest(w)] && s'.ticker.Resting? && s'.boot.Settled? && s'.db == Apply(s.db, w.todo[0])
    ensures j' == if w.todo[0].ExpireHash? then j.(renewed := s.db.now) else j
  {
    s' := Next(trip.cfg, s, Work(0));
    assert s'.workers == [w][0 := Rest(w)] == [Rest(w)];
    j' := Noted(trip.tm, j, s, Work(0), trip.sid);
    Then(trip, es, j, s, Work(0));
    es' := es + [Work(0)];
  }

  lemma LiftOpen(trip: Trip, es: seq<Event>, j: Journal, s: Sys, ev: SessionOpen, clock: Time)
    returns (es': seq<Event>, j': Journal, s': Sys)
    requires Leads(trip, es, j, s) && AtRest(s) && ev.sid == trip.sid && Atomic.Sane(trip.tm)
    requires Atomic.PacedStep(trip.tm, s.db, j.plan, Atomic.Open(ev, clock))
    ensures Leads(trip, es', j', s') && AtRest(s') && j'.plan == j.plan
    ensures s'.db == Run(s.db, OpenPipeline(trip.cfg.store, ev, OpenStamp(ev, clock)))
  {
    var all := OpenPipeline(trip.cfg.store, ev, OpenStamp(ev, clock));
    var m := OpenMsg(ev);
    var s1 := Next(trip.cfg, s, Take(0, m, clock));
    assert s1.workers == [Idle][0 := Running(m, all)] == [Running(m, all)];
    Then(trip, es, j, s, Take(0, m, clock));
    var s2, s3, j2, j3;
    es', j2, s2 := LiftSend(trip, es + [Take(0, m, clock)], j, s1, Running(m, all));
    es', j3, s3 := LiftSend(trip, es', j2, s2, Running(m, all[1..]));
    es', j', s' := LiftSend(trip, es', j3, s3, Running(m, all[1..][1..]));
    RunThree(s.db, all[0], all[1], all[2]);
    assert all == [all[0], all[1], all[2]];
  }

  lemma LiftOp(trip: Trip, es: seq<Event>, j: Journal, s: Sys, op: Atomic.Op)
    returns (es': seq<Event>, j': Journal, s': Sys)
    requires Leads(trip, es, j, s) && AtRest(s) && Atomic.Sane(trip.tm)
    requires trip.cfg.host == "" && trip.cfg.sweepTTL == trip.tm.sweepTTL
    requires Atomic.PacedStep(trip.tm, s.db, j.plan, op) && Atomic.OnlyOpens(op, trip.sid)
    ensures Leads(trip, es', j', s') && AtRest(s')
    ensures s'.db == Atomic.ApplyOp(s.db, trip.cfg.store, op) && j'.plan == Atomic.NextPlan(trip.tm, j.plan, op)
  {
    match op
    case Clock(t) =>
      Then(trip, es, j, s, Clock(t));
      es', j', s' := es + [Clock(t)], j, Next(trip.cfg, s, Clock(t));
    case Open(ev, clock) => es', j', s' := LiftOpen(trip, es, j, s, ev, clock);
    case Rehydrate(nowMs) => es', j', s' := LiftBoot(trip, es, j, s, nowMs);
    case Sweep(cutoff) => es', j', s' := LiftSweep(trip, es, j, s, cutoff);
  }

  /** The serialisation of a paced run of atomic pipelines follows all the rules. */
  lemma {:induction false} LiftRun(trip: Trip, es: seq<Event>, j: Journal, s: Sys, ops: seq<Atomic.Op>)
    returns (es': seq<Event>, j': Journal, s': Sys)
    requires Leads(trip, es, j, s) && AtRest(s) && Atomic.Sane(trip.tm)
    requires trip.cfg.host == "" && trip.cfg.sweepTTL == trip.tm.sweepTTL
    requires Atomic.Paced(trip.tm, trip.cfg.store, s.db, j.plan, ops) && Atomic.AllOnlyOpen(ops, trip.sid)
    ensures Leads(trip, es', j', s') && s'.db == Atomic.Exec(s.db, trip.cfg.store, ops)
    decreases |ops|
  {
    if ops == [] {
      es', j', s' := es, j, s;
    } else {
      var op := ops[0];
      assert Atomic.OnlyOpens(op, trip.sid);
      es', j', s' := LiftOp(trip, es, j, s, op);
      es', j', s' := LiftRun(trip, es', j', s', ops[1..]);
    }
  }

  /** No run of the mesh, with any number of workers and whatever the host, that follows the rules
      about a session ever has it as a member without a Hash. */
  ghost predicate NeverPhantom(tm: Atomic.Timing, store: StoreConfig, sid: string) {
    forall host, n: nat, es ::
      var cfg := Config(store, host, tm.sweepTTL);
      Valid(cfg, Start(n), es) && Follows(ALL_RULES, tm, cfg, Begun(tm), Start(n), es, sid) ==>
      !Atomic.Phantom(Final(cfg, Start(n), es).db, sid)
  }

  /** Command by command, the rules rule out phantom members exactly when the Hash outlives the
      clock skew of events and, for the run and once more for each boot, the sweep window and the
      tick gap. */
  lemma NeverPhantomIff(tm: Atomic.Timing, store: StoreConfig, sid: string)
    requires Atomic.Sane(tm)
    ensures NeverPhantom(tm, store, sid) <==>
            (tm.boots + 1) as real * (tm.sweepTTL + tm.tickGap) + tm.ahead <= Seconds(store.sessionTTL)
  {
    assert Atomic.Times(Atomic.Window(tm), tm.boots + 1) == (tm.boots + 1) as real * (tm.sweepTTL + tm.tickGap);
    if Atomic.Outlives(tm, Seconds(store.sessionTTL)) {
      forall host, n: nat, es |
        && Valid(Config(store, host, tm.sweepTTL), Start(n), es)
        && Follows(ALL_RULES, tm, Config(store, host, tm.sweepTTL), Begun(tm), Start(n), es, sid)
        ensures !Atomic.Phantom(Final(Config(store, host, tm.sweepTTL), Start(n), es).db, sid)
      {
        MembersKeepHashes(tm, Config(store, host, tm.sweepTTL), n, es, sid);
      }
    } else {
      PhantomRun(tm, store, sid);
    }
  }

  lemma PhantomRun(tm: Atomic.Timing, store: StoreConfig, sid: string)
    requires Atomic.Sane(tm) && !Atomic.Outlives(tm, Seconds(store.sessionTTL))
    ensures !NeverPhantom(tm, store, sid)
  {
    var cfg := Config(store, "", tm.sweepTTL);
    var trip := Trip(ALL_RULES, tm, cfg, 1, sid);
    var ops := Atomic.SomePhantom(tm, store, sid);
    assert Start(1).workers == [Idle];
    var es, j, s := LiftRun(trip, [], Begun(tm), Start(1), ops);
    LeadsFollows(trip, es, j, s);
    assert Atomic.Phantom(Final(cfg, Start(1), es).db, sid);
  }
}
