/** Runs in which every pipeline takes effect at once, and what the clock does to
    them: when a member of the active set can be left without its Hash, and how far
    scores and `last_seen` fields agree. */
module Atomic {
  import opened Events
  import opened Wrappers
  import opened Keys
  import opened Redis
  import opened Store

  datatype Op =
    | Clock(t: Time)
    | Open(ev: SessionOpen, clock: Time)
    | Push(act: Activity, hashExists: bool)  // what EXISTS saw, possibly stale by now
    | TouchOrCreate(sid: string, ts: Time, cwd: string)
    | Touch(sid: string, ts: Time)
    | Close(sid: string)
    | Rehydrate(nowMs: Time)
    | Sweep(cutoff: Time)

  function ApplyOp(db: Db, cfg: StoreConfig, op: Op): Db {
    match op
    case Clock(t) => Advance(db, t)
    case Open(ev, clock) => Run(db, OpenPipeline(cfg, ev, OpenStamp(ev, clock)))
    case Push(act, hashExists) => Run(db, PushPipeline(cfg, act, hashExists))
    case TouchOrCreate(sid, ts, cwd) => Run(db, TouchOrCreatePipeline(cfg, sid, ts, cwd))
    case Touch(sid, ts) => Run(db, TouchPipeline(cfg, sid, ts))
    case Close(sid) => Run(db, ClosePipeline(sid))
    case Rehydrate(nowMs) => Apply(db, ZAddXX(db.zset.Keys, nowMs))
    case Sweep(cutoff) => Apply(db, ZRemRange(cutoff))
  }

  function Exec(db: Db, cfg: StoreConfig, ops: seq<Op>): Db
    decreases |ops|
  {
    if ops == [] then db else Exec(ApplyOp(db, cfg, ops[0]), cfg, ops[1..])
  }

  predicate Registers(op: Op) {
    op.Open? || op.Push? || op.TouchOrCreate? || op.Touch?
  }

  function OpSid(op: Op): string
    requires Registers(op)
  {
    match op
    case Open(ev, _) => ev.sid
    case Push(act, _) => act.sid
    case TouchOrCreate(sid, _, _) => sid
    case Touch(sid, _) => sid
  }

  function OpScore(op: Op): Time
    requires Registers(op)
  {
    match op
    case Open(ev, clock) => OpenStamp(ev, clock)
    case Push(act, _) => act.ts
    case TouchOrCreate(_, ts, _) => ts
    case Touch(_, ts) => ts
  }

  predicate SeenAt(db: Db, sid: string, at: Time) {
    "last_seen" in FieldsAt(db, SessionKey(sid)) && FieldsAt(db, SessionKey(sid))["last_seen"] == Stamp(at)
  }

  /** `d` is `db` after its session was scored, stamped and given a fresh Hash expiry. */
  ghost predicate Registered(db: Db, d: Db, sid: string, score: Time, ttl: Time) {
    var key := SessionKey(sid);
    && d.now == db.now
    && d.zset == db.zset[sid := score]
    && d.hashes - {key} == db.hashes - {key}
    && (ttl > 0.0 <==> key in d.hashes)
    && (ttl > 0.0 ==> d.hashes[key].expiry == Some(db.now + ttl) && SeenAt(d, sid, score))
  }

  lemma RegisterFacts(db: Db, sid: string, fields: map<string, Val>, ttl: Time, score: Time)
    requires "last_seen" in fields && fields["last_seen"] == Stamp(score)
    ensures Registered(db, Register(db, sid, fields, ttl, score), sid, score, ttl)
  {
  }

  /** Every registering pipeline scores its session, stamps it with the same time
      and renews its Hash, and does nothing else to members and Hashes. */
  lemma RegisteringOp(db: Db, cfg: StoreConfig, op: Op)
    requires Registers(op)
    ensures Registered(db, ApplyOp(db, cfg, op), OpSid(op), OpScore(op), Seconds(cfg.sessionTTL))
  {
    var ttl := Seconds(cfg.sessionTTL);
    match op
    case Open(ev, clock) =>
      OpenEffect(db, cfg, ev, OpenStamp(ev, clock));
      RegisterFacts(db, ev.sid, OpenFields(ev, OpenStamp(ev, clock)), ttl, OpenStamp(ev, clock));
    case Push(act, hashExists) =>
      PushRegisters(db, cfg, act, hashExists);
    case TouchOrCreate(sid, ts, cwd) =>
      TouchOrCreateEffect(db, cfg, sid, ts, cwd);
      RegisterFacts(db, sid, SeedFields(FieldsAt(db, SessionKey(sid)), sid, ts, cwd) + map["last_seen" := Stamp(ts)],
        ttl, ts);
    case Touch(sid, ts) =>
      TouchEffect(db, cfg, sid, ts);
      RegisterFacts(db, sid, map["last_seen" := Stamp(ts)], ttl, ts);
  }

  lemma PushRegisters(db: Db, cfg: StoreConfig, act: Activity, hashExists: bool)
    ensures Registered(db, Run(db, PushPipeline(cfg, act, hashExists)), act.sid, act.ts, Seconds(cfg.sessionTTL))
  {
    PushEffect(db, cfg, act, hashExists);
    var own := if hashExists
               then PushRing(db, ActivityKey(act.sid), act, cfg.activityRingSize, cfg.activityPerSessTTL)
               else db;
    RegisterFacts(own, act.sid, PushFields(act, hashExists), Seconds(cfg.sessionTTL), act.ts);
  }

  lemma OthersKept(db: Db, d: Db, sid: string, other: string)
    requires d.hashes - {SessionKey(sid)} == db.hashes - {SessionKey(sid)}
    requires sid != other
    ensures SessionKey(other) in d.hashes <==> SessionKey(other) in db.hashes
    ensures SessionKey(other) in d.hashes ==> d.hashes[SessionKey(other)] == db.hashes[SessionKey(other)]
  {
    KeysSeparate(sid, other);
    var k := SessionKey(other);
    assert k in d.hashes - {SessionKey(sid)} <==> k in d.hashes;
    assert k in db.hashes - {SessionKey(sid)} <==> k in db.hashes;
    if k in d.hashes {
      assert (d.hashes - {SessionKey(sid)})[k] == (db.hashes - {SessionKey(sid)})[k];
    }
  }

  // ---- no phantom members ----

  /** The sweep window, the longest time from one cutoff reading to the end of the next
      sweep, how far event timestamps may run ahead of the clock, and how many bridges may boot
      during the run. */
  datatype Timing = Timing(sweepTTL: Time, tickGap: Time, ahead: Time, boots: nat)

  /** By when the next sweep must be done, and how many boots may still come. */
  datatype Plan = Plan(deadline: Time, boots: nat)

  predicate Sane(tm: Timing) {
    tm.sweepTTL > 0.0 && tm.tickGap > 0.0 && tm.ahead >= 0.0
  }

  /** How long a score can keep its member: the sweep window and the tick gap. */
  function Window(tm: Timing): Time {
    tm.sweepTTL + tm.tickGap
  }

  function Times(gap: Time, n: nat): (t: Time)
    ensures gap >= 0.0 ==> t >= 0.0
    ensures t == gap * n as real
  {
    if n == 0 then 0.0
    else
      ProductStep(gap, n - 1);
      gap + Times(gap, n - 1)
  }

  lemma ProductStep(gap: real, n: nat)
    ensures gap * (n + 1) as real == gap * n as real + gap
  {
    assert (n + 1) as real == n as real + 1.0;
  }

  lemma {:induction false} TimesMono(gap: Time, m: nat, n: nat)
    requires gap >= 0.0 && m <= n
    ensures Times(gap, m) <= Times(gap, n)
  {
    if m < n {
      TimesMono(gap, m, n - 1);
    }
  }

  /** The Hash outlives the window of a score given ahead of the clock, and one more window for
      each boot. */
  predicate Outlives(tm: Timing, ttl: Time) {
    Times(Window(tm), tm.boots + 1) + tm.ahead <= ttl
  }

  /** The clock never passes the instant by which the next sweep must be done. */
  ghost predicate PacedStep(tm: Timing, db: Db, p: Plan, op: Op) {
    match op
    case Clock(t) => db.now <= t <= p.deadline
    case Rehydrate(nowMs) => p.boots > 0 && nowMs <= db.now
    case Sweep(cutoff) => db.now - tm.tickGap <= cutoff + tm.sweepTTL <= db.now
    case Close(_) => true
    case _ => OpScore(op) <= db.now + tm.ahead
  }

  function NextPlan(tm: Timing, p: Plan, op: Op): Plan {
    match op
    case Sweep(cutoff) => p.(deadline := cutoff + Window(tm))
    case Rehydrate(_) => if p.boots > 0 then p.(boots := p.boots - 1) else p
    case _ => p
  }

  ghost predicate Paced(tm: Timing, cfg: StoreConfig, db: Db, p: Plan, ops: seq<Op>)
    decreases |ops|
  {
    ops == [] ||
    (PacedStep(tm, db, p, ops[0]) && Paced(tm, cfg, ApplyOp(db, cfg, ops[0]), NextPlan(tm, p, ops[0]), ops[1..]))
  }

  ghost predicate NoPhantoms(db: Db) {
    forall sid :: sid in db.zset ==> Listed(db, sid)
  }

  /** A member's Hash outlives both the deadline and its own score's window, with a window to
      spare for each boot that may come. */
  predicate CoveredAt(tm: Timing, db: Db, p: Plan, sid: string)
    requires sid in db.zset
  {
    var key := SessionKey(sid);
    && key in db.hashes && "last_seen" in db.hashes[key].fields
    && db.hashes[key].expiry.Some?
    && db.hashes[key].expiry.value > p.deadline + Times(Window(tm), p.boots)
    && db.hashes[key].expiry.value >= db.zset[sid] + Times(Window(tm), p.boots + 1)
  }

  ghost predicate Covered(tm: Timing, db: Db, p: Plan) {
    && db.now <= p.deadline <= db.now + tm.tickGap && p.boots <= tm.boots
    && forall sid :: sid in db.zset ==> CoveredAt(tm, db, p, sid)
  }

  lemma CoveredRegister(tm: Timing, ttl: Time, db: Db, p: Plan, d: Db, sid: string, score: Time)
    requires Sane(tm) && Outlives(tm, ttl)
    requires Covered(tm, db, p) && score <= db.now + tm.ahead
    requires Registered(db, d, sid, score, ttl)
    ensures Covered(tm, d, p)
  {
    TimesMono(Window(tm), p.boots + 1, tm.boots + 1);
    forall other | other in d.zset
      ensures CoveredAt(tm, d, p, other)
    {
      if other != sid {
        assert CoveredAt(tm, db, p, other);
        OthersKept(db, d, sid, other);
      }
    }
  }

  lemma CoveredClose(tm: Timing, db: Db, p: Plan, sid: string)
    requires Covered(tm, db, p)
    ensures Covered(tm, Run(db, ClosePipeline(sid)), p)
  {
    var d := Run(db, ClosePipeline(sid));
    CloseEffect(db, sid);
    forall other | other in d.zset
      ensures CoveredAt(tm, d, p, other)
    {
      assert CoveredAt(tm, db, p, other);
      KeysSeparate(sid, other);
    }
  }

  lemma CoveredClock(tm: Timing, db: Db, p: Plan, t: Time)
    requires Sane(tm) && Covered(tm, db, p) && db.now <= t <= p.deadline
    ensures Covered(tm, Advance(db, t), p)
  {
    var d := Advance(db, t);
    forall sid | sid in d.zset
      ensures CoveredAt(tm, d, p, sid)
    {
      assert CoveredAt(tm, db, p, sid);
    }
  }

  lemma CoveredSweep(tm: Timing, db: Db, p: Plan, cutoff: Time)
    requires Sane(tm) && Covered(tm, db, p) && PacedStep(tm, db, p, Sweep(cutoff))
    ensures Covered(tm, Apply(db, ZRemRange(cutoff)), NextPlan(tm, p, Sweep(cutoff)))
  {
    var d := Apply(db, ZRemRange(cutoff));
    forall sid | sid in d.zset
      ensures CoveredAt(tm, d, NextPlan(tm, p, Sweep(cutoff)), sid)
    {
      assert CoveredAt(tm, db, p, sid);
    }
  }

  /** A boot uses up one of the windows to spare. */
  lemma CoveredBoot(tm: Timing, db: Db, p: Plan, nowMs: Time)
    requires Sane(tm) && Covered(tm, db, p) && PacedStep(tm, db, p, Rehydrate(nowMs))
    ensures Covered(tm, Apply(db, ZAddXX(db.zset.Keys, nowMs)), NextPlan(tm, p, Rehydrate(nowMs)))
  {
    var d := Apply(db, ZAddXX(db.zset.Keys, nowMs));
    forall sid | sid in d.zset
      ensures CoveredAt(tm, d, NextPlan(tm, p, Rehydrate(nowMs)), sid)
    {
      assert CoveredAt(tm, db, p, sid);
      assert Times(Window(tm), p.boots) == Window(tm) + Times(Window(tm), p.boots - 1);
    }
  }

  lemma CoveredStep(tm: Timing, cfg: StoreConfig, db: Db, p: Plan, op: Op)
    requires Sane(tm) && Outlives(tm, Seconds(cfg.sessionTTL))
    requires Covered(tm, db, p) && PacedStep(tm, db, p, op)
    ensures Covered(tm, ApplyOp(db, cfg, op), NextPlan(tm, p, op))
  {
    if Registers(op) {
      RegisteringOp(db, cfg, op);
      CoveredRegister(tm, Seconds(cfg.sessionTTL), db, p, ApplyOp(db, cfg, op), OpSid(op), OpScore(op));
    } else if op.Close? {
      CoveredClose(tm, db, p, op.sid);
    } else if op.Clock? {
      CoveredClock(tm, db, p, op.t);
    } else if op.Sweep? {
      CoveredSweep(tm, db, p, op.cutoff);
    } else {
      CoveredBoot(tm, db, p, op.nowMs);
    }
  }

  lemma {:induction false} CoveredRun(tm: Timing, cfg: StoreConfig, db: Db, p: Plan, ops: seq<Op>)
    requires Sane(tm) && Outlives(tm, Seconds(cfg.sessionTTL))
    requires Covered(tm, db, p) && Paced(tm, cfg, db, p, ops)
    ensures NoPhantoms(Exec(db, cfg, ops))
    decreases |ops|
  {
    if ops == [] {
      forall sid | sid in db.zset
        ensures Listed(db, sid)
      {
        assert CoveredAt(tm, db, p, sid);
      }
    } else {
      CoveredStep(tm, cfg, db, p, ops[0]);
      CoveredRun(tm, cfg, ApplyOp(db, cfg, ops[0]), NextPlan(tm, p, ops[0]), ops[1..]);
    }
  }

  // ---- and when they do appear ----

  predicate Phantom(db: Db, sid: string) {
    sid in db.zset && !Listed(db, sid)
  }

  /** Time passes, and bridges sweep and boot. */
  predicate Passive(op: Op) {
    op.Clock? || op.Sweep? || op.Rehydrate?
  }

  ghost predicate AllPassive(ops: seq<Op>) {
    forall op :: op in ops ==> Passive(op)
  }

  predicate OnlyOpens(op: Op, sid: string) {
    Passive(op) || (op.Open? && op.ev.sid == sid)
  }

  ghost predicate AllOnlyOpen(ops: seq<Op>, sid: string) {
    forall op :: op in ops ==> OnlyOpens(op, sid)
  }

  lemma Archimedes(gap: Time, t: Time) returns (n: nat)
    requires gap > 0.0
    ensures Times(gap, n) >= t
  {
    if t <= 0.0 {
      n := 0;
    } else {
      var q := t / gap;
      assert gap * q == t;
      assert q >= 0.0;
      n := q.Floor + 1;
      assert n as real == q.Floor as real + 1.0 >= q;
      ProductNonneg(gap, n as real - q);
      assert gap * (n as real - q) == gap * n as real - gap * q;
    }
  }

  lemma ProductNonneg(a: real, b: real)
    requires a >= 0.0 && b >= 0.0
    ensures a * b >= 0.0
  {
  }

  function PlanAfter(tm: Timing, p: Plan, ops: seq<Op>): Plan
    decreases |ops|
  {
    if ops == [] then p else PlanAfter(tm, NextPlan(tm, p, ops[0]), ops[1..])
  }

  lemma {:induction false} PacedConcat(tm: Timing, cfg: StoreConfig, db: Db, p: Plan, a: seq<Op>, b: seq<Op>)
    ensures Exec(db, cfg, a + b) == Exec(Exec(db, cfg, a), cfg, b)
    ensures Paced(tm, cfg, db, p, a + b) <==>
            Paced(tm, cfg, db, p, a) && Paced(tm, cfg, Exec(db, cfg, a), PlanAfter(tm, p, a), b)
    ensures PlanAfter(tm, p, a + b) == PlanAfter(tm, PlanAfter(tm, p, a), b)
    decreases |a|
  {
    if a == [] {
      assert a + b == b;
    } else {
      assert (a + b)[0] == a[0] && (a + b)[1..] == a[1..] + b;
      PacedConcat(tm, cfg, ApplyOp(db, cfg, a[0]), NextPlan(tm, p, a[0]), a[1..], b);
    }
  }

  lemma OneOp(tm: Timing, cfg: StoreConfig, db: Db, p: Plan, op: Op)
    ensures Exec(db, cfg, [op]) == ApplyOp(db, cfg, op) && PlanAfter(tm, p, [op]) == NextPlan(tm, p, op)
    ensures Paced(tm, cfg, db, p, [op]) <==> PacedStep(tm, db, p, op)
  {
    assert [op][1..] == [];
    var d, q := ApplyOp(db, cfg, op), NextPlan(tm, p, op);
    assert Exec(d, cfg, []) == d && PlanAfter(tm, q, []) == q && Paced(tm, cfg, d, q, []);
  }

  /** A member scored `score`, whose Hash expires at `expiry`. */
  predicate Dated(tm: Timing, db: Db, p: Plan, sid: string, score: Time, expiry: Time) {
    && db.now <= p.deadline <= db.now + tm.tickGap && db.now < expiry
    && sid in db.zset && db.zset[sid] == score
    && SessionKey(sid) in db.hashes && db.hashes[SessionKey(sid)].expiry == Some(expiry)
  }

  /** Sweeps that keep the pace, but each read as late a cutoff as spares the member, carry the
      clock to any time before the window of its score is over. */
  lemma {:induction false} Drift(tm: Timing, cfg: StoreConfig, db: Db, p: Plan, sid: string, score: Time, expiry: Time,
                                 t: Time, n: nat)
    returns (ops: seq<Op>)
    requires Sane(tm) && Dated(tm, db, p, sid, score, expiry)
    requires db.now <= t <= expiry && t < score + Window(tm) && p.deadline + Times(tm.tickGap, n) >= t
    ensures Paced(tm, cfg, db, p, ops) && AllPassive(ops)
    ensures var d, q := Exec(db, cfg, ops), PlanAfter(tm, p, ops);
            && d.now == t && t <= q.deadline <= t + tm.tickGap && q.boots == p.boots
            && sid in d.zset && d.zset[sid] == score
            && (t == expiry ==> SessionKey(sid) !in d.hashes)
            && (t < expiry ==> Dated(tm, d, q, sid, score, expiry))
    decreases n
  {
    if t <= p.deadline {
      ops := [Clock(t)];
      OneOp(tm, cfg, db, p, Clock(t));
    } else {
      var late := Advance(db, p.deadline);
      var cutoff := if p.deadline - tm.sweepTTL <= t - Window(tm) then p.deadline - tm.sweepTTL else t - Window(tm);
      var swept := Apply(late, ZRemRange(cutoff));
      var q := NextPlan(tm, p, Sweep(cutoff));
      var rest := Drift(tm, cfg, swept, q, sid, score, expiry, t, n - 1);
      OneOp(tm, cfg, late, p, Sweep(cutoff));
      PacedConcat(tm, cfg, late, p, [Sweep(cutoff)], rest);
      OneOp(tm, cfg, db, p, Clock(p.deadline));
      PacedConcat(tm, cfg, db, p, [Clock(p.deadline)], [Sweep(cutoff)] + rest);
      ops := [Clock(p.deadline)] + ([Sweep(cutoff)] + rest);
    }
  }

  /** The boots that may still come, each as late as finds the member, keep it in the active set
      until its Hash is gone. */
  lemma {:induction false} Strand(tm: Timing, cfg: StoreConfig, db: Db, p: Plan, sid: string, score: Time, expiry: Time)
    returns (ops: seq<Op>)
    requires Sane(tm) && Dated(tm, db, p, sid, score, expiry) && db.now <= score
    requires score + Times(Window(tm), p.boots + 1) > expiry
    ensures Paced(tm, cfg, db, p, ops) && Phantom(Exec(db, cfg, ops), sid) && AllPassive(ops)
    decreases p.boots
  {
    var w := Window(tm);
    assert Times(w, p.boots + 1) == w + Times(w, p.boots);
    var n := Archimedes(tm.tickGap, expiry - p.deadline);
    if score + w > expiry {
      ops := Drift(tm, cfg, db, p, sid, score, expiry, expiry, n);
    } else {
      var slack := score + Times(w, p.boots + 1) - expiry;
      var t := score + w - (if w <= slack then w else slack) / 2.0;
      var drift := Drift(tm, cfg, db, p, sid, score, expiry, t, n);
      var d, q := Exec(db, cfg, drift), PlanAfter(tm, p, drift);
      var booted := ApplyOp(d, cfg, Rehydrate(t));
      var rest := Strand(tm, cfg, booted, NextPlan(tm, q, Rehydrate(t)), sid, t, expiry);
      OneOp(tm, cfg, d, q, Rehydrate(t));
      PacedConcat(tm, cfg, d, q, [Rehydrate(t)], rest);
      PacedConcat(tm, cfg, db, p, drift, [Rehydrate(t)] + rest);
      ops := drift + ([Rehydrate(t)] + rest);
    }
  }

  const EMPTY: Db := Db(0.0, map[], map[], map[])

  function Begun(tm: Timing): Plan {
    Plan(tm.tickGap, tm.boots)
  }

  /** Every run, from an empty data base, that keeps the pace set by `tm`. */
  ghost predicate NeverPhantoms(tm: Timing, cfg: StoreConfig) {
    forall ops :: Paced(tm, cfg, EMPTY, Begun(tm), ops) ==> NoPhantoms(Exec(EMPTY, cfg, ops))
  }

  lemma SomePhantom(tm: Timing, cfg: StoreConfig, sid: string) returns (ops: seq<Op>)
    requires Sane(tm) && !Outlives(tm, Seconds(cfg.sessionTTL))
    ensures Paced(tm, cfg, EMPTY, Begun(tm), ops) && Phantom(Exec(EMPTY, cfg, ops), sid) && AllOnlyOpen(ops, sid)
  {
    var ttl := Seconds(cfg.sessionTTL);
    var op := Open(SessionOpen(tm.ahead, sid, "", "", "", "", 0), tm.ahead);
    RegisteringOp(EMPTY, cfg, op);
    var db := ApplyOp(EMPTY, cfg, op);
    var rest;
    if ttl <= 0.0 {
      rest := [];
      assert Phantom(Exec(db, cfg, rest), sid);
    } else {
      rest := Strand(tm, cfg, db, Begun(tm), sid, tm.ahead, ttl);
    }
    OneOp(tm, cfg, EMPTY, Begun(tm), op);
    PacedConcat(tm, cfg, EMPTY, Begun(tm), [op], rest);
    ops := [op] + rest;
  }

  lemma NeverPhantomsOutlives(tm: Timing, cfg: StoreConfig)
    requires Sane(tm)
    ensures NeverPhantoms(tm, cfg) <==> Outlives(tm, Seconds(cfg.sessionTTL))
  {
    if Outlives(tm, Seconds(cfg.sessionTTL)) {
      forall ops | Paced(tm, cfg, EMPTY, Begun(tm), ops)
        ensures NoPhantoms(Exec(EMPTY, cfg, ops))
      {
        CoveredRun(tm, cfg, EMPTY, Begun(tm), ops);
      }
    } else {
      var ops := SomePhantom(tm, cfg, "s");
    }
  }

  /** With atomic pipelines and at most so many boots, no reachable state has a member whose Hash
      is gone, so that a listing drops nobody, exactly when the Hash outlives the clock skew of
      events and, for the run and once more for each boot, the sweep window and the tick gap. */
  lemma NoPhantomsIff(tm: Timing, cfg: StoreConfig)
    requires Sane(tm)
    ensures NeverPhantoms(tm, cfg) <==>
            (tm.boots + 1) as real * (tm.sweepTTL + tm.tickGap) + tm.ahead <= Seconds(cfg.sessionTTL)
  {
    NeverPhantomsOutlives(tm, cfg);
    assert Times(Window(tm), tm.boots + 1) == (tm.boots + 1) as real * (tm.sweepTTL + tm.tickGap);
  }

  /** Whatever the settings, some number of boots strands a member: a rehydration raises scores
      and renews no Hash. */
  lemma BootsStrand(tm: Timing, cfg: StoreConfig) returns (boots: nat)
    requires Sane(tm)
    ensures forall more :: more >= boots ==> !NeverPhantoms(tm.(boots := more), cfg)
  {
    boots := Archimedes(Window(tm), Seconds(cfg.sessionTTL));
    forall more | more >= boots
      ensures !NeverPhantoms(tm.(boots := more), cfg)
    {
      TooManyBoots(tm, Seconds(cfg.sessionTTL), boots, more);
      NeverPhantomsOutlives(tm.(boots := more), cfg);
    }
  }

  lemma TooManyBoots(tm: Timing, ttl: Time, boots: nat, more: nat)
    requires Sane(tm) && Times(Window(tm), boots) >= ttl && more >= boots
    ensures !Outlives(tm.(boots := more), ttl)
  {
    TimesMono(Window(tm), boots, more);
    assert Times(Window(tm), more + 1) == Window(tm) + Times(Window(tm), more);
  }

  /** Without a boot the shipped settings leave room for events stamped up to 290 seconds ahead;
      with a single one they leave none. */
  lemma DefaultsNeverPhantom(ahead: Time, boots: nat)
    requires ahead >= 0.0
    ensures NeverPhantoms(Timing(300000.0, 10000.0, ahead, boots), DefaultConfig()) <==> boots == 0 && ahead <= 290000.0
  {
    NoPhantomsIff(Timing(300000.0, 10000.0, ahead, boots), DefaultConfig());
  }

  // ---- scores and last_seen ----

  /** The members whose score a rehydration has raised since they were last registered. */
  function NextRaised(db: Db, raised: set<string>, op: Op): set<string> {
    if op.Rehydrate? then raised + db.zset.Keys
    else if Registers(op) then raised - {OpSid(op)}
    else raised
  }

  function Raised(db: Db, cfg: StoreConfig, raised: set<string>, ops: seq<Op>): set<string>
    decreases |ops|
  {
    if ops == [] then raised else Raised(ApplyOp(db, cfg, ops[0]), cfg, NextRaised(db, raised, ops[0]), ops[1..])
  }

  ghost predicate ScoresSeen(db: Db, raised: set<string>) {
    forall sid :: sid in db.zset && SessionKey(sid) in db.hashes && sid !in raised ==> SeenAt(db, sid, db.zset[sid])
  }

  lemma ScoresSeenStep(cfg: StoreConfig, db: Db, raised: set<string>, op: Op)
    requires ScoresSeen(db, raised)
    ensures ScoresSeen(ApplyOp(db, cfg, op), NextRaised(db, raised, op))
  {
    var d, r := ApplyOp(db, cfg, op), NextRaised(db, raised, op);
    if Registers(op) {
      RegisteringOp(db, cfg, op);
    } else if op.Close? {
      CloseEffect(db, op.sid);
    }
    forall sid | sid in d.zset && SessionKey(sid) in d.hashes && sid !in r
      ensures SeenAt(d, sid, d.zset[sid])
    {
      if Registers(op) && sid != OpSid(op) {
        OthersKept(db, d, OpSid(op), sid);
      } else if op.Close? {
        KeysSeparate(sid, op.sid);
      }
    }
  }

  /** In every run of atomic pipelines, whatever the clock does, the score of each member
      with a live Hash is its `last_seen`, unless a rehydration raised the score since. */
  lemma {:induction false} ScoreIsLastSeen(cfg: StoreConfig, db: Db, raised: set<string>, ops: seq<Op>)
    requires ScoresSeen(db, raised)
    ensures ScoresSeen(Exec(db, cfg, ops), Raised(db, cfg, raised, ops))
    decreases |ops|
  {
    if ops != [] {
      ScoresSeenStep(cfg, db, raised, ops[0]);
      ScoreIsLastSeen(cfg, ApplyOp(db, cfg, ops[0]), NextRaised(db, raised, ops[0]), ops[1..]);
    }
  }
}
