/** The activity rings while workers push to them at the same time, two of them
    possibly for the same session: what a reader can rely on at every command step. */
module Rings {
  import opened Events
  import opened Keys
  import opened Redis
  import opened Store
  import opened Bridge
  import opened Mesh
  import opened Wrappers
  import NonInterference
  import Undisturbed

  function Size(cfg: Config, key: string): int {
    if key == ACTIVITY_GLOBAL_KEY then cfg.store.globalRingSize else cfg.store.activityRingSize
  }

  /** Every push is followed at once by the trim of the same ring. */
  predicate Trimmed(cfg: Config, todo: seq<Cmd>)
    decreases |todo|
  {
    if todo == [] then true
    else if todo[0].LPush? then
      |todo| >= 2 && todo[1] == LTrim(todo[0].key, Size(cfg, todo[0].key) - 1) && Trimmed(cfg, todo[2..])
    else !todo[0].LTrim? && Trimmed(cfg, todo[1..])
  }

  /** The worker has pushed to the ring and not yet trimmed it. */
  predicate Owes(w: Worker, key: string) {
    w.Running? && w.todo != [] && w.todo[0].LTrim? && w.todo[0].key == key
  }

  predicate TrimsWell(cfg: Config, w: Worker) {
    w.Running? && w.todo != [] ==>
      if w.todo[0].LTrim?
      then w.todo[0].stop == Size(cfg, w.todo[0].key) - 1 && Trimmed(cfg, w.todo[1..])
      else Trimmed(cfg, w.todo)
  }

  lemma {:induction false} TrimmedConcat(cfg: Config, a: seq<Cmd>, b: seq<Cmd>)
    requires Trimmed(cfg, a) && Trimmed(cfg, b)
    ensures Trimmed(cfg, a + b)
    decreases |a|
  {
    if a == [] {
      assert a + b == b;
    } else if a[0].LPush? {
      TrimmedConcat(cfg, a[2..], b);
      assert (a + b)[0] == a[0] && (a + b)[1] == a[1];
      assert (a + b)[2..] == a[2..] + b;
    } else {
      TrimmedConcat(cfg, a[1..], b);
      assert (a + b)[0] == a[0];
      assert (a + b)[1..] == a[1..] + b;
    }
  }

  lemma {:induction false} PlainTrimmed(cfg: Config, todo: seq<Cmd>)
    requires forall c :: c in todo ==> !c.LPush? && !c.LTrim?
    ensures Trimmed(cfg, todo)
    decreases |todo|
  {
    if todo != [] {
      PlainTrimmed(cfg, todo[1..]);
    }
  }

  lemma RingTrimmed(cfg: Config, key: string, ev: Activity, ttl: int)
    ensures Trimmed(cfg, RingPipeline(key, ev, Size(cfg, key), ttl))
  {
    var p := RingPipeline(key, ev, Size(cfg, key), ttl);
    assert p[2..] == [ExpireList(key, Seconds(ttl))];
    PlainTrimmed(cfg, p[2..]);
  }

  lemma PushTrimmed(cfg: Config, ev: Activity, hashExists: bool)
    requires ev.sid != "global"
    ensures Trimmed(cfg, PushPipeline(cfg.store, ev, hashExists))
  {
    assert ActivityKey(ev.sid) != ACTIVITY_GLOBAL_KEY by {
      KeysSeparate(ev.sid, ev.sid);
    }
    var own, tail := OwnRingPipeline(cfg.store, ev, hashExists), GlobalRingPipeline(cfg.store, ev);
    var mid := RegisterPipeline(ev.sid, PushFields(ev, hashExists), Seconds(cfg.store.sessionTTL), ev.ts);
    PushParts(cfg.store, ev, hashExists);
    RingTrimmed(cfg, ActivityKey(ev.sid), ev, cfg.store.activityPerSessTTL);
    RingTrimmed(cfg, ACTIVITY_GLOBAL_KEY, ev, cfg.store.activityGlobalTTL);
    PlainTrimmed(cfg, mid);
    TrimmedConcat(cfg, mid, tail);
    TrimmedConcat(cfg, own, mid + tail);
  }

  lemma ProgramTrimmed(cfg: Config, m: Msg, hashExists: bool)
    requires m.ActivityMsg? && m.activity.sid != "global"
    ensures Trimmed(cfg, ActivityProgram(cfg, m, hashExists))
  {
    PushTrimmed(cfg, m.activity, hashExists);
    PlainTrimmed(cfg, TouchOrCreatePipeline(cfg.store, m.sid, m.activity.ts, m.activity.cwd));
    TrimmedConcat(cfg, PushPipeline(cfg.store, m.activity, hashExists),
                  TouchOrCreatePipeline(cfg.store, m.sid, m.activity.ts, m.activity.cwd));
  }

  /** How many workers owe the ring a trim. */
  function Pending(workers: seq<Worker>, key: string): nat {
    if workers == [] then 0 else (if Owes(workers[0], key) then 1 else 0) + Pending(workers[1..], key)
  }

  lemma {:induction false} PendingBound(workers: seq<Worker>, key: string)
    ensures Pending(workers, key) <= |workers|
  {
    if workers != [] {
      PendingBound(workers[1..], key);
    }
  }

  lemma {:induction false} PendingUpdate(workers: seq<Worker>, i: nat, w: Worker, key: string)
    requires i < |workers|
    ensures Pending(workers[i := w], key) ==
            Pending(workers, key) - (if Owes(workers[i], key) then 1 else 0) + (if Owes(w, key) then 1 else 0)
  {
    if i == 0 {
      assert workers[0 := w][1..] == workers[1..];
    } else {
      assert workers[i := w][1..] == workers[1..][i - 1 := w];
      PendingUpdate(workers[1..], i - 1, w, key);
    }
  }

  function Min(a: int, b: int): int {
    if a <= b then a else b
  }

  /** A ring is a newest-first prefix of its push history: it holds nothing from before it was
      last absent, at least the configured number of the pushes since, and at most one entry
      per worker still to trim beyond that. */
  predicate RingOk(items: seq<Activity>, log: seq<Activity>, since: nat, size: int, pending: nat) {
    && items != [] && items <= log
    && Min(size, since) <= |items| <= since
    && |items| <= size + pending
  }

  predicate RingOkAt(cfg: Config, s: Sys, key: string) {
    RingOk(ItemsAt(s.db, key), LogAt(s, key), SinceAt(s, key), Size(cfg, key), Pending(s.workers, key))
  }

  ghost predicate RingsOk(cfg: Config, s: Sys) {
    && (forall key :: key in s.db.lists ==> RingOkAt(cfg, s, key))
    && (forall w :: w in s.workers ==> TrimsWell(cfg, w) && (w.Checking? ==> MsgSid(w.msg) != "global"))
  }

  /** The message is not an activity of the one session whose ring is the global ring. */
  predicate Named(e: Event) {
    e.Take? && e.msg.ActivityMsg? ==> e.msg.sid != "global"
  }

  /** Commands other than the three list commands leave the rings and their history alone. */
  lemma ListsKept(s: Sys, c: Cmd)
    requires !c.LPush? && !c.LTrim? && !c.ExpireList?
    ensures var s' := Perform(s, c); s'.db.lists == s.db.lists && s'.log == s.log && s'.since == s.since
  {
  }

  /** Commands on other keys leave a ring and its history alone. */
  lemma OtherRing(s: Sys, c: Cmd, key: string)
    requires (c.LPush? || c.LTrim? || c.ExpireList?) && c.key != key
    ensures var s' := Perform(s, c);
            && ItemsAt(s'.db, key) == ItemsAt(s.db, key) && (key in s'.db.lists <==> key in s.db.lists)
            && LogAt(s', key) == LogAt(s, key) && SinceAt(s', key) == SinceAt(s, key)
  {
  }

  lemma OwnRing(cfg: Config, s: Sys, c: Cmd, workers: seq<Worker>, key: string)
    requires Size(cfg, key) >= 1 && (c.LPush? || c.LTrim? || c.ExpireList?) && c.key == key
    requires key in s.db.lists ==> RingOkAt(cfg, s, key)
    requires c.LTrim? ==> c.stop == Size(cfg, key) - 1
    requires Pending(workers, key) == Pending(s.workers, key)
             + (if c.LPush? then 1 else 0) - (if c.LTrim? then 1 else 0)
    requires key in Perform(s, c).db.lists
    ensures RingOkAt(cfg, Perform(s, c).(workers := workers), key)
  {
    var s' := Perform(s, c);
    if c.LPush? {
      assert ItemsAt(s'.db, key) == [c.item] + ItemsAt(s.db, key);
    } else if c.LTrim? {
      assert ItemsAt(s'.db, key) == Upto(ItemsAt(s.db, key), c.stop);
    }
  }

  lemma RingCommand(cfg: Config, s: Sys, c: Cmd, workers: seq<Worker>, key: string)
    requires Size(cfg, key) >= 1
    requires key in s.db.lists ==> RingOkAt(cfg, s, key)
    requires c.LTrim? && c.key == key ==> c.stop == Size(cfg, key) - 1
    requires Pending(workers, key) ==
             Pending(s.workers, key)
               + (if c.LPush? && c.key == key then 1 else 0) - (if c.LTrim? && c.key == key then 1 else 0)
    requires key in Perform(s, c).db.lists
    ensures RingOkAt(cfg, Perform(s, c).(workers := workers), key)
  {
    if !c.LPush? && !c.LTrim? && !c.ExpireList? {
      ListsKept(s, c);
    } else if c.key != key {
      OtherRing(s, c, key);
    } else {
      OwnRing(cfg, s, c, workers, key);
    }
  }

  lemma RestTrims(cfg: Config, w: Worker)
    requires w.Running? && w.todo != [] && TrimsWell(cfg, w)
    ensures TrimsWell(cfg, Rest(w))
    ensures !w.todo[0].LPush? ==> forall key :: !Owes(Rest(w), key)
    ensures w.todo[0].LPush? ==> forall key :: Owes(Rest(w), key) <==> key == w.todo[0].key
  {
    if |w.todo| > 1 {
      var rest := w.todo[1..];
      assert Rest(w) == Running(w.msg, rest);
      if w.todo[0].LPush? {
        assert rest[1..] == w.todo[2..];
        assert rest[0] == LTrim(w.todo[0].key, Size(cfg, w.todo[0].key) - 1);
      } else {
        assert Trimmed(cfg, rest);
      }
    }
  }

  lemma WorkRings(cfg: Config, s: Sys, i: nat)
    requires cfg.store.activityRingSize >= 1 && cfg.store.globalRingSize >= 1
    requires RingsOk(cfg, s) && SysOk(s) && Enabled(cfg, s, Work(i)) && s.workers[i].Running?
    ensures RingsOk(cfg, Next(cfg, s, Work(i)))
  {
    var w := s.workers[i];
    assert w in s.workers;
    var c, next := w.todo[0], Rest(w);
    var workers := s.workers[i := next];
    RestTrims(cfg, w);
    forall key | key in Perform(s, c).db.lists
      ensures RingOkAt(cfg, Perform(s, c).(workers := workers), key)
    {
      PendingUpdate(s.workers, i, next, key);
      RingCommand(cfg, s, c, workers, key);
    }
  }

  lemma CheckRings(cfg: Config, s: Sys, i: nat)
    requires RingsOk(cfg, s) && SysOk(s) && Enabled(cfg, s, Work(i)) && s.workers[i].Checking?
    ensures RingsOk(cfg, Next(cfg, s, Work(i)))
  {
    var w := s.workers[i];
    assert w in s.workers;
    var program := ActivityProgram(cfg, w.msg, SessionKey(w.msg.activity.sid) in s.db.hashes);
    ProgramTrimmed(cfg, w.msg, SessionKey(w.msg.activity.sid) in s.db.hashes);
    var next := Running(w.msg, program);
    assert program == [] || !program[0].LTrim?;
    forall key
      ensures Pending(s.workers[i := next], key) == Pending(s.workers, key)
    {
      PendingUpdate(s.workers, i, next, key);
    }
  }

  lemma TakeRings(cfg: Config, s: Sys, i: nat, m: Msg, clock: Time)
    requires RingsOk(cfg, s) && Enabled(cfg, s, Take(i, m, clock)) && Named(Take(i, m, clock))
    ensures RingsOk(cfg, Next(cfg, s, Take(i, m, clock)))
  {
    var next := Begin(cfg, m, clock);
    if next.Running? {
      PlainTrimmed(cfg, next.todo);
    }
    forall key
      ensures Pending(s.workers[i := next], key) == Pending(s.workers, key)
    {
      PendingUpdate(s.workers, i, next, key);
    }
  }

  lemma OtherRings(cfg: Config, s: Sys, e: Event)
    requires RingsOk(cfg, s) && SysOk(s) && Enabled(cfg, s, e) && !e.Take? && !e.Work?
    requires e.TickTouch? ==> !s.ticker.todo[0].LPush? && !s.ticker.todo[0].LTrim? && !s.ticker.todo[0].ExpireList?
    ensures RingsOk(cfg, Next(cfg, s, e))
  {
    var s' := Next(cfg, s, e);
    if e.TickTouch? {
      ListsKept(s, s.ticker.todo[0]);
    }
    forall key | key in s'.db.lists
      ensures RingOkAt(cfg, s', key)
    {
      assert key in s.db.lists;
      assert ItemsAt(s'.db, key) == ItemsAt(s.db, key);
    }
  }

  /** The ticker only ever runs touch pipelines. */
  predicate TouchesOnly(k: Ticker) {
    k.Touching? ==> forall c :: c in k.todo ==> c.HSet? || c.ExpireHash? || c.ZAdd?
  }

  lemma TouchesOnlyStep(cfg: Config, s: Sys, e: Event)
    requires TouchesOnly(s.ticker) && Enabled(cfg, s, e)
    ensures TouchesOnly(Next(cfg, s, e).ticker)
  {
  }

  lemma RingsStep(cfg: Config, s: Sys, e: Event)
    requires cfg.store.activityRingSize >= 1 && cfg.store.globalRingSize >= 1
    requires RingsOk(cfg, s) && SysOk(s) && TouchesOnly(s.ticker) && Enabled(cfg, s, e) && Named(e)
    ensures RingsOk(cfg, Next(cfg, s, e))
  {
    match e
    case Take(i, m, clock) => TakeRings(cfg, s, i, m, clock);
    case Work(i) =>
      if s.workers[i].Checking? {
        CheckRings(cfg, s, i);
      } else {
        WorkRings(cfg, s, i);
      }
    case TickTouch =>
      assert s.ticker.todo[0] in s.ticker.todo;
      OtherRings(cfg, s, e);
    case _ => OtherRings(cfg, s, e);
  }

  lemma {:induction false} RingsRun(cfg: Config, s: Sys, es: seq<Event>)
    requires cfg.store.activityRingSize >= 1 && cfg.store.globalRingSize >= 1
    requires RingsOk(cfg, s) && SysOk(s) && TouchesOnly(s.ticker) && Valid(cfg, s, es)
    requires forall e :: e in es ==> Named(e)
    ensures RingsOk(cfg, Final(cfg, s, es)) && |Final(cfg, s, es).workers| == |s.workers|
    decreases |es|
  {
    if es != [] {
      RingsStep(cfg, s, es[0]);
      SysOkStep(cfg, s, es[0]);
      TouchesOnlyStep(cfg, s, es[0]);
      RingsRun(cfg, Next(cfg, s, es[0]), es[1..]);
    }
  }

  // ---- the history it is measured against ----

  /** The command a step sends to the data base. */
  function SentBy(s: Sys, e: Event): Option<Cmd> {
    match e
    case Work(i) =>
      if i < |s.workers| && s.workers[i].Running? && s.workers[i].todo != [] then Some(s.workers[i].todo[0]) else None
    case TickTouch => if s.ticker.Touching? && s.ticker.todo != [] then Some(s.ticker.todo[0]) else None
    case TickSweep(ok) => if ok && s.ticker.Sweeping? then Some(ZRemRange(s.ticker.cutoff)) else None
    case BootTouch => if s.boot.Rehydrating? then Some(ZAddXX(s.boot.members, s.boot.nowMs)) else None
    case _ => None
  }

  /** No step sends more than one command, and nothing but commands and the clock changes the data
      base. */
  lemma OneCommandAStep(cfg: Config, s: Sys, e: Event)
    requires Enabled(cfg, s, e)
    ensures Next(cfg, s, e).db ==
            if e.Clock? then Advance(s.db, e.t)
            else if SentBy(s, e).Some? then Apply(s.db, SentBy(s, e).value) else s.db
  {
  }

  function PushedBy(s: Sys, e: Event, key: string): seq<Activity> {
    var c := SentBy(s, e);
    if c.Some? && c.value.LPush? && c.value.key == key then [c.value.item] else []
  }

  /** What a run pushes to a ring, newest first. */
  function PushesIn(cfg: Config, s: Sys, es: seq<Event>, key: string): seq<Activity>
    decreases |es|
  {
    if es == [] then [] else PushesIn(cfg, Next(cfg, s, es[0]), es[1..], key) + PushedBy(s, es[0], key)
  }

  lemma PushStep(cfg: Config, s: Sys, e: Event, key: string)
    requires Enabled(cfg, s, e)
    ensures var p, pushed := Next(cfg, s, e), PushedBy(s, e, key);
            && LogAt(p, key) == pushed + LogAt(s, key)
            && (key in s.db.lists ==> SinceAt(p, key) == SinceAt(s, key) + |pushed|)
            && (key !in s.db.lists && key in p.db.lists ==> |pushed| == 1 && SinceAt(p, key) == 1)
  {
    StepPerforms(cfg, s, e);
    var c := SentBy(s, e);
    if c.Some? {
      PerformPushes(s, c.value, key);
    } else {
      assert [] + LogAt(s, key) == LogAt(s, key);
    }
  }

  lemma StepPerforms(cfg: Config, s: Sys, e: Event)
    requires Enabled(cfg, s, e)
    ensures var p, c := Next(cfg, s, e), SentBy(s, e);
            if c.Some? then
              p.db == Perform(s, c.value).db && p.log == Perform(s, c.value).log && p.since == Perform(s, c.value).since
            else p.log == s.log && p.since == s.since && forall k :: k in p.db.lists ==> k in s.db.lists
  {
  }

  lemma PerformPushes(s: Sys, c: Cmd, key: string)
    ensures var p, pushed := Perform(s, c), if c.LPush? && c.key == key then [c.item] else [];
            && LogAt(p, key) == pushed + LogAt(s, key)
            && (key in s.db.lists ==> SinceAt(p, key) == SinceAt(s, key) + |pushed|)
            && (key !in s.db.lists && key in p.db.lists ==> |pushed| == 1 && SinceAt(p, key) == 1)
  {
    assert [] + LogAt(s, key) == LogAt(s, key);
  }

  /** The log is all that has been pushed. */
  lemma {:induction false} LogIsPushes(cfg: Config, s: Sys, es: seq<Event>, key: string)
    requires Valid(cfg, s, es)
    ensures LogAt(Final(cfg, s, es), key) == PushesIn(cfg, s, es, key) + LogAt(s, key)
    decreases |es|
  {
    if es == [] {
      assert [] + LogAt(s, key) == LogAt(s, key);
    } else {
      PushStep(cfg, s, es[0], key);
      LogIsPushes(cfg, Next(cfg, s, es[0]), es[1..], key);
    }
  }

  /** The ring is there after each step of the run. */
  ghost predicate StaysThere(cfg: Config, s: Sys, es: seq<Event>, key: string)
    decreases |es|
  {
    es == [] ||
    (key in Next(cfg, s, es[0]).db.lists && StaysThere(cfg, Next(cfg, s, es[0]), es[1..], key))
  }

  lemma {:induction false} SinceGrows(cfg: Config, s: Sys, es: seq<Event>, key: string)
    requires Valid(cfg, s, es) && key in s.db.lists && StaysThere(cfg, s, es, key)
    ensures SinceAt(Final(cfg, s, es), key) == SinceAt(s, key) + |PushesIn(cfg, s, es, key)|
    decreases |es|
  {
    if es != [] {
      PushStep(cfg, s, es[0], key);
      SinceGrows(cfg, Next(cfg, s, es[0]), es[1..], key);
    }
  }

  lemma {:induction false} FindsAbsent(cfg: Config, s: Sys, es: seq<Event>, key: string)
    returns (a: seq<Event>, b: seq<Event>)
    requires Valid(cfg, s, es) && !StaysThere(cfg, s, es, key)
    ensures es == a + b && a != [] && Valid(cfg, s, a) && key !in Final(cfg, s, a).db.lists
    decreases |es|
  {
    var p := Next(cfg, s, es[0]);
    if key in p.db.lists {
      var c;
      c, b := FindsAbsent(cfg, p, es[1..], key);
      a := [es[0]] + c;
      Undisturbed.OneStep(cfg, s, es[0]);
      Undisturbed.FinalConcat(cfg, s, [es[0]], c);
    } else {
      a, b := [es[0]], es[1..];
      Undisturbed.OneStep(cfg, s, es[0]);
    }
  }

  lemma SinceFromAbsent(cfg: Config, s: Sys, es: seq<Event>, key: string)
    requires Valid(cfg, s, es) && es != [] && key !in s.db.lists && StaysThere(cfg, s, es, key)
    ensures SinceAt(Final(cfg, s, es), key) == |PushesIn(cfg, s, es, key)|
  {
    PushStep(cfg, s, es[0], key);
    SinceGrows(cfg, Next(cfg, s, es[0]), es[1..], key);
  }

  /** After the first part of a run the ring is absent, during the second it is there throughout, and
      the count is that of the pushes of the second. */
  ghost predicate CountsFrom(cfg: Config, s: Sys, before: seq<Event>, after: seq<Event>, key: string) {
    var m := Final(cfg, s, before);
    && key !in m.db.lists && StaysThere(cfg, m, after, key)
    && SinceAt(Final(cfg, m, after), key) == |PushesIn(cfg, m, after, key)|
  }

  lemma CountsBehind(cfg: Config, s: Sys, a: seq<Event>, before: seq<Event>, after: seq<Event>, key: string)
    requires CountsFrom(cfg, Final(cfg, s, a), before, after, key)
    ensures CountsFrom(cfg, s, a + before, after, key)
  {
    Undisturbed.FinalConcat(cfg, s, a, before);
  }

  /** The count is that of the pushes since the ring was last absent. */
  lemma {:induction false} SinceIsPushes(cfg: Config, s: Sys, es: seq<Event>, key: string)
    returns (before: seq<Event>, after: seq<Event>)
    requires Valid(cfg, s, es) && key !in s.db.lists && key in Final(cfg, s, es).db.lists
    ensures es == before + after && CountsFrom(cfg, s, before, after, key)
    decreases |es|
  {
    if StaysThere(cfg, s, es, key) {
      before, after := [], es;
      SinceFromAbsent(cfg, s, es, key);
      assert [] + es == es && Final(cfg, s, []) == s;
    } else {
      var a, b := FindsAbsent(cfg, s, es, key);
      Undisturbed.FinalConcat(cfg, s, a, b);
      before, after := SinceIsPushes(cfg, Final(cfg, s, a), b, key);
      CountsBehind(cfg, s, a, before, after, key);
      assert (a + before) + after == a + (before + after);
      before := a + before;
    }
  }

  /** Ring safety: in every state the mesh can reach with `n` workers, and between any two
      commands, every ring there is holds the newest of its pushes, at least as many as
      configured (or all since it was last absent) and at most `n` more. */
  lemma RingSafety(cfg: Config, n: nat, es: seq<Event>, key: string)
    requires cfg.store.activityRingSize >= 1 && cfg.store.globalRingSize >= 1
    requires Valid(cfg, NonInterference.Start(n), es) && forall e :: e in es ==> Named(e)
    ensures var s := Final(cfg, NonInterference.Start(n), es);
            key in s.db.lists ==>
              var items, since := ItemsAt(s.db, key), SinceAt(s, key);
              && items <= LogAt(s, key)
              && Min(Size(cfg, key), since) <= |items| <= since
              && |items| <= Size(cfg, key) + Pending(s.workers, key) <= Size(cfg, key) + n
  {
    RingsRun(cfg, NonInterference.Start(n), es);
    var s := Final(cfg, NonInterference.Start(n), es);
    PendingBound(s.workers, key);
    if key in s.db.lists {
      assert RingOkAt(cfg, s, key);
    }
  }
}
