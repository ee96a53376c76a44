/** From the broker's callback to a handled message: the subscriber's health state, the
    bounded channel and the workers that drain it. */
module Subscriber {
  import opened Wrappers
  import opened Events

  const CHAN_CAP := 256
  const WORKER_COUNT := 2

  /** The caller's handler behind the counting wrapper. */
  datatype Handler = Wrapped(inner: nat)

  datatype Resubscribed = NoHandler | Refused | Resubscribed

  datatype SubscriberStats = SubscriberStats(connected: bool, subscribed: bool, msgCount: int, lastMsgMs: Time,
    startedAtMs: Time)

  class MqttSubscriber {
    var connected: bool
    var subscribed: bool
    var msgCount: int
    var lastMsgMs: Time
    var startedAtMs: Time
    var wrappedHandler: Option<Handler>

    /** Whenever Subscribed reads true a reconnect has a handler to register again. */
    predicate Valid()
      reads this
    {
      subscribed ==> wrappedHandler.Some?
    }

    /** The fields are those of the pipeline's state. */
    predicate Shows(p: Pipeline)
      reads this
    {
      msgCount == p.msgCount && subscribed == p.subscribed && wrappedHandler == p.handler
    }

    constructor ()
      ensures Valid() && Shows(FRESH) && !connected && startedAtMs == 0.0 && lastMsgMs == 0.0
    {
      connected, subscribed, msgCount, lastMsgMs, startedAtMs, wrappedHandler := false, false, 0, 0.0, 0.0, None;
    }

    /** Called when the connection comes or goes: a reconnect still finds handler and flag. */
    method SetConnected(v: bool, ghost p: Pipeline)
      requires Valid()
      modifies this`connected
      ensures Valid() && connected == v && (old(Shows(p)) ==> Shows(p))
    {
      connected := v;
    }

    /** `accepted` is the broker's answer; a refused subscribe leaves no trace. While the boot
        loop is still trying, the call is the pipeline's three boot steps. */
    method Subscribe(handler: nat, accepted: bool, now: Time, ghost p: Pipeline) returns (ok: bool)
      requires Valid()
      modifies this`wrappedHandler, this`subscribed, this`startedAtMs
      ensures Valid() && ok == accepted
      ensures ok ==> wrappedHandler == Some(Wrapped(handler)) && subscribed && startedAtMs == now
      ensures !ok ==> unchanged(this)
      ensures old(Shows(p)) && p.boot.Trying? ==>
                Shows(if ok then DoAll(p, [BootSubscribe(true), StoreHandler(handler), SetFlag])
                      else Do(p, BootSubscribe(false)))
    {
      if !accepted {
        return false;
      }
      wrappedHandler := Some(Wrapped(handler));
      subscribed := true;
      startedAtMs := now;
      ok := true;
      DoThree(p, BootSubscribe(true), StoreHandler(handler), SetFlag);
    }

    method ResubscribeOnReconnect(accepted: bool, now: Time, ghost p: Pipeline) returns (r: Resubscribed)
      requires Valid()
      modifies this`startedAtMs
      ensures Valid() && (old(Shows(p)) ==> Shows(Do(p, Reconnect(accepted))))
      ensures r == if wrappedHandler.None? then NoHandler else if accepted then Resubscribed else Refused
      ensures subscribed ==> r != NoHandler
      ensures startedAtMs == if r == Resubscribed then now else old(startedAtMs)
    {
      if wrappedHandler.None? {
        return NoHandler;
      }
      if !accepted {
        return Refused;
      }
      startedAtMs := now;
      r := Resubscribed;
    }

    /** The counting part of the wrapped handler, before it hands the message on. */
    method Count(m: nat, now: Time, ghost p: Pipeline)
      requires Valid()
      modifies this`msgCount, this`lastMsgMs
      ensures Valid() && msgCount == old(msgCount) + 1 && lastMsgMs == now
      ensures old(Shows(p)) ==> Shows(Do(p, Arrive(m)))
    {
      msgCount := msgCount + 1;
      lastMsgMs := now;
    }

    /** Who reads Subscribed as true may count on a handler being there. */
    method Stats() returns (s: SubscriberStats)
      requires Valid()
      ensures s == SubscriberStats(connected, subscribed, msgCount, lastMsgMs, startedAtMs)
      ensures s.subscribed ==> wrappedHandler.Some?
    {
      s := SubscriberStats(connected, subscribed, msgCount, lastMsgMs, startedAtMs);
    }
  }

  // ---- the pipeline, one atomic action a step ----

  /** Where the boot loop stands: trying, accepted by the broker, handler stored, flag set. */
  datatype BootPhase = Trying | Accepted | Stored | Booted

  datatype Pipeline = Pipeline(
    msgCount: nat,
    received: seq<nat>,           // every message a callback was entered for
    calling: multiset<nat>,       // counted, not yet offered to the channel
    enqueued: seq<nat>,           // every message the channel accepted
    queue: seq<nat>,
    taken: seq<nat>,              // every message a worker took
    working: multiset<nat>,
    handled: multiset<nat>,
    dropped: multiset<nat>,
    boot: BootPhase,
    handler: Option<Handler>,
    subscribed: bool,
    orphaned: nat)                // resubscribes refused for want of a handler while Subscribed was true

  datatype Action =
    | Arrive(m: nat)
    | Offer(m: nat)
    | TakeNext
    | Finish(m: nat)
    | BootSubscribe(accepted: bool)
    | StoreHandler(handler: nat)
    | SetFlag
    | Reconnect(accepted: bool)

  predicate Can(p: Pipeline, a: Action) {
    match a
    case Arrive(_) => true
    case Offer(m) => m in p.calling
    case TakeNext => p.boot.Booted? && p.queue != [] && |p.working| < WORKER_COUNT
    case Finish(m) => m in p.working
    case BootSubscribe(_) => p.boot.Trying?
    case StoreHandler(_) => p.boot.Accepted?
    case SetFlag => p.boot.Stored?
    case Reconnect(_) => true
  }

  /** A callback offers its message without waiting: a full channel drops it. */
  function Do(p: Pipeline, a: Action): Pipeline {
    if !Can(p, a) then p else
    match a
    case Arrive(m) => p.(msgCount := p.msgCount + 1, received := p.received + [m], calling := p.calling + multiset{m})
    case Offer(m) =>
      if |p.queue| < CHAN_CAP
      then p.(calling := p.calling - multiset{m}, queue := p.queue + [m], enqueued := p.enqueued + [m])
      else p.(calling := p.calling - multiset{m}, dropped := p.dropped + multiset{m})
    case TakeNext =>
      p.(queue := p.queue[1..], taken := p.taken + [p.queue[0]], working := p.working + multiset{p.queue[0]})
    case Finish(m) => p.(working := p.working - multiset{m}, handled := p.handled + multiset{m})
    case BootSubscribe(accepted) => if accepted then p.(boot := Accepted) else p
    case StoreHandler(h) => p.(boot := Stored, handler := Some(Wrapped(h)))
    case SetFlag => p.(boot := Booted, subscribed := true)
    case Reconnect(_) => if p.handler.None? && p.subscribed then p.(orphaned := p.orphaned + 1) else p
  }

  function DoAll(p: Pipeline, actions: seq<Action>): Pipeline {
    if actions == [] then p else Do(DoAll(p, actions[..|actions| - 1]), actions[|actions| - 1])
  }

  lemma DoThree(p: Pipeline, a: Action, b: Action, c: Action)
    ensures DoAll(p, [a, b, c]) == Do(Do(Do(p, a), b), c)
  {
    assert [a, b, c][..2] == [a, b] && [a, b][..1] == [a] && [a][..0] == [];
    assert DoAll(p, [a, b]) == Do(DoAll(p, [a]), b);
    assert DoAll(p, [a]) == Do(DoAll(p, []), a);
  }

  const FRESH := Pipeline(0, [], multiset{}, [], [], [], multiset{}, multiset{}, multiset{}, Trying, None, false, 0)

  /** No message is lost or made up: each one received is in exactly one place. */
  predicate Conserved(p: Pipeline) {
    && p.msgCount == |p.received|
    && multiset(p.received) == p.calling + p.dropped + multiset(p.queue) + p.working + p.handled
    && p.enqueued == p.taken + p.queue
    && multiset(p.taken) == p.working + p.handled
    && |p.queue| <= CHAN_CAP && |p.working| <= WORKER_COUNT
  }

  predicate HandlerFirst(p: Pipeline) {
    (p.subscribed ==> p.handler.Some?) && (p.boot.Stored? || p.boot.Booted? ==> p.handler.Some?) && p.orphaned == 0
  }

  lemma MoveOne(from: multiset<nat>, to: multiset<nat>, m: nat)
    requires m in from
    ensures (from - multiset{m}) + (to + multiset{m}) == from + to
    ensures |from - multiset{m}| == |from| - 1
  {
  }

  lemma OfferConserves(p: Pipeline, m: nat)
    requires Conserved(p) && m in p.calling
    ensures Conserved(Do(p, Offer(m)))
  {
    if |p.queue| < CHAN_CAP {
      var rest := p.dropped + p.working + p.handled;
      MoveOne(p.calling, multiset(p.queue), m);
      assert multiset(p.queue + [m]) == multiset(p.queue) + multiset{m};
      assert p.enqueued + [m] == p.taken + (p.queue + [m]);
      assert multiset(p.received) == p.calling + multiset(p.queue) + rest;
    } else {
      MoveOne(p.calling, p.dropped, m);
    }
  }

  lemma TakeConserves(p: Pipeline)
    requires Conserved(p) && Can(p, TakeNext)
    ensures Conserved(Do(p, TakeNext))
  {
    var m, rest := p.queue[0], p.queue[1..];
    assert p.queue == [m] + rest;
    assert multiset(p.queue) == multiset{m} + multiset(rest);
    assert multiset(p.taken + [m]) == multiset(p.taken) + multiset{m};
    assert p.taken + p.queue == (p.taken + [m]) + rest;
  }

  lemma ConservedStep(p: Pipeline, a: Action)
    requires Conserved(p) && HandlerFirst(p)
    ensures Conserved(Do(p, a)) && HandlerFirst(Do(p, a))
  {
    if Can(p, a) {
      match a
      case Arrive(m) => assert multiset(p.received + [m]) == multiset(p.received) + multiset{m};
      case Offer(m) => OfferConserves(p, m);
      case TakeNext => TakeConserves(p);
      case Finish(m) => MoveOne(p.working, p.handled, m);
      case _ =>
    }
  }

  /** Message conservation over every run, failed boots and reconnects included: what has been
      received is what is being called back, dropped, queued, in workers or handled; the channel
      is first in, first out and never over its capacity; and no reconnect ever finds the flag
      set but no handler. */
  lemma {:induction false} MessagesConserved(actions: seq<Action>)
    ensures var p := DoAll(FRESH, actions);
            && Conserved(p) && HandlerFirst(p) && |p.queue| <= 256 && |p.working| <= 2
            && p.msgCount == |p.calling| + |p.dropped| + |p.queue| + |p.working| + |p.handled|
  {
    if actions != [] {
      MessagesConserved(actions[..|actions| - 1]);
      ConservedStep(DoAll(FRESH, actions[..|actions| - 1]), actions[|actions| - 1]);
    }
    var p := DoAll(FRESH, actions);
    assert |multiset(p.received)| == |p.received| && |multiset(p.queue)| == |p.queue|;
  }

  // ---- what is dropped ----

  /** A message counted and not yet offered is dropped exactly when 256 messages are queued;
      otherwise it is the last in the queue. Nothing else changes but that it has been offered. */
  lemma OfferDropsIff(actions: seq<Action>, m: nat)
    requires m in DoAll(FRESH, actions).calling
    ensures var p, q := DoAll(FRESH, actions), DoAll(FRESH, actions + [Offer(m)]);
            && q.calling == p.calling - multiset{m}
            && (q.dropped == p.dropped + multiset{m} && q.queue == p.queue <==> |p.queue| == 256)
            && (q.dropped == p.dropped && q.queue == p.queue + [m] <==> |p.queue| < 256)
            && q.taken == p.taken && q.working == p.working && q.handled == p.handled
  {
    MessagesConserved(actions);
    assert (actions + [Offer(m)])[..|actions|] == actions;
  }

  /** Step `i` of the run offers a message while 256 are queued. */
  predicate Overflows(actions: seq<Action>, i: nat)
    requires i < |actions|
  {
    var p := DoAll(FRESH, actions[..i]);
    actions[i].Offer? && actions[i].m in p.calling && |p.queue| == 256
  }

  /** How many steps of the run do. */
  function Overflowing(actions: seq<Action>): nat {
    if actions == [] then 0
    else
      Overflowing(actions[..|actions| - 1]) + if Overflows(actions, |actions| - 1) then 1 else 0
  }

  lemma OnlyOffersDrop(p: Pipeline, a: Action)
    requires !(a.Offer? && a.m in p.calling)
    ensures Do(p, a).dropped == p.dropped
  {
  }

  lemma LastStepDrops(front: seq<Action>, a: Action)
    ensures var p, q := DoAll(FRESH, front), DoAll(FRESH, front + [a]);
            |q.dropped| == |p.dropped| + if Overflows(front + [a], |front|) then 1 else 0
  {
    var p, all := DoAll(FRESH, front), front + [a];
    assert all[..|front|] == front && all[|front|] == a;
    if a.Offer? && a.m in p.calling {
      MessagesConserved(front);
      OfferDropsIff(front, a.m);
    } else {
      OnlyOffersDrop(p, a);
      assert DoAll(FRESH, all) == Do(DoAll(FRESH, all[..|all| - 1]), all[|all| - 1]);
    }
  }

  /** Over every run, as many messages are dropped as offers were made with 256 queued. */
  lemma {:induction false} DroppedCount(actions: seq<Action>)
    ensures |DoAll(FRESH, actions).dropped| == Overflowing(actions)
  {
    if actions != [] {
      var front, a := actions[..|actions| - 1], actions[|actions| - 1];
      DroppedCount(front);
      assert front + [a] == actions;
      LastStepDrops(front, a);
    }
  }

  lemma {:induction false} OverflowingIff(actions: seq<Action>)
    ensures Overflowing(actions) == 0 <==> forall i :: 0 <= i < |actions| ==> !Overflows(actions, i)
  {
    if actions != [] {
      var front := actions[..|actions| - 1];
      OverflowingIff(front);
      forall i | 0 <= i < |front|
        ensures Overflows(front, i) <==> Overflows(actions, i)
      {
        assert front[..i] == actions[..i];
      }
    }
  }

  /** So none is dropped exactly when no offer was made with 256 queued. */
  lemma NoneDroppedIff(actions: seq<Action>)
    ensures DoAll(FRESH, actions).dropped == multiset{} <==> forall i :: 0 <= i < |actions| ==> !Overflows(actions, i)
  {
    DroppedCount(actions);
    OverflowingIff(actions);
  }

  // ---- what is handled ----

  lemma {:induction false} DoMore(p: Pipeline, a: seq<Action>, b: seq<Action>)
    ensures DoAll(p, a + b) == DoAll(DoAll(p, a), b)
    decreases |b|
  {
    if b == [] {
      assert a + b == a;
    } else {
      assert (a + b)[..|a + b| - 1] == a + b[..|b| - 1];
      DoMore(p, a, b[..|b| - 1]);
    }
  }

  lemma DoOne(p: Pipeline, a: Action)
    ensures DoAll(p, [a]) == Do(p, a)
  {
    assert [a][..0] == [];
  }

  /** A worker takes the oldest message queued exactly when the boot is done and fewer than two
      are at work. */
  lemma TakesIff(actions: seq<Action>)
    requires DoAll(FRESH, actions).queue != []
    ensures var p, q := DoAll(FRESH, actions), DoAll(FRESH, actions + [TakeNext]);
            && (q != p <==> p.subscribed && |p.working| < 2)
            && (q != p ==> q == p.(queue := p.queue[1..], taken := p.taken + [p.queue[0]],
                                   working := p.working + multiset{p.queue[0]}))
  {
    SubscribedIff(actions);
    assert (actions + [TakeNext])[..|actions|] == actions;
  }

  lemma {:induction false} SubscribedIff(actions: seq<Action>)
    ensures DoAll(FRESH, actions).subscribed <==> DoAll(FRESH, actions).boot.Booted?
  {
    if actions != [] {
      SubscribedIff(actions[..|actions| - 1]);
    }
  }

  /** The boot finishes, from wherever it stands. */
  lemma Boots(p: Pipeline) returns (actions: seq<Action>)
    ensures DoAll(p, actions) == p.(boot := Booted, handler := DoAll(p, actions).handler,
                                    subscribed := DoAll(p, actions).subscribed)
  {
    match p.boot
    case Trying =>
      actions := [BootSubscribe(true), StoreHandler(0), SetFlag];
      DoThree(p, BootSubscribe(true), StoreHandler(0), SetFlag);
    case Accepted =>
      actions := [StoreHandler(0)] + [SetFlag];
      DoMore(p, [StoreHandler(0)], [SetFlag]);
      DoOne(p, StoreHandler(0));
      DoOne(Do(p, StoreHandler(0)), SetFlag);
    case Stored =>
      actions := [SetFlag];
      DoOne(p, SetFlag);
    case Booted =>
      actions := [];
  }

  /** Every message received and not dropped. */
  function StillIn(p: Pipeline): multiset<nat> {
    p.handled + p.working + multiset(p.queue) + p.calling
  }

  /** Nothing is under way any more, and nothing more has been dropped. */
  predicate Drained(p: Pipeline, q: Pipeline) {
    && q.calling == multiset{} && q.queue == [] && q.working == multiset{} && q.dropped == p.dropped
    && q.handled == StillIn(p)
  }

  function StepsLeft(p: Pipeline): nat {
    3 * |p.calling| + 2 * |p.queue| + |p.working|
  }

  predicate StepsOn(p: Pipeline, q: Pipeline) {
    Conserved(q) && q.boot.Booted? && q.dropped == p.dropped && StillIn(q) == StillIn(p) && StepsLeft(q) < StepsLeft(p)
  }

  lemma FinishStepsOn(p: Pipeline, m: nat)
    requires Conserved(p) && p.boot.Booted? && m in p.working
    ensures StepsOn(p, Do(p, Finish(m)))
  {
    MoveOne(p.working, p.handled, m);
  }

  lemma TakeStepsOn(p: Pipeline)
    requires Conserved(p) && p.boot.Booted? && p.working == multiset{} && p.queue != []
    ensures StepsOn(p, Do(p, TakeNext))
  {
    TakeConserves(p);
    assert p.queue == [p.queue[0]] + p.queue[1..];
  }

  lemma OfferStepsOn(p: Pipeline, m: nat)
    requires Conserved(p) && p.boot.Booted? && p.queue == [] && m in p.calling
    ensures StepsOn(p, Do(p, Offer(m)))
  {
    OfferConserves(p, m);
    assert [] + [m] == [m];
  }

  lemma {:induction false} DrainsBooted(p: Pipeline) returns (actions: seq<Action>)
    requires Conserved(p) && p.boot.Booted?
    ensures Drained(p, DoAll(p, actions))
    decreases StepsLeft(p)
  {
    if p.working == multiset{} && p.queue == [] && p.calling == multiset{} {
      actions := [];
    } else {
      var a;
      if p.working != multiset{} {
        var m :| m in p.working;
        a := Finish(m);
        FinishStepsOn(p, m);
      } else if p.queue != [] {
        a := TakeNext;
        TakeStepsOn(p);
      } else {
        var m :| m in p.calling;
        a := Offer(m);
        OfferStepsOn(p, m);
      }
      var rest := DrainsBooted(Do(p, a));
      actions := [a] + rest;
      DoMore(p, [a], rest);
      DoOne(p, a);
    }
  }

  /** Whatever has happened, every message not dropped can still be handled, without one more being
      dropped. */
  lemma Drains(actions: seq<Action>) returns (more: seq<Action>)
    ensures Drained(DoAll(FRESH, actions), DoAll(FRESH, actions + more))
    ensures var q := DoAll(FRESH, actions + more); multiset(q.received) == q.dropped + q.handled
  {
    MessagesConserved(actions);
    var p := DoAll(FRESH, actions);
    var boot := Boots(p);
    var rest := DrainsBooted(DoAll(p, boot));
    more := boot + rest;
    DoMore(p, boot, rest);
    DoMore(FRESH, actions, more);
    MessagesConserved(actions + more);
  }
}
