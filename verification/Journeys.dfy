/** Runs that follow rules of conduct, built one event at a time. */
module Journeys {
  import opened Wrappers
  import opened Mesh
  import opened NonInterference
  import opened Phantoms
  import Atomic

  /** What does not change on the way: which rules are followed about which session, and the
      settings. */
  datatype Trip = Trip(rules: set<Rule>, tm: Atomic.Timing, cfg: Config, n: nat, sid: string)

  datatype Seen = Seen(j: Journal, s: Sys)

  ghost predicate Allowed(trip: Trip, j: Journal, s: Sys, e: Event) {
    Enabled(trip.cfg, s, e) && forall rule :: rule in trip.rules ==> Keeps(rule, trip.tm, trip.cfg, j, s, e, trip.sid)
  }

  function After(trip: Trip, j: Journal, s: Sys, e: Event): Seen {
    Seen(Noted(trip.tm, j, s, e, trip.sid), Next(trip.cfg, s, e))
  }

  ghost function Outcome(trip: Trip, at: Seen, es: seq<Event>): Option<Seen>
    decreases |es|
  {
    if es == [] then Some(at)
    else if Allowed(trip, at.j, at.s, es[0]) then Outcome(trip, After(trip, at.j, at.s, es[0]), es[1..])
    else None
  }

  /** From the start of the mesh the events lead, by the rules, to this state. */
  ghost predicate Leads(trip: Trip, es: seq<Event>, j: Journal, s: Sys) {
    Outcome(trip, Seen(Begun(trip.tm), Start(trip.n)), es) == Some(Seen(j, s))
  }

  lemma {:induction false} OutcomeThen(trip: Trip, at: Seen, es: seq<Event>, e: Event)
    requires Outcome(trip, at, es).Some?
    requires Allowed(trip, Outcome(trip, at, es).value.j, Outcome(trip, at, es).value.s, e)
    ensures var was := Outcome(trip, at, es).value;
            Outcome(trip, at, es + [e]) == Some(After(trip, was.j, was.s, e))
    decreases |es|
  {
    if es == [] {
      assert es + [e] == [e] && [e][1..] == [];
    } else {
      assert (es + [e])[1..] == es[1..] + [e];
      OutcomeThen(trip, After(trip, at.j, at.s, es[0]), es[1..], e);
    }
  }

  lemma Then(trip: Trip, es: seq<Event>, j: Journal, s: Sys, e: Event)
    requires Leads(trip, es, j, s) && Allowed(trip, j, s, e)
    ensures Leads(trip, es + [e], After(trip, j, s, e).j, After(trip, j, s, e).s)
  {
    OutcomeThen(trip, Seen(Begun(trip.tm), Start(trip.n)), es, e);
  }

  lemma {:induction false} OutcomeFollows(trip: Trip, at: Seen, es: seq<Event>)
    requires Outcome(trip, at, es).Some?
    ensures Valid(trip.cfg, at.s, es) && Final(trip.cfg, at.s, es) == Outcome(trip, at, es).value.s
    ensures Follows(trip.rules, trip.tm, trip.cfg, at.j, at.s, es, trip.sid)
    decreases |es|
  {
    if es != [] {
      OutcomeFollows(trip, After(trip, at.j, at.s, es[0]), es[1..]);
    }
  }

  lemma LeadsFollows(trip: Trip, es: seq<Event>, j: Journal, s: Sys)
    requires Leads(trip, es, j, s)
    ensures Valid(trip.cfg, Start(trip.n), es) && Final(trip.cfg, Start(trip.n), es) == s
    ensures Follows(trip.rules, trip.tm, trip.cfg, Begun(trip.tm), Start(trip.n), es, trip.sid)
  {
    OutcomeFollows(trip, Seen(Begun(trip.tm), Start(trip.n)), es);
  }
}
