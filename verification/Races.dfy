/** What atomic pipelines would rule out and single commands do not. */
module Races {
  import opened Events
  import opened Wrappers
  import opened Keys
  import opened Redis
  import opened Store
  import opened Bridge
  import opened Mesh
  import NonInterference

  /** An open and a close of one session, taken by two workers: the open has renewed the Hash
      when the close removes the member and shortens the Hash's life, and only then does the
      open score the session. */
  function OpenCloseRace(ev: SessionOpen): seq<Event> {
    [Take(0, OpenMsg(ev), ev.ts), Work(0), Work(0),
     Take(1, CloseMsg(ev.sid), ev.ts), Work(1), Work(1),
     Work(0), Clock(Seconds(GRACE_SECONDS))]
  }

  lemma FinalStep(cfg: Config, s: Sys, es: seq<Event>)
    requires es != []
    ensures Final(cfg, s, es) == Final(cfg, Next(cfg, s, es[0]), es[1..])
    ensures Enabled(cfg, s, es[0]) && Valid(cfg, Next(cfg, s, es[0]), es[1..]) ==> Valid(cfg, s, es)
  {
  }

  /** The state the race has reached before the clock moves on. */
  lemma RaceSoFar(cfg: Config, ev: SessionOpen, s0: Sys) returns (s7: Sys)
    requires s0 == NonInterference.Start(2) && ev.ts != 0.0 && Seconds(cfg.store.sessionTTL) > 0.0
    ensures var es := OpenCloseRace(ev);
            && Final(cfg, s0, es) == Final(cfg, s7, es[7..])
            && (Valid(cfg, s7, es[7..]) ==> Valid(cfg, s0, es))
    ensures s7.db.now == 0.0 && ev.sid in s7.db.zset && SessionKey(ev.sid) in s7.db.hashes
    ensures s7.db.hashes[SessionKey(ev.sid)].expiry == Some(Seconds(GRACE_SECONDS))
  {
    var es := OpenCloseRace(ev);
    var key := SessionKey(ev.sid);
    var open, close := OpenPipeline(cfg.store, ev, ev.ts), ClosePipeline(ev.sid);
    var s1 := Next(cfg, s0, es[0]);
    var s2 := Next(cfg, s1, es[1]);
    var s3 := Next(cfg, s2, es[2]);
    assert s1.workers == [Running(OpenMsg(ev), open), Idle];
    assert s2.workers == [Running(OpenMsg(ev), open[1..]), Idle];
    assert s3.workers == [Running(OpenMsg(ev), open[1..][1..]), Idle];
    assert key in s2.db.hashes && key in s3.db.hashes;
    var s4 := Next(cfg, s3, es[3]);
    var s5 := Next(cfg, s4, es[4]);
    var s6 := Next(cfg, s5, es[5]);
    assert s4.workers == [Running(OpenMsg(ev), open[1..][1..]), Running(CloseMsg(ev.sid), close)];
    assert s5.workers == [Running(OpenMsg(ev), open[1..][1..]), Running(CloseMsg(ev.sid), close[1..])];
    assert s6.workers == [Running(OpenMsg(ev), open[1..][1..]), Idle];
    assert s6.db.hashes[key].expiry == Some(Seconds(GRACE_SECONDS));
    assert open[1..][1..][0] == ZAdd(ev.sid, ev.ts);
    s7 := Next(cfg, s6, es[6]);
    forall i | 0 <= i < 7
      ensures es[i..][0] == es[i] && es[i..][1..] == es[i + 1..]
    {
    }
    assert es[0..] == es;
    FinalStep(cfg, s6, es[6..]);
    FinalStep(cfg, s5, es[5..]);
    FinalStep(cfg, s4, es[4..]);
    FinalStep(cfg, s3, es[3..]);
    FinalStep(cfg, s2, es[2..]);
    FinalStep(cfg, s1, es[1..]);
    FinalStep(cfg, s0, es[0..]);
  }

  /** With pipelines split into commands a member can outlive its Hash whatever the settings.
      `Phantoms` has the rules of conduct under which none does. */
  lemma CommandsStrandMembers(cfg: Config, ev: SessionOpen)
    requires ev.ts != 0.0 && Seconds(cfg.store.sessionTTL) > 0.0
    ensures Valid(cfg, NonInterference.Start(2), OpenCloseRace(ev))
    ensures var db := Final(cfg, NonInterference.Start(2), OpenCloseRace(ev)).db;
            ev.sid in db.zset && !Listed(db, ev.sid)
  {
    var es := OpenCloseRace(ev);
    var s7 := RaceSoFar(cfg, ev, NonInterference.Start(2));
    assert es[7..] == [Clock(Seconds(GRACE_SECONDS))];
    assert [Clock(Seconds(GRACE_SECONDS))][1..] == [];
    assert Final(cfg, s7, es[7..]) == Next(cfg, s7, Clock(Seconds(GRACE_SECONDS)));
    assert Valid(cfg, Next(cfg, s7, Clock(Seconds(GRACE_SECONDS))), []);
    FinalStep(cfg, s7, es[7..]);
  }
}
