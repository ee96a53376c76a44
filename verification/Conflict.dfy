/** The conflict lookup: the newest entry of each other session that targeted a file,
    read off the front of the global ring. */
module Conflict {
  import opened Events
  import opened Keys
  import opened Redis
  import opened Store
  import opened Mesh
  import NonInterference
  import Rings

  datatype ConflictEntry = ConflictEntry(sid: string, lastSeenMs: Time, tool: string)

  /** Entry `i` is the first, and so the newest, of its session that targets the file. */
  ghost predicate IsNewest(items: seq<Activity>, i: nat, file: string) {
    && i < |items| && items[i].target == file
    && forall j :: 0 <= j < i && items[j].target == file ==> items[j].sid != items[i].sid
  }

  /** The entry is the session, time and tool of the newest activity of a session that targets the
      file. */
  ghost predicate Stems(e: ConflictEntry, items: seq<Activity>, file: string) {
    exists i: nat :: IsNewest(items, i, file) && e == ConflictEntry(items[i].sid, items[i].ts, items[i].tool)
  }

  /** One entry for each other session that targeted the file, from its newest such activity; none
      for the caller. */
  ghost predicate Answers(conflicts: seq<ConflictEntry>, items: seq<Activity>, file: string, caller: string) {
    && (forall e :: e in conflicts ==> e.sid != caller && Stems(e, items, file))
    && (forall i :: 0 <= i < |items| && items[i].target == file && items[i].sid != caller ==>
          exists e :: e in conflicts && e.sid == items[i].sid)
    && (forall i, j :: 0 <= i < j < |conflicts| ==> conflicts[i].sid != conflicts[j].sid)
  }

  lemma NewestStays(items: seq<Activity>, a: Activity, i: nat, file: string)
    requires IsNewest(items, i, file)
    ensures IsNewest(items + [a], i, file) && (items + [a])[i] == items[i]
  {
  }

  lemma StemsStays(e: ConflictEntry, items: seq<Activity>, a: Activity, file: string)
    requires Stems(e, items, file)
    ensures Stems(e, items + [a], file)
  {
    var i: nat :| IsNewest(items, i, file) && e == ConflictEntry(items[i].sid, items[i].ts, items[i].tool);
    NewestStays(items, a, i, file);
  }

  /** What the loop has seen: the newest activity of each other session that targets the file. */
  ghost predicate Seen(seen: map<string, ConflictEntry>, items: seq<Activity>, file: string, caller: string) {
    && (forall sid :: sid in seen ==> sid != caller && seen[sid].sid == sid && Stems(seen[sid], items, file))
    && (forall i :: 0 <= i < |items| && items[i].target == file && items[i].sid != caller ==> items[i].sid in seen)
  }

  lemma SeenStep(seen: map<string, ConflictEntry>, items: seq<Activity>, act: Activity, file: string, caller: string)
    requires Seen(seen, items, file, caller)
    ensures act.target == file && act.sid != caller && act.sid !in seen ==>
              Seen(seen[act.sid := ConflictEntry(act.sid, act.ts, act.tool)], items + [act], file, caller)
    ensures act.target != file || act.sid == caller || act.sid in seen ==> Seen(seen, items + [act], file, caller)
  {
    forall sid | sid in seen
      ensures Stems(seen[sid], items + [act], file)
    {
      StemsStays(seen[sid], items, act, file);
    }
    if act.target == file && act.sid != caller && act.sid !in seen {
      assert IsNewest(items + [act], |items|, file);
    }
  }

  method FindConflicts(activities: seq<Activity>, file: string, caller: string) returns (conflicts: seq<ConflictEntry>)
    ensures Answers(conflicts, activities, file, caller)
  {
    var seen: map<string, ConflictEntry> := map[];
    for i := 0 to |activities|
      invariant Seen(seen, activities[..i], file, caller)
    {
      var act := activities[i];
      assert activities[..i + 1] == activities[..i] + [act];
      SeenStep(seen, activities[..i], act, file, caller);
      if act.target != file {
        continue;
      }
      if act.sid == caller {
        continue;
      }
      if act.sid !in seen {
        seen := seen[act.sid := ConflictEntry(act.sid, act.ts, act.tool)];
      }
    }
    assert activities[..|activities|] == activities;
    conflicts := [];
    var rest := seen.Keys;
    while rest != {}
      invariant rest <= seen.Keys
      invariant forall e :: e in conflicts ==> e.sid in seen && e.sid !in rest && e == seen[e.sid]
      invariant forall sid :: sid in seen && sid !in rest ==> seen[sid] in conflicts
      invariant forall i, j :: 0 <= i < j < |conflicts| ==> conflicts[i].sid != conflicts[j].sid
      decreases |rest|
    {
      var sid :| sid in rest;
      conflicts := conflicts + [seen[sid]];
      rest := rest - {sid};
    }
  }

  /** The search is over the newest two hundred entries of the global ring. */
  method CheckConflict(store: RedisStore, file: string, caller: string) returns (conflicts: seq<ConflictEntry>)
    ensures var ring := ItemsAt(store.client.Contents(), ACTIVITY_GLOBAL_KEY);
            Answers(conflicts, if |ring| > 200 then ring[..200] else ring, file, caller)
  {
    var activities := store.RecentActivity(200, "");
    conflicts := FindConflicts(activities, file, caller);
  }

  /** Answers about a window of the push history are determined by that window alone. */
  lemma AnswersUnique(a: seq<ConflictEntry>, b: seq<ConflictEntry>, items: seq<Activity>, file: string, caller: string)
    requires Answers(a, items, file, caller) && Answers(b, items, file, caller)
    ensures forall e :: e in a <==> e in b
  {
    forall e | e in a
      ensures e in b
    {
      AnsweredAlike(e, a, b, items, file, caller);
    }
    forall e | e in b
      ensures e in a
    {
      AnsweredAlike(e, b, a, items, file, caller);
    }
  }

  lemma AnsweredAlike(e: ConflictEntry, a: seq<ConflictEntry>, b: seq<ConflictEntry>, items: seq<Activity>,
                      file: string, caller: string)
    requires Answers(a, items, file, caller) && Answers(b, items, file, caller) && e in a
    ensures e in b
  {
    var i: nat :| IsNewest(items, i, file) && e == ConflictEntry(items[i].sid, items[i].ts, items[i].tool);
    var f :| f in b && f.sid == items[i].sid;
    var j: nat :| IsNewest(items, j, file) && f == ConflictEntry(items[j].sid, items[j].ts, items[j].tool);
    assert i == j;
  }

  /** The lookup refines the full history. In any reachable state in which the global ring has
      not expired, an answer read off the ring is one over the last pushes ever made: exactly
      the last min(200, ring size) of them (or all since the ring appeared) when the ring is
      that large or no worker is between its push and its trim, and never fewer. */
  lemma ConflictRefinesHistory(cfg: Config, n: nat, es: seq<Event>, conflicts: seq<ConflictEntry>, file: string,
                               caller: string)
    requires cfg.store.activityRingSize >= 1 && cfg.store.globalRingSize >= 1
    requires Valid(cfg, NonInterference.Start(n), es) && forall e :: e in es ==> Rings.Named(e)
    requires var s := Final(cfg, NonInterference.Start(n), es);
             && ACTIVITY_GLOBAL_KEY in s.db.lists
             && Answers(conflicts, Upto(ItemsAt(s.db, ACTIVITY_GLOBAL_KEY), 199), file, caller)
    ensures var s := Final(cfg, NonInterference.Start(n), es);
            var size, since := cfg.store.globalRingSize, SinceAt(s, ACTIVITY_GLOBAL_KEY);
            exists k: nat ::
              && k <= |LogAt(s, ACTIVITY_GLOBAL_KEY)|
              && Answers(conflicts, LogAt(s, ACTIVITY_GLOBAL_KEY)[..k], file, caller)
              && Rings.Min(Rings.Min(200, size), since) <= k <= Rings.Min(200, since)
              && (size >= 200 || Rings.Pending(s.workers, ACTIVITY_GLOBAL_KEY) == 0 ==>
                    k == Rings.Min(Rings.Min(200, size), since))
  {
    Rings.RingSafety(cfg, n, es, ACTIVITY_GLOBAL_KEY);
    var s := Final(cfg, NonInterference.Start(n), es);
    var items := ItemsAt(s.db, ACTIVITY_GLOBAL_KEY);
    var k := |Upto(items, 199)|;
    assert Upto(items, 199) == LogAt(s, ACTIVITY_GLOBAL_KEY)[..k];
  }
}
