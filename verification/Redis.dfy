/** The events carried by the mesh, the Redis keys they land under, and the few
    Redis commands the store issues. The data base is a value, so that one run of
    the system is a fold of commands over it; `Client` is the mutable server. */
module Events {
  /** Milliseconds, as the float64 timestamps of the protocol, without rounding. */
  type Time = real

  datatype SessionOpen = SessionOpen(
    ts: Time, sid: string, cwd: string, transcriptPath: string, gitBranch: string, host: string, pid: int)

  datatype SessionClose = SessionClose(ts: Time, sid: string, reason: string)

  datatype Activity = Activity(ts: Time, sid: string, tool: string, target: string, cwd: string)
}

module Wrappers {
  datatype Option<+T> = None | Some(value: T) {
    function GetOr(default: T): T {
      if Some? then value else default
    }
  }
}

module Keys {
  const ACTIVE_SESSIONS := "claude:mesh:sessions:active"
  const ACTIVITY_GLOBAL_KEY := "claude:mesh:activity:global"
  const MQTT_HEALTH_KEY := "claude:mesh:bridge:mqtt_health"

  function SessionKey(sid: string): string {
    "claude:mesh:session:" + sid
  }

  function ActivityKey(sid: string): string {
    "claude:mesh:activity:" + sid
  }

  lemma PrefixCancels(p: string, a: string, b: string)
    ensures p + a == p + b <==> a == b
  {
    assert (p + a)[|p|..] == a && (p + b)[|p|..] == b;
  }

  /** No two sessions share a key and no key serves two purposes, with one
      exception: the session named "global" owns the global ring. */
  lemma KeysSeparate(a: string, b: string)
    ensures SessionKey(a) == SessionKey(b) <==> a == b
    ensures ActivityKey(a) == ActivityKey(b) <==> a == b
    ensures ActivityKey(a) == ACTIVITY_GLOBAL_KEY <==> a == "global"
    ensures SessionKey(a) != ActivityKey(b)
    ensures SessionKey(a) !in {ACTIVE_SESSIONS, ACTIVITY_GLOBAL_KEY, MQTT_HEALTH_KEY}
    ensures ActivityKey(a) !in {ACTIVE_SESSIONS, MQTT_HEALTH_KEY}
  {
    PrefixCancels("claude:mesh:session:", a, b);
    PrefixCancels("claude:mesh:activity:", a, b);
    PrefixCancels("claude:mesh:activity:", a, "global");
    assert ACTIVITY_GLOBAL_KEY == "claude:mesh:activity:" + "global";
    assert SessionKey(a)[12] == 's' && ActivityKey(b)[12] == 'a' && ActivityKey(a)[12] == 'a';
    assert SessionKey(a)[19] == ':' && ACTIVE_SESSIONS[19] == 's' && ACTIVE_SESSIONS[12] == 's';
    assert ACTIVITY_GLOBAL_KEY[12] == 'a' && MQTT_HEALTH_KEY[12] == 'b';
  }
}

module Redis {
  import opened Events
  import opened Wrappers

  /** What a Hash field can hold: text, a timestamp, or a process id. */
  datatype Val = Text(text: string) | Stamp(at: Time) | Pid(pid: int)

  datatype Hash = Hash(fields: map<string, Val>, expiry: Option<Time>)
  datatype List = List(items: seq<Activity>, expiry: Option<Time>)

  /** The parts of the data base the mesh uses. Keys whose time to live has run
      out are absent: `Advance` removes them as the clock passes. */
  datatype Db = Db(
    now: Time,
    hashes: map<string, Hash>,
    zset: map<string, Time>,
    lists: map<string, List>)

  datatype Cmd =
    | HSet(key: string, fields: map<string, Val>)
    | HSetNX(key: string, field: string, val: Val)
    | ExpireHash(key: string, ttl: Time)
    | ZAdd(member: string, score: Time)
    | ZAddXX(members: set<string>, score: Time)
    | ZRem(member: string)
    | ZRemRange(cutoff: Time)
    | LPush(key: string, item: Activity)
    | LTrim(key: string, stop: int)
    | ExpireList(key: string, ttl: Time)

  function FieldsAt(db: Db, key: string): map<string, Val> {
    if key in db.hashes then db.hashes[key].fields else map[]
  }

  function HashExpiryAt(db: Db, key: string): Option<Time> {
    if key in db.hashes then db.hashes[key].expiry else None
  }

  function ItemsAt(db: Db, key: string): seq<Activity> {
    if key in db.lists then db.lists[key].items else []
  }

  function ListExpiryAt(db: Db, key: string): Option<Time> {
    if key in db.lists then db.lists[key].expiry else None
  }

  /** The elements of `LTRIM key 0 stop` and `LRANGE key 0 stop`: a negative
      `stop` counts from the end, so -1 keeps everything. */
  function Upto<T>(items: seq<T>, stop: int): seq<T> {
    var end := if stop < 0 then |items| + stop + 1 else stop + 1;
    if end <= 0 then [] else if end < |items| then items[..end] else items
  }

  function Apply(db: Db, c: Cmd): Db {
    match c
    case HSet(key, fields) =>
      db.(hashes := db.hashes[key := Hash(FieldsAt(db, key) + fields, HashExpiryAt(db, key))])
    case HSetNX(key, field, val) =>
      if field in FieldsAt(db, key) then db
      else db.(hashes := db.hashes[key := Hash(FieldsAt(db, key)[field := val], HashExpiryAt(db, key))])
    case ExpireHash(key, ttl) =>
      if key !in db.hashes then db
      else if ttl <= 0.0 then db.(hashes := db.hashes - {key})
      else db.(hashes := db.hashes[key := db.hashes[key].(expiry := Some(db.now + ttl))])
    case ZAdd(member, score) =>
      db.(zset := db.zset[member := score])
    case ZAddXX(members, score) =>
      db.(zset := map m | m in db.zset :: if m in members then score else db.zset[m])
    case ZRem(member) =>
      db.(zset := db.zset - {member})
    case ZRemRange(cutoff) =>
      db.(zset := map m | m in db.zset && cutoff < db.zset[m] :: db.zset[m])
    case LPush(key, item) =>
      db.(lists := db.lists[key := List([item] + ItemsAt(db, key), ListExpiryAt(db, key))])
    case LTrim(key, stop) =>
      if key !in db.lists then db
      else if Upto(db.lists[key].items, stop) == [] then db.(lists := db.lists - {key})
      else db.(lists := db.lists[key := db.lists[key].(items := Upto(db.lists[key].items, stop))])
    case ExpireList(key, ttl) =>
      if key !in db.lists then db
      else if ttl <= 0.0 then db.(lists := db.lists - {key})
      else db.(lists := db.lists[key := db.lists[key].(expiry := Some(db.now + ttl))])
  }

  /** A pipeline sent in one go. */
  function Run(db: Db, cmds: seq<Cmd>): Db
    decreases |cmds|
  {
    if cmds == [] then db else Run(Apply(db, cmds[0]), cmds[1..])
  }

  predicate Unexpired(expiry: Option<Time>, t: Time) {
    expiry.None? || t < expiry.value
  }

  /** The clock moves to `t`; whatever has lived out its time is gone. */
  function Advance(db: Db, t: Time): Db {
    Db(t,
       map k | k in db.hashes && Unexpired(db.hashes[k].expiry, t) :: db.hashes[k],
       db.zset,
       map k | k in db.lists && Unexpired(db.lists[k].expiry, t) :: db.lists[k])
  }

  lemma {:induction false} RunConcat(db: Db, a: seq<Cmd>, b: seq<Cmd>)
    ensures Run(db, a + b) == Run(Run(db, a), b)
    decreases |a|
  {
    if a == [] {
      assert a + b == b;
    } else {
      RunConcat(Apply(db, a[0]), a[1..], b);
      assert (a + b)[1..] == a[1..] + b;
    }
  }

  ghost predicate TrimmedTo(size: int, items: seq<Activity>) {
    |Upto(items, size - 1)| <= size
  }

  /** The ring bound a trim gives: it holds for every list exactly when the
      configured size is at least one, since size 0 asks for index -1. */
  lemma TrimBoundsIff(size: int)
    ensures (forall items :: TrimmedTo(size, items)) <==> size >= 1
  {
    if size < 1 {
      var items := seq(2 - size, i => Activity(0.0, "", "", "", ""));
      assert !TrimmedTo(size, items);
    }
  }

  // ---- the commands, by what a reader sees ----

  predicate SameHashes(db: Db, d: Db) {
    d.now == db.now && d.hashes == db.hashes
  }

  ghost predicate SameButHash(db: Db, d: Db, key: string) {
    && d.now == db.now && d.zset == db.zset && d.lists == db.lists
    && forall k :: k != key ==> (k in d.hashes <==> k in db.hashes) && (k in db.hashes ==> d.hashes[k] == db.hashes[k])
  }

  /** HSET makes each field read as written and leaves the other fields, and the expiry. */
  lemma WritesRead(db: Db, key: string, fields: map<string, Val>)
    ensures var d := Apply(db, HSet(key, fields));
            && SameButHash(db, d, key) && key in d.hashes && HashExpiryAt(d, key) == HashExpiryAt(db, key)
            && (forall f :: f in FieldsAt(d, key) <==> f in fields || f in FieldsAt(db, key))
            && (forall f :: f in FieldsAt(d, key) ==>
                  FieldsAt(d, key)[f] == if f in fields then fields[f] else FieldsAt(db, key)[f])
  {
  }

  /** HSETNX adds a field that is not there and changes none that is. */
  lemma SeedsRead(db: Db, key: string, field: string, val: Val)
    ensures var d := Apply(db, HSetNX(key, field, val));
            && SameButHash(db, d, key) && HashExpiryAt(d, key) == HashExpiryAt(db, key)
            && (forall f :: f in FieldsAt(d, key) <==> f == field || f in FieldsAt(db, key))
            && (forall f :: f in FieldsAt(db, key) ==> FieldsAt(d, key)[f] == FieldsAt(db, key)[f])
            && (field !in FieldsAt(db, key) ==> FieldsAt(d, key)[field] == val)
  {
  }

  /** After an EXPIRE a Hash is there, whole, until its time to live has passed, and no longer. */
  lemma HashLives(db: Db, key: string, ttl: Time, t: Time)
    requires db.now <= t
    ensures var d := Apply(db, ExpireHash(key, ttl));
            && SameButHash(db, d, key)
            && (key in Advance(d, t).hashes <==> key in db.hashes && t < db.now + ttl)
            && (key in Advance(d, t).hashes ==> FieldsAt(Advance(d, t), key) == FieldsAt(db, key))
  {
  }

  /** And so is a ring. */
  lemma RingLives(db: Db, key: string, ttl: Time, t: Time)
    requires db.now <= t
    ensures var d := Apply(db, ExpireList(key, ttl));
            && SameHashes(db, d) && d.zset == db.zset
            && (key in Advance(d, t).lists <==> key in db.lists && t < db.now + ttl)
            && (key in Advance(d, t).lists ==> ItemsAt(Advance(d, t), key) == ItemsAt(db, key))
            && forall k :: k != key ==> ItemsAt(d, k) == ItemsAt(db, k) && ListExpiryAt(d, k) == ListExpiryAt(db, k)
  {
  }

  /** Nothing else goes with time, and nothing comes. */
  lemma Ages(db: Db, t: Time)
    ensures var d := Advance(db, t);
            && d.now == t && d.zset == db.zset
            && (forall k :: k in d.hashes ==> k in db.hashes && d.hashes[k] == db.hashes[k])
            && (forall k :: k in d.lists ==> k in db.lists && d.lists[k] == db.lists[k])
            && (forall k :: k in db.hashes && db.hashes[k].expiry.None? ==> k in d.hashes)
            && (forall k :: k in db.lists && db.lists[k].expiry.None? ==> k in d.lists)
  {
  }

  /** The score of a member after each of the four commands on the active set. */
  lemma ScoresRead(db: Db, c: Cmd, m: string)
    requires c.ZAdd? || c.ZAddXX? || c.ZRem? || c.ZRemRange?
    ensures var d := Apply(db, c);
            && SameHashes(db, d) && d.lists == db.lists
            && (c.ZAdd? ==> (m in d.zset <==> m in db.zset || m == c.member))
            && (c.ZAddXX? ==> (m in d.zset <==> m in db.zset))
            && (c.ZRem? ==> (m in d.zset <==> m in db.zset && m != c.member))
            && (c.ZRemRange? ==> (m in d.zset <==> m in db.zset && db.zset[m] > c.cutoff))
            && (m in d.zset ==>
                  d.zset[m] == if (c.ZAdd? && m == c.member) || (c.ZAddXX? && m in c.members) then c.score
                               else db.zset[m])
  {
  }

  /** A push and a trim to `size` of them leave the pushed item in front of the newest others. */
  lemma PushesRead(db: Db, key: string, item: Activity, size: int)
    requires size >= 1
    ensures var was, d := ItemsAt(db, key), Apply(Apply(db, LPush(key, item)), LTrim(key, size - 1));
            && SameHashes(db, d) && d.zset == db.zset && ListExpiryAt(d, key) == ListExpiryAt(db, key)
            && |ItemsAt(d, key)| == (if |was| + 1 < size then |was| + 1 else size)
            && ItemsAt(d, key)[0] == item
            && (forall i :: 0 < i < |ItemsAt(d, key)| ==> ItemsAt(d, key)[i] == was[i - 1])
            && forall k :: k != key ==> ItemsAt(d, k) == ItemsAt(db, k) && ListExpiryAt(d, k) == ListExpiryAt(db, k)
  {
    var pushed := Apply(db, LPush(key, item));
    assert ItemsAt(pushed, key) == [item] + ItemsAt(db, key);
  }

  /** Members listed once each, by ascending score. */
  ghost predicate ByScore(members: seq<string>, zset: map<string, Time>) {
    && (forall m :: m in members <==> m in zset)
    && (forall i, j :: 0 <= i < j < |members| ==> members[i] != members[j])
    && (forall i, j :: 0 <= i < j < |members| && members[i] in zset && members[j] in zset ==>
          zset[members[i]] <= zset[members[j]])
  }

  lemma {:induction false} LowestExists(rest: set<string>, zset: map<string, Time>)
    requires rest != {} && rest <= zset.Keys
    ensures exists m :: m in rest && forall x :: x in rest ==> zset[m] <= zset[x]
    decreases |rest|
  {
    var m :| m in rest;
    if rest - {m} != {} {
      LowestExists(rest - {m}, zset);
      var n :| n in rest - {m} && forall x :: x in rest - {m} ==> zset[n] <= zset[x];
      var best := if zset[m] <= zset[n] then m else n;
      assert forall x :: x in rest ==> x == m || x in rest - {m};
      assert best in rest && forall x :: x in rest ==> zset[best] <= zset[x];
    } else {
      assert rest == {m};
    }
  }

  class Client {
    var now: Time
    var hashes: map<string, Hash>
    var zset: map<string, Time>
    var lists: map<string, List>

    function Contents(): Db
      reads this
    {
      Db(now, hashes, zset, lists)
    }

    constructor ()
      ensures Contents() == Db(0.0, map[], map[], map[])
    {
      now, hashes, zset, lists := 0.0, map[], map[], map[];
    }

    /** One command, field by field. */
    method Do(c: Cmd)
      modifies this
      ensures Contents() == Apply(old(Contents()), c)
    {
      match c
      case HSet(key, fields) =>
        var h := if key in hashes then hashes[key] else Hash(map[], None);
        hashes := hashes[key := h.(fields := h.fields + fields)];
      case HSetNX(key, field, val) =>
        var h := if key in hashes then hashes[key] else Hash(map[], None);
        if field !in h.fields {
          hashes := hashes[key := h.(fields := h.fields[field := val])];
        }
      case ExpireHash(key, ttl) =>
        if key in hashes {
          hashes := if ttl <= 0.0 then hashes - {key} else hashes[key := hashes[key].(expiry := Some(now + ttl))];
        }
      case ZAdd(member, score) =>
        zset := zset[member := score];
      case ZAddXX(members, score) =>
        zset := map m | m in zset :: if m in members then score else zset[m];
      case ZRem(member) =>
        zset := zset - {member};
      case ZRemRange(cutoff) =>
        zset := map m | m in zset && cutoff < zset[m] :: zset[m];
      case LPush(key, item) =>
        var l := if key in lists then lists[key] else List([], None);
        lists := lists[key := l.(items := [item] + l.items)];
      case LTrim(key, stop) =>
        if key in lists {
          var kept := Upto(lists[key].items, stop);
          lists := if kept == [] then lists - {key} else lists[key := lists[key].(items := kept)];
        }
      case ExpireList(key, ttl) =>
        if key in lists {
          lists := if ttl <= 0.0 then lists - {key} else lists[key := lists[key].(expiry := Some(now + ttl))];
        }
    }

    /** A pipeline: every queued command in order. */
    method Exec(pipe: seq<Cmd>)
      modifies this
      ensures Contents() == Run(old(Contents()), pipe)
    {
      for i := 0 to |pipe|
        invariant Run(Contents(), pipe[i..]) == Run(old(Contents()), pipe)
      {
        Do(pipe[i]);
        assert pipe[i..][1..] == pipe[i + 1..];
      }
    }

    method Exists(key: string) returns (n: nat)
      ensures n > 0 <==> key in hashes
    {
      n := if key in hashes then 1 else 0;
    }

    method HGetAll(key: string) returns (fields: map<string, Val>)
      ensures fields == FieldsAt(Contents(), key)
    {
      fields := if key in hashes then hashes[key].fields else map[];
    }

    method LRange(key: string, stop: int) returns (items: seq<Activity>)
      ensures items == Upto(ItemsAt(Contents(), key), stop)
    {
      items := Upto(if key in lists then lists[key].items else [], stop);
    }

    method ZRange() returns (members: seq<string>)
      ensures ByScore(members, zset)
    {
      members := [];
      var rest := zset.Keys;
      while rest != {}
        invariant rest <= zset.Keys
        invariant forall m :: m in members <==> m in zset && m !in rest
        invariant forall i, j :: 0 <= i < j < |members| ==> members[i] != members[j]
        invariant forall i, j :: 0 <= i < j < |members| ==> zset[members[i]] <= zset[members[j]]
        invariant forall m, x :: m in members && x in rest ==> zset[m] <= zset[x]
        decreases |rest|
      {
        LowestExists(rest, zset);
        var m :| m in rest && forall x :: x in rest ==> zset[m] <= zset[x];
        members := members + [m];
        rest := rest - {m};
      }
    }
  }
}
