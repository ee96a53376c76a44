/** Installing and removing the mesh's hook entries in settings.json, on decoded JSON. */
module Hooks {
  import opened Wrappers

  const HOOK_MARKER_PREFIX := "claude-mesh-"

  /** Numbers and booleans are atoms, told apart by their text. */
  datatype Json =
    | Null
    | Atom(text: string)
    | Str(text: string)
    | Arr(items: seq<Json>)
    | Obj(fields: map<string, Json>)

  datatype File = Missing | Garbled | Parsed(value: Json)

  /** What a command leaves: a rewritten file, an untouched file, an error, or a crash on
      writing into a map that decoding left nil. */
  datatype Outcome = Written(value: Json) | Untouched | Failed | Panicked

  /** The joined paths of the three hook scripts. */
  datatype Scripts = Scripts(sessionStart: string, preToolUse: string, stop: string)

  predicate ContainsAt(s: string, sub: string, i: nat) {
    i + |sub| <= |s| && s[i..i + |sub|] == sub
  }

  predicate Contains(s: string, sub: string) {
    exists i | 0 <= i <= |s| :: ContainsAt(s, sub, i)
  }

  /** The marker occurs in the text of the value. It has no character JSON gives a meaning to,
      so it can only occur inside one string, a key or a value. */
  predicate Mentions(j: Json) {
    match j
    case Null => false
    case Atom(text) => Contains(text, HOOK_MARKER_PREFIX)
    case Str(text) => Contains(text, HOOK_MARKER_PREFIX)
    case Arr(items) => exists i | 0 <= i < |items| :: Mentions(items[i])
    case Obj(fields) => exists k | k in fields :: Contains(k, HOOK_MARKER_PREFIX) || Mentions(fields[k])
  }

  type HookMap = map<string, Json>

  function HookEntry(matcher: string, script: string, name: string): Json {
    Obj(map["matcher" := Str(matcher),
            "hooks" := Arr([Obj(map["type" := Str("command"), "command" := Str("bash " + script),
              "name" := Str(name)])])])
  }

  /** The mesh's three events, each with the entry it installs. */
  function BuildHookEntries(s: Scripts): HookMap {
    map["SessionStart" := HookEntry("startup|clear", s.sessionStart, HOOK_MARKER_PREFIX + "session-start"),
        "PreToolUse" := HookEntry("", s.preToolUse, HOOK_MARKER_PREFIX + "pre-tool-use"),
        "Stop" := HookEntry("", s.stop, HOOK_MARKER_PREFIX + "stop")]
  }

  /** Every entry carries the marker by which it is found again. */
  ghost predicate Marked(entries: HookMap) {
    forall e :: e in entries ==> Mentions(entries[e])
  }

  lemma HookEntryMentions(matcher: string, script: string, suffix: string)
    ensures Mentions(HookEntry(matcher, script, HOOK_MARKER_PREFIX + suffix))
  {
    var name := HOOK_MARKER_PREFIX + suffix;
    assert ContainsAt(name, HOOK_MARKER_PREFIX, 0);
    var hooks := HookEntry(matcher, script, name).fields["hooks"];
    var hook := hooks.items[0];
    assert hook.fields["name"] == Str(name) && Mentions(hook.fields["name"]);
    assert Mentions(hook);
    assert Mentions(hooks);
  }

  lemma BuiltEntriesMarked(s: Scripts)
    ensures Marked(BuildHookEntries(s))
    ensures BuildHookEntries(s).Keys == {"SessionStart", "PreToolUse", "Stop"}
  {
    HookEntryMentions("startup|clear", s.sessionStart, "session-start");
    HookEntryMentions("", s.preToolUse, "pre-tool-use");
    HookEntryMentions("", s.stop, "stop");
  }

  predicate AlreadyPresent(hooks: HookMap, event: string) {
    event in hooks && Mentions(hooks[event])
  }

  /** An array gains the entry at its end; null counts as no array yet, and any other
      value is kept as the entry in front. */
  function Merge(existing: Option<Json>, entry: Json): Json {
    match existing
    case None => Arr([entry])
    case Some(Null) => Arr([entry])
    case Some(Arr(items)) => Arr(items + [entry])
    case Some(v) => Arr([v, entry])
  }

  function Lookup(hooks: HookMap, event: string): Option<Json> {
    if event in hooks then Some(hooks[event]) else None
  }

  function PatchOne(existing: Option<Json>, entry: Json): Json {
    if existing.Some? && Mentions(existing.value) then existing.value else Merge(existing, entry)
  }

  function PatchEvents(hooks: HookMap, entries: HookMap): HookMap {
    map e | e in hooks.Keys + entries.Keys ::
      if e in entries then PatchOne(Lookup(hooks, e), entries[e]) else hooks[e]
  }

  function Unmarked(items: seq<Json>): seq<Json> {
    if items == [] then []
    else Unmarked(items[..|items| - 1]) + if Mentions(items[|items| - 1]) then [] else [items[|items| - 1]]
  }

  function RemoveOne(v: Json): Json {
    match v
    case Null => Arr([])
    case Arr(items) => Arr(Unmarked(items))
    case _ => v
  }

  function RemoveAll(hooks: HookMap): HookMap {
    map e | e in hooks :: RemoveOne(hooks[e])
  }

  /** The hooks map the installer starts from: none when decoding leaves it nil, and empty
      when there is no map to decode. */
  function HooksOf(settings: HookMap): Option<HookMap> {
    if "hooks" !in settings then Some(map[])
    else match settings["hooks"]
      case Obj(h) => Some(h)
      case Null => None
      case _ => Some(map[])
  }

  function SetHooks(settings: HookMap, hooks: Json): Json {
    Obj(settings["hooks" := hooks])
  }

  function Patch(file: File, entries: HookMap): Outcome {
    match file
    case Missing => Written(SetHooks(map[], Obj(PatchEvents(map[], entries))))
    case Garbled => Failed
    case Parsed(Null) => Panicked
    case Parsed(Obj(settings)) =>
      var hooks := HooksOf(settings);
      if hooks.None? then Panicked else Written(SetHooks(settings, Obj(PatchEvents(hooks.value, entries))))
    case Parsed(_) => Failed
  }

  function Remove(file: File): Outcome {
    match file
    case Missing => Untouched
    case Garbled => Failed
    case Parsed(Null) => Panicked
    case Parsed(Obj(settings)) =>
      var hooks := HooksOf(settings);
      Written(SetHooks(settings, if hooks.None? then Null else Obj(RemoveAll(hooks.value))))
    case Parsed(_) => Failed
  }

  // ---- the commands as they run ----

  method RemoveEntries(v: Json) returns (r: Json)
    ensures r == RemoveOne(v)
  {
    if v.Null? {
      return Arr([]);
    }
    if !v.Arr? {
      return v;
    }
    var kept := [];
    for i := 0 to |v.items|
      invariant kept == Unmarked(v.items[..i])
    {
      assert v.items[..i + 1][..i] == v.items[..i];
      if !Mentions(v.items[i]) {
        kept := kept + [v.items[i]];
      }
    }
    assert v.items[..|v.items|] == v.items;
    r := Arr(kept);
  }

  /** The events are visited in no particular order. */
  method PatchSettings(file: File, s: Scripts) returns (o: Outcome)
    ensures o == Patch(file, BuildHookEntries(s))
  {
    var settings: HookMap;
    match file {
      case Missing => settings := map[];
      case Garbled => return Failed;
      case Parsed(Null) => return Panicked;
      case Parsed(Obj(fields)) => settings := fields;
      case Parsed(_) => return Failed;
    }
    var hooks := HooksOf(settings);
    if hooks.None? {
      return Panicked;
    }
    var existing := AddEntries(hooks.value, BuildHookEntries(s));
    o := Written(SetHooks(settings, Obj(existing)));
  }

  method AddEntries(hooks: HookMap, newEntries: HookMap) returns (existing: HookMap)
    ensures existing == PatchEvents(hooks, newEntries)
  {
    existing := hooks;
    var todo := newEntries.Keys;
    assert newEntries - todo == map[] && PatchEvents(hooks, map[]) == hooks;
    while todo != {}
      invariant todo <= newEntries.Keys
      invariant existing == PatchEvents(hooks, newEntries - todo)
      decreases |todo|
    {
      var event :| event in todo;
      AddOne(hooks, newEntries, todo, event);
      if !AlreadyPresent(existing, event) {
        existing := existing[event := Merge(Lookup(existing, event), newEntries[event])];
      }
      todo := todo - {event};
    }
    assert newEntries - {} == newEntries;
  }

  lemma AddOne(hooks: HookMap, entries: HookMap, todo: set<string>, event: string)
    requires event in todo && todo <= entries.Keys
    ensures var before, after := PatchEvents(hooks, entries - todo), PatchEvents(hooks, entries - (todo - {event}));
            && Lookup(before, event) == Lookup(hooks, event)
            && (AlreadyPresent(before, event) ==> after == before)
            && (!AlreadyPresent(before, event) ==>
                  after == before[event := Merge(Lookup(before, event), entries[event])])
  {
    var before, after := PatchEvents(hooks, entries - todo), PatchEvents(hooks, entries - (todo - {event}));
    assert Lookup(before, event) == Lookup(hooks, event);
    var v := PatchOne(Lookup(hooks, event), entries[event]);
    assert after == before[event := v];
  }

  method RemoveHooks(file: File) returns (o: Outcome)
    ensures o == Remove(file)
  {
    var settings: HookMap;
    match file {
      case Missing => return Untouched;
      case Garbled => return Failed;
      case Parsed(Null) => return Panicked;
      case Parsed(Obj(fields)) => settings := fields;
      case Parsed(_) => return Failed;
    }
    var hooks := HooksOf(settings);
    if hooks.None? {
      return Written(SetHooks(settings, Null));
    }
    var existing := hooks.value;
    var todo := existing.Keys;
    while todo != {}
      invariant todo <= hooks.value.Keys && existing.Keys == hooks.value.Keys
      invariant forall e :: e in existing ==> existing[e] == if e in todo then hooks.value[e]
                else RemoveOne(hooks.value[e])
      decreases |todo|
    {
      var event :| event in todo;
      var filtered := RemoveEntries(existing[event]);
      existing := existing[event := filtered];
      todo := todo - {event};
    }
    assert existing == RemoveAll(hooks.value);
    o := Written(SetHooks(settings, Obj(existing)));
  }

  // ---- what they promise ----

  lemma PatchOneMentions(existing: Option<Json>, entry: Json)
    requires Mentions(entry)
    ensures Mentions(PatchOne(existing, entry))
  {
    if !(existing.Some? && Mentions(existing.value)) {
      var items := Merge(existing, entry).items;
      assert Mentions(items[|items| - 1]);
    }
  }

  lemma PatchEventsTwice(hooks: HookMap, entries: HookMap)
    requires Marked(entries)
    ensures PatchEvents(PatchEvents(hooks, entries), entries) == PatchEvents(hooks, entries)
  {
    forall e | e in entries
      ensures Mentions(PatchEvents(hooks, entries)[e])
    {
      PatchOneMentions(Lookup(hooks, e), entries[e]);
    }
  }

  lemma SetHooksTwice(settings: HookMap, a: Json, b: Json)
    ensures SetHooks(SetHooks(settings, a).fields, b) == SetHooks(settings, b)
    ensures SetHooks(settings, a) == SetHooks(settings, b) <==> a == b
    ensures a.Obj? ==> HooksOf(SetHooks(settings, a).fields) == Some(a.fields)
  {
    assert SetHooks(settings, a).fields["hooks"] == a && SetHooks(settings, b).fields["hooks"] == b;
  }

  /** Patching is idempotent: whatever file a patch produced, a second patch leaves it. */
  lemma PatchIdempotent(file: File, entries: HookMap)
    requires Marked(entries)
    ensures Patch(file, entries).Written? ==>
              Patch(Parsed(Patch(file, entries).value), entries) == Patch(file, entries)
  {
    if Patch(file, entries).Written? {
      var settings := if file.Missing? then map[] else file.value.fields;
      var hooks := if file.Missing? then map[] else HooksOf(settings).value;
      PatchEventsTwice(hooks, entries);
      SetHooksTwice(settings, Obj(PatchEvents(hooks, entries)), Obj(PatchEvents(hooks, entries)));
    }
  }

  // ---- what a patch installs ----

  lemma FreshHooks(entries: HookMap)
    ensures Patch(Missing, entries) == Written(Obj(map["hooks" := Obj(map e | e in entries :: Arr([entries[e]]))]))
  {
    assert PatchEvents(map[], entries) == map e | e in entries :: Arr([entries[e]]);
  }

  lemma BuiltEntry(s: Scripts, event: string, matcher: string, command: string, name: string)
    requires (event, matcher, command, name) in {
               ("SessionStart", "startup|clear", "bash " + s.sessionStart, "claude-mesh-session-start"),
               ("PreToolUse", "", "bash " + s.preToolUse, "claude-mesh-pre-tool-use"),
               ("Stop", "", "bash " + s.stop, "claude-mesh-stop")}
    ensures BuildHookEntries(s).Keys == {"SessionStart", "PreToolUse", "Stop"}
    ensures BuildHookEntries(s)[event] == Obj(map[
              "matcher" := Str(matcher),
              "hooks" := Arr([Obj(map["type" := Str("command"), "command" := Str(command), "name" := Str(name)])])])
  {
    assert |"SessionStart"| == 12 && |"PreToolUse"| == 10 && |"Stop"| == 4;
    if event == "SessionStart" {
      assert HOOK_MARKER_PREFIX + "session-start" == "claude-mesh-session-start";
    } else if event == "PreToolUse" {
      assert HOOK_MARKER_PREFIX + "pre-tool-use" == "claude-mesh-pre-tool-use";
    } else {
      assert HOOK_MARKER_PREFIX + "stop" == "claude-mesh-stop";
    }
  }

  /** On a missing file a patch writes three entries, each under its event in an array of its own,
      and nothing else: what the entry matches, and one command with its script and its name. */
  lemma FreshInstall(s: Scripts, event: string, matcher: string, command: string, name: string)
    requires (event, matcher, command, name) in {
               ("SessionStart", "startup|clear", "bash " + s.sessionStart, "claude-mesh-session-start"),
               ("PreToolUse", "", "bash " + s.preToolUse, "claude-mesh-pre-tool-use"),
               ("Stop", "", "bash " + s.stop, "claude-mesh-stop")}
    ensures var o := Patch(Missing, BuildHookEntries(s));
            && o.Written? && o.value.Obj? && o.value.fields.Keys == {"hooks"} && o.value.fields["hooks"].Obj?
            && var hooks := o.value.fields["hooks"].fields;
               && hooks.Keys == {"SessionStart", "PreToolUse", "Stop"}
               && hooks[event] == Arr([Obj(map[
                    "matcher" := Str(matcher),
                    "hooks" := Arr([Obj(map["type" := Str("command"), "command" := Str(command), "name" := Str(name)])])
                  ])])
  {
    FreshHooks(BuildHookEntries(s));
    BuiltEntry(s, event, matcher, command, name);
  }

  lemma PatchedAt(hooks: HookMap, entries: HookMap, event: string)
    requires event in entries
    ensures event in PatchEvents(hooks, entries)
    ensures var v := PatchEvents(hooks, entries)[event];
            if event in hooks && Mentions(hooks[event]) then v == hooks[event]
            else v.Arr? && v.items != [] && v.items[|v.items| - 1] == entries[event]
  {
    assert PatchEvents(hooks, entries)[event] == PatchOne(Lookup(hooks, event), entries[event]);
  }

  /** On any file it leaves, under each of the three events, what mentioned the marker before, or
      else an array that ends with the event's entry. */
  lemma InstallsEach(settings: HookMap, entries: HookMap, event: string)
    requires HooksOf(settings).Some? && event in entries
    ensures var was, o := HooksOf(settings).value, Patch(Parsed(Obj(settings)), entries);
            && o.Written? && event in o.value.fields["hooks"].fields
            && var v := o.value.fields["hooks"].fields[event];
               if event in was && Mentions(was[event]) then v == was[event]
               else v.Arr? && v.items != [] && v.items[|v.items| - 1] == entries[event]
  {
    var hooks := HooksOf(settings).value;
    Rewritten(settings, entries);
    SetHooksTwice(settings, Obj(PatchEvents(hooks, entries)), Null);
    PatchedAt(hooks, entries, event);
  }

  // ---- what a patch keeps ----

  /** As it was, or an array with more at its end. */
  predicate Extended(was: Json, now: Json) {
    now == was || (was.Arr? && now.Arr? && was.items <= now.items)
  }

  predicate HooksStillThere(was: Json, now: Json) {
    was.Obj? && now.Obj? && forall e :: e in was.fields ==> e in now.fields && Extended(was.fields[e], now.fields[e])
  }

  /** The patch has been written, and whatever hooks there were are still in it. */
  predicate Keeps(file: File, o: Outcome) {
    && o.Written? && o.value.Obj? && "hooks" in o.value.fields
    && (file.Parsed? ==>
          && file.value.Obj?
          && (forall k :: k in file.value.fields && k != "hooks" ==>
                k in o.value.fields && o.value.fields[k] == file.value.fields[k])
          && ("hooks" in file.value.fields ==> HooksStillThere(file.value.fields["hooks"], o.value.fields["hooks"])))
  }

  /** An array, or a value with the marker in it already. */
  predicate Extendable(v: Json) {
    v.Arr? || Mentions(v)
  }

  /** No file, or one with no hooks, or with an object of hooks in which whatever stands under a
      mesh event can be extended. */
  predicate Patchable(file: File, entries: HookMap) {
    match file
    case Missing => true
    case Garbled => false
    case Parsed(v) =>
      && v.Obj?
      && ("hooks" in v.fields ==>
            && v.fields["hooks"].Obj?
            && forall e :: e in entries && e in v.fields["hooks"].fields ==> Extendable(v.fields["hooks"].fields[e]))
  }

  lemma PatchOneExtends(v: Json, entry: Json)
    ensures Extended(v, PatchOne(Some(v), entry)) <==> Extendable(v)
  {
    if v.Arr? && !Mentions(v) {
      assert v.items <= v.items + [entry];
    } else if !Mentions(v) {
      assert PatchOne(Some(v), entry).Arr?;
    }
  }

  lemma PatchEventsKeep(hooks: HookMap, entries: HookMap)
    ensures HooksStillThere(Obj(hooks), Obj(PatchEvents(hooks, entries))) <==>
            forall e :: e in entries && e in hooks ==> Extendable(hooks[e])
  {
    var after := PatchEvents(hooks, entries);
    forall e | e in hooks
      ensures e in after && (Extended(hooks[e], after[e]) <==> (e in entries ==> Extendable(hooks[e])))
    {
      if e in entries {
        PatchOneExtends(hooks[e], entries[e]);
      }
    }
    if HooksStillThere(Obj(hooks), Obj(after)) {
      forall e | e in entries && e in hooks
        ensures Extendable(hooks[e])
      {
        assert e in Obj(hooks).fields && Extended(hooks[e], after[e]);
      }
    }
  }

  /** A patch never modifies other hooks: exactly for the files in which it has only arrays to
      extend. */
  lemma PatchKeepsIff(file: File, entries: HookMap)
    ensures Keeps(file, Patch(file, entries)) <==> Patchable(file, entries)
  {
    if file.Parsed? && file.value.Obj? {
      var settings := file.value.fields;
      if HooksOf(settings).Some? {
        PatchEventsKeep(HooksOf(settings).value, entries);
        SetHooksTwice(settings, Obj(PatchEvents(HooksOf(settings).value, entries)), Null);
      }
    }
  }

  /** It panics exactly on a file, or on hooks, that decoding leaves nil. */
  lemma PatchPanicsIff(file: File, entries: HookMap)
    ensures Patch(file, entries).Panicked? <==>
            file.Parsed? && (file.value.Null?
              || (file.value.Obj? && "hooks" in file.value.fields && file.value.fields["hooks"].Null?))
  {
  }

  /** A file for which the promise fails: somebody's single hook under a mesh event is wrapped
      into an array, null is replaced, and hooks that are no object are lost. */
  lemma PatchCanModify(entries: HookMap, other: string, event: string)
    requires event in entries && !Contains(other, HOOK_MARKER_PREFIX)
    ensures var patched := Patch(Parsed(Obj(map["hooks" := Obj(map[event := Str(other)])])), entries);
            patched.Written? && patched.value.fields["hooks"].fields[event] == Arr([Str(other), entries[event]])
    ensures var patched := Patch(Parsed(Obj(map["hooks" := Obj(map[event := Null])])), entries);
            patched.Written? && patched.value.fields["hooks"].fields[event] == Arr([entries[event]])
    ensures var patched := Patch(Parsed(Obj(map["hooks" := Arr([Str(other)])])), entries);
            patched.Written? && patched.value.fields["hooks"] == Obj(PatchEvents(map[], entries))
  {
    var a, b := map[event := Str(other)], map[event := Null];
    assert PatchEvents(a, entries)[event] == PatchOne(Some(Str(other)), entries[event]);
    assert PatchEvents(b, entries)[event] == PatchOne(Some(Null), entries[event]);
  }

  lemma {:induction false} UnmarkedAll(items: seq<Json>)
    ensures (forall i :: 0 <= i < |items| ==> !Mentions(items[i])) <==> Unmarked(items) == items
    ensures |Unmarked(items)| <= |items|
  {
    if items != [] {
      var front, last := items[..|items| - 1], items[|items| - 1];
      UnmarkedAll(front);
      assert items == front + [last];
      if Mentions(last) {
        assert |Unmarked(items)| < |items|;
      } else if Unmarked(items) == items {
        assert Unmarked(items)[..|items| - 1] == Unmarked(front) == front;
      }
    }
  }

  /** Removal is item by item, in order. */
  lemma {:induction false} UnmarkedConcat(a: seq<Json>, b: seq<Json>)
    ensures Unmarked(a + b) == Unmarked(a) + Unmarked(b)
    decreases |b|
  {
    if b == [] {
      assert a + b == a;
    } else {
      var front, last := b[..|b| - 1], b[|b| - 1];
      UnmarkedConcat(a, front);
      assert (a + b)[..|a + b| - 1] == a + front && (a + b)[|a + b| - 1] == last;
    }
  }

  lemma UnmarkedAround(before: seq<Json>, entry: Json, after: seq<Json>)
    ensures Unmarked(before + [entry] + after) ==
            Unmarked(before) + (if Mentions(entry) then [] else [entry]) + Unmarked(after)
  {
    UnmarkedConcat(before + [entry], after);
    UnmarkedSnoc(before, entry);
  }

  lemma RemoveOneArray(items: seq<Json>)
    ensures RemoveOne(Arr(items)) == Arr(Unmarked(items))
  {
  }

  /** Exactly the entries that mention the marker go. */
  lemma RemoveOneBy(before: seq<Json>, entry: Json, after: seq<Json>)
    ensures RemoveOne(Arr(before)).Arr? && RemoveOne(Arr(after)).Arr?
    ensures RemoveOne(Arr(before + [entry] + after)) ==
            Arr(RemoveOne(Arr(before)).items + (if Mentions(entry) then [] else [entry]) + RemoveOne(Arr(after)).items)
  {
    UnmarkedAround(before, entry, after);
    RemoveOneArray(before);
    RemoveOneArray(after);
    RemoveOneArray(before + [entry] + after);
  }

  /** What is no array stays, but null becomes an empty one. */
  lemma RemoveOneOther(v: Json)
    ensures RemoveOne(Arr([])) == RemoveOne(Null) == Arr([])
    ensures !v.Arr? && !v.Null? ==> RemoveOne(v) == v
  {
  }

  /** What the marker is, and where it counts: anywhere in a string, a key or a value. */
  lemma MentionsBy(a: string, b: string, k: string, v: Json, fields: HookMap, items: seq<Json>)
    ensures Mentions(Str(a + "claude-mesh-" + b))
    ensures k in fields && (Mentions(Str(k)) || Mentions(fields[k])) ==> Mentions(Obj(fields))
    ensures v in items && Mentions(v) ==> Mentions(Arr(items))
    ensures |a| < 12 ==> !Mentions(Str(a))
    ensures !Mentions(Null) && !Mentions(Arr([])) && !Mentions(Obj(map[]))
  {
    var s := a + "claude-mesh-" + b;
    assert ContainsAt(s, HOOK_MARKER_PREFIX, |a|);
    if v in items && Mentions(v) {
      var i :| 0 <= i < |items| && items[i] == v;
      assert Mentions(Arr(items).items[i]);
    }
  }

  /** With `hooks` null in the file, null is what a remove writes back. */
  lemma RemoveFromNull(settings: HookMap)
    requires "hooks" in settings && settings["hooks"].Null?
    ensures Remove(Parsed(Obj(settings))) == Written(Obj(settings))
  {
    assert settings["hooks" := Null] == settings;
  }

  lemma UnmarkedSnoc(items: seq<Json>, entry: Json)
    ensures Unmarked(items + [entry]) == Unmarked(items) + if Mentions(entry) then [] else [entry]
  {
    assert (items + [entry])[..|items|] == items;
  }

  /** Whether patch and then remove give back an event's value: an array nobody marked, or for
      an event not the mesh's own also a single value; a marked single value is left alone. */
  predicate RoundTrips(own: bool, v: Json) {
    match v
    case Null => false
    case Arr(_) => !Mentions(v)
    case _ => !own || Mentions(v)
  }

  lemma RoundTripOne(v: Json, entry: Json)
    requires Mentions(entry)
    ensures RemoveOne(PatchOne(Some(v), entry)) == v <==> RoundTrips(true, v)
    ensures RemoveOne(PatchOne(None, entry)) == Arr([])
  {
    UnmarkedSnoc([], entry);
    assert [] + [entry] == [entry];
    if v.Arr? {
      ArrayRoundTrips(v.items, entry);
    }
  }

  lemma ArrayRoundTrips(items: seq<Json>, entry: Json)
    requires Mentions(entry)
    ensures RemoveOne(PatchOne(Some(Arr(items)), entry)) == Arr(items) <==> !Mentions(Arr(items))
  {
    UnmarkedAll(items);
    UnmarkedSnoc(items, entry);
    assert Arr(items).items == items;
    if Mentions(Arr(items)) {
      assert PatchOne(Some(Arr(items)), entry) == Arr(items);
    } else {
      assert PatchOne(Some(Arr(items)), entry) == Arr(items + [entry]);
    }
  }

  lemma BackOne(hooks: HookMap, entries: HookMap, e: string)
    requires Marked(entries) && e in hooks.Keys + entries.Keys
    ensures e in RemoveAll(PatchEvents(hooks, entries))
    ensures var back := RemoveAll(PatchEvents(hooks, entries));
            if e in hooks then back[e] == hooks[e] <==> RoundTrips(e in entries, hooks[e]) else back[e] == Arr([])
  {
    if e in entries {
      RoundTripOne(if e in hooks then hooks[e] else Null, entries[e]);
    } else {
      RemoveOneIff(hooks[e]);
    }
  }

  /** Remove after patch: every event of the settings is back exactly when it round-trips, in
      particular every array without a marker; the only additions are empty arrays for the
      mesh's own events, and nothing outside `hooks` changes. */
  lemma RemoveUndoesPatch(settings: HookMap, entries: HookMap)
    requires Marked(entries) && HooksOf(settings).Some?
    ensures var hooks, patched := HooksOf(settings).value, Patch(Parsed(Obj(settings)), entries);
            && patched.Written?
            && exists back: HookMap ::
                 && Remove(Parsed(patched.value)) == Written(SetHooks(settings, Obj(back)))
                 && back.Keys == hooks.Keys + entries.Keys
                 && (forall e :: e in entries && e !in hooks ==> back[e] == Arr([]))
                 && (forall e :: e in hooks ==> (back[e] == hooks[e] <==> RoundTrips(e in entries, hooks[e])))
  {
    var hooks := HooksOf(settings).value;
    var back := RemovedAfterPatch(settings, entries);
    forall e | e in hooks.Keys + entries.Keys
      ensures if e in hooks then back[e] == hooks[e] <==> RoundTrips(e in entries, hooks[e]) else back[e] == Arr([])
    {
      BackOne(hooks, entries, e);
    }
  }

  lemma RemovedAfterPatch(settings: HookMap, entries: HookMap) returns (back: HookMap)
    requires HooksOf(settings).Some?
    ensures var hooks, patched := HooksOf(settings).value, Patch(Parsed(Obj(settings)), entries);
            && back == RemoveAll(PatchEvents(hooks, entries)) && back.Keys == hooks.Keys + entries.Keys
            && patched.Written? && Remove(Parsed(patched.value)) == Written(SetHooks(settings, Obj(back)))
  {
    var patched := PatchEvents(HooksOf(settings).value, entries);
    back := RemoveAll(patched);
    SetHooksTwice(settings, Obj(patched), Obj(back));
    Rewritten(settings, entries);
    Rewritten(SetHooks(settings, Obj(patched)).fields, entries);
  }

  /** Whether removing and patching again gives back a patched event: nobody's marked entries
      but the mesh's own current one, at the end. */
  predicate SettlesOwn(v: Json, entry: Json) {
    v.Arr? && Mentions(v) ==>
      v.items != [] && v.items[|v.items| - 1] == entry && !Mentions(Arr(v.items[..|v.items| - 1]))
  }

  predicate Settles(entries: HookMap, event: string, v: Json) {
    if event in entries then SettlesOwn(v, entries[event]) else RoundTrips(false, v)
  }

  lemma SettleOne(existing: Option<Json>, entry: Json)
    requires Mentions(entry)
    ensures var patched := PatchOne(existing, entry);
            PatchOne(Some(RemoveOne(patched)), entry) == patched <==>
            (existing.Some? ==> SettlesOwn(existing.value, entry))
  {
    if existing.Some? && Mentions(existing.value) {
      SettleMarked(existing.value, entry);
    } else {
      SettleFresh(existing, entry);
    }
  }

  lemma SettleMarked(v: Json, entry: Json)
    requires Mentions(entry) && Mentions(v)
    ensures PatchOne(Some(RemoveOne(v)), entry) == v <==> SettlesOwn(v, entry)
  {
    if v.Arr? {
      UnmarkedNotMentioned(v.items);
      assert PatchOne(Some(Arr(Unmarked(v.items))), entry) == Arr(Unmarked(v.items) + [entry]);
      UnmarkedEndsWith(v.items, entry);
    }
  }

  lemma SettleFresh(existing: Option<Json>, entry: Json)
    requires Mentions(entry) && (existing.Some? ==> !Mentions(existing.value))
    ensures PatchOne(Some(RemoveOne(PatchOne(existing, entry))), entry) == PatchOne(existing, entry)
  {
    var front :=
      match existing
      case None => []
      case Some(Null) => []
      case Some(Arr(items)) => items
      case Some(v) => [v];
    assert PatchOne(existing, entry) == Arr(front + [entry]);
    assert forall i :: 0 <= i < |front| ==> !Mentions(front[i]);
    ArrayRestored(front, entry);
  }

  lemma ArrayRestored(front: seq<Json>, entry: Json)
    requires Mentions(entry) && forall i :: 0 <= i < |front| ==> !Mentions(front[i])
    ensures PatchOne(Some(RemoveOne(Arr(front + [entry]))), entry) == Arr(front + [entry])
  {
    UnmarkedSnoc(front, entry);
    UnmarkedAll(front);
    MentionsAny(front);
  }

  lemma MentionsAny(items: seq<Json>)
    ensures Mentions(Arr(items)) <==> exists i :: 0 <= i < |items| && Mentions(items[i])
  {
    assert Arr(items).items == items;
  }

  lemma {:induction false} UnmarkedNotMentioned(items: seq<Json>)
    ensures !Mentions(Arr(Unmarked(items)))
  {
    if items != [] {
      UnmarkedNotMentioned(items[..|items| - 1]);
      var front := Unmarked(items[..|items| - 1]);
      assert forall i :: 0 <= i < |front| ==> !Mentions(Arr(front).items[i]);
    }
  }

  lemma UnmarkedEndsWith(items: seq<Json>, entry: Json)
    requires Mentions(entry)
    ensures Unmarked(items) + [entry] == items <==>
            items != [] && items[|items| - 1] == entry && !Mentions(Arr(items[..|items| - 1]))
  {
    if items != [] {
      var front, last := items[..|items| - 1], items[|items| - 1];
      assert items == front + [last];
      UnmarkedAll(front);
      MentionsAny(front);
      if Unmarked(items) + [entry] == items {
        assert (Unmarked(items) + [entry])[|Unmarked(items)|] == entry;
        assert Unmarked(items) == (Unmarked(items) + [entry])[..|items| - 1] == front;
      }
    }
  }

  lemma ReinstallOne(hooks: HookMap, entries: HookMap, e: string)
    requires Marked(entries) && e in hooks.Keys + entries.Keys
    ensures var patched := PatchEvents(hooks, entries);
            PatchEvents(RemoveAll(patched), entries)[e] == patched[e] <==>
            (e in hooks ==> Settles(entries, e, hooks[e]))
  {
    if e in entries {
      SettleOne(Lookup(hooks, e), entries[e]);
    } else {
      RemoveOneIff(hooks[e]);
    }
  }

  lemma RemoveOneIff(v: Json)
    ensures RemoveOne(v) == v <==> RoundTrips(false, v)
  {
    if v.Arr? {
      UnmarkedAll(v.items);
      MentionsAny(v.items);
    }
  }

  lemma Rewritten(settings: HookMap, entries: HookMap)
    ensures HooksOf(settings).Some? ==>
              var hooks := HooksOf(settings).value;
              && Patch(Parsed(Obj(settings)), entries) == Written(SetHooks(settings, Obj(PatchEvents(hooks, entries))))
              && Remove(Parsed(Obj(settings))) == Written(SetHooks(settings, Obj(RemoveAll(hooks))))
  {
  }

  /** Patch, remove, patch is the same as one patch exactly when every event settles. */
  lemma ReinstallIff(settings: HookMap, entries: HookMap)
    requires Marked(entries) && HooksOf(settings).Some?
    ensures var hooks, patched := HooksOf(settings).value, Patch(Parsed(Obj(settings)), entries);
            && patched.Written? && Remove(Parsed(patched.value)).Written?
            && (Patch(Parsed(Remove(Parsed(patched.value)).value), entries) == patched <==>
                  forall e :: e in hooks ==> Settles(entries, e, hooks[e]))
  {
    var hooks := HooksOf(settings).value;
    var patched := PatchEvents(hooks, entries);
    var removed := RemoveAll(patched);
    var again := PatchEvents(removed, entries);
    SetHooksTwice(settings, Obj(patched), Obj(removed));
    SetHooksTwice(settings, Obj(removed), Obj(again));
    SetHooksTwice(settings, Obj(again), Obj(patched));
    Rewritten(settings, entries);
    Rewritten(SetHooks(settings, Obj(patched)).fields, entries);
    Rewritten(SetHooks(settings, Obj(removed)).fields, entries);
    EventwiseEqual(hooks, entries);
  }

  lemma EventwiseEqual(hooks: HookMap, entries: HookMap)
    requires Marked(entries)
    ensures var patched := PatchEvents(hooks, entries);
            PatchEvents(RemoveAll(patched), entries) == patched <==>
            forall e :: e in hooks ==> Settles(entries, e, hooks[e])
  {
    var patched := PatchEvents(hooks, entries);
    var again := PatchEvents(RemoveAll(patched), entries);
    if again == patched {
      forall e | e in hooks
        ensures Settles(entries, e, hooks[e])
      {
        ReinstallOne(hooks, entries, e);
      }
    }
    if forall e :: e in hooks ==> Settles(entries, e, hooks[e]) {
      KeysAgain(hooks, entries);
      forall e | e in patched
        ensures again[e] == patched[e]
      {
        ReinstallOne(hooks, entries, e);
      }
      assert again == patched;
    }
  }

  lemma KeysAgain(hooks: HookMap, entries: HookMap)
    ensures var patched := PatchEvents(hooks, entries);
            PatchEvents(RemoveAll(patched), entries).Keys == patched.Keys == hooks.Keys + entries.Keys
  {
  }
}
