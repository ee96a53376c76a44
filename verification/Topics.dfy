/** Session topics, their split into levels, and the wildcard subscription that
    selects them (MQTT 3.1.1, sections 4.7.1.2 and 4.7.1.3). */
module Topics {
  const SEPARATOR := '/'
  const SESSION_WILDCARD_TOPIC := UnderSession("+", "+")

  function Above(level: string, rest: string): string {
    level + [SEPARATOR] + rest
  }

  /** claude/mesh/session/{sid}/{event} */
  function UnderSession(sid: string, eventType: string): string {
    Above("claude", Above("mesh", Above("session", Above(sid, eventType))))
  }

  function BuildSessionTopic(sid: string, eventType: string): string {
    UnderSession(sid, eventType)
  }

  /** The levels of a topic: never empty, an empty topic is one empty level. */
  function Split(s: string): (parts: seq<string>)
    ensures |parts| >= 1
  {
    if s == "" then [""]
    else
      var rest := Split(s[1..]);
      if s[0] == SEPARATOR then [""] + rest else [[s[0]] + rest[0]] + rest[1..]
  }

  /** Whether a filter selects a topic, level by level. */
  predicate Matches(filter: seq<string>, topic: seq<string>) {
    if filter == [] then topic == []
    else if filter[0] == "#" then true
    else topic != [] && (filter[0] == "+" || filter[0] == topic[0]) && Matches(filter[1..], topic[1..])
  }

  /** The subscription selects the topic. */
  predicate Selected(topic: string) {
    Matches(Split(SESSION_WILDCARD_TOPIC), Split(topic))
  }

  const MAX_TOPIC_BYTES := 65535

  /** A topic name a message may be published under: neither empty nor too long, without
      wildcards and without U+0000 (MQTT 3.1.1, sections 3.3.2.1 and 4.7.3). */
  predicate Publishable(topic: string) {
    0 < |topic| <= MAX_TOPIC_BYTES && '+' !in topic && '#' !in topic && '\0' !in topic
  }

  predicate Delivered(topic: string) {
    Publishable(topic) && Selected(topic)
  }

  /** A level of a publishable topic. */
  predicate Plain(level: string) {
    SEPARATOR !in level && '+' !in level && '#' !in level && '\0' !in level
  }

  function Separators(s: string): nat {
    if s == "" then 0 else (if s[0] == SEPARATOR then 1 else 0) + Separators(s[1..])
  }

  lemma {:induction false} SplitCounts(s: string)
    ensures |Split(s)| == 1 + Separators(s)
    ensures Separators(s) == 0 <==> SEPARATOR !in s
  {
    if s != "" {
      SplitCounts(s[1..]);
      assert s == [s[0]] + s[1..];
    }
  }

  lemma {:induction false} SeparatorsConcat(a: string, b: string)
    ensures Separators(a + b) == Separators(a) + Separators(b)
  {
    if a == "" {
      assert a + b == b;
    } else {
      assert (a + b)[1..] == a[1..] + b;
      SeparatorsConcat(a[1..], b);
    }
  }

  /** A level is split off in front of the rest. */
  lemma {:induction false} SplitLevel(a: string, rest: string)
    requires SEPARATOR !in a
    ensures Split(a + [SEPARATOR] + rest) == [a] + Split(rest)
  {
    var s := a + [SEPARATOR] + rest;
    if a == "" {
      assert s[1..] == rest;
    } else {
      assert s[1..] == a[1..] + [SEPARATOR] + rest;
      SplitLevel(a[1..], rest);
      assert [s[0]] + a[1..] == a;
    }
  }

  lemma {:induction false} SplitPlain(a: string)
    requires SEPARATOR !in a
    ensures Split(a) == [a]
  {
    if a != "" {
      SplitPlain(a[1..]);
      assert [a[0]] + a[1..] == a;
    }
  }

  lemma SplitPrefix(sid: string, eventType: string)
    ensures Split(UnderSession(sid, eventType)) == ["claude", "mesh", "session"] + Split(Above(sid, eventType))
  {
    var rest := Above(sid, eventType);
    SplitLevel("session", rest);
    SplitLevel("mesh", Above("session", rest));
    SplitLevel("claude", Above("mesh", Above("session", rest)));
  }

  lemma WildcardLevels()
    ensures Split(SESSION_WILDCARD_TOPIC) == ["claude", "mesh", "session", "+", "+"]
  {
    SplitPrefix("+", "+");
    SplitLevel("+", "+");
    SplitPlain("+");
  }

  lemma {:induction false} MatchesPointwise(filter: seq<string>, topic: seq<string>)
    requires "#" !in filter
    ensures Matches(filter, topic) <==>
            |filter| == |topic| && forall i :: 0 <= i < |filter| ==> filter[i] == "+" || filter[i] == topic[i]
  {
    if filter != [] && topic != [] {
      assert filter == [filter[0]] + filter[1..] && topic == [topic[0]] + topic[1..];
      MatchesPointwise(filter[1..], topic[1..]);
    }
  }

  lemma LevelsDiffer()
    ensures "claude" != "+" && "mesh" != "+" && "session" != "+"
    ensures "#" !in ["claude", "mesh", "session", "+", "+"]
  {
    assert |"claude"| == 6 && |"mesh"| == 4 && |"session"| == 7 && |"+"| == |"#"| == 1;
    assert "+"[0] != "#"[0];
  }

  /** The subscription selects exactly the five-level topics under the session prefix,
      so a delivered topic always passes the bridge's length check. */
  lemma SelectedIff(topic: string)
    ensures Selected(topic) <==> |Split(topic)| == 5 && Split(topic)[..3] == ["claude", "mesh", "session"]
  {
    WildcardLevels();
    LevelsDiffer();
    MatchesPointwise(["claude", "mesh", "session", "+", "+"], Split(topic));
  }

  /** A topic for a session is selected exactly when neither the session id nor the event type
      contains a separator, and then the bridge reads both back. */
  lemma SelectionIff(sid: string, eventType: string)
    ensures Selected(BuildSessionTopic(sid, eventType)) <==> SEPARATOR !in sid && SEPARATOR !in eventType
    ensures SEPARATOR !in sid && SEPARATOR !in eventType ==>
              Split(BuildSessionTopic(sid, eventType)) == ["claude", "mesh", "session", sid, eventType]
  {
    SplitPrefix(sid, eventType);
    SelectedIff(BuildSessionTopic(sid, eventType));
    SplitCounts(Above(sid, eventType));
    SplitCounts(sid);
    SplitCounts(eventType);
    SeparatorsConcat(sid + [SEPARATOR], eventType);
    SeparatorsConcat(sid, [SEPARATOR]);
    assert Separators([SEPARATOR]) == 1;
    if SEPARATOR !in sid && SEPARATOR !in eventType {
      SplitLevel(sid, eventType);
      SplitPlain(eventType);
    }
  }

  const SESSION_PREFIX := "claude/mesh/session/"

  lemma BuiltFrom(sid: string, eventType: string)
    ensures BuildSessionTopic(sid, eventType) == SESSION_PREFIX + (sid + ([SEPARATOR] + eventType))
    ensures |SESSION_PREFIX| == 20 && '+' !in SESSION_PREFIX && '#' !in SESSION_PREFIX && '\0' !in SESSION_PREFIX
  {
  }

  lemma InParts(c: char, a: string, b: string, d: string, e: string)
    ensures c in a + (b + (d + e)) <==> c in a || c in b || c in d || c in e
  {
  }

  /** A topic built for a session can be published exactly when neither part has a wildcard or
      U+0000 in it and the two together are not too long: what all these topics have in common
      takes 21 bytes. */
  lemma PublishableIff(sid: string, eventType: string)
    ensures Publishable(BuildSessionTopic(sid, eventType)) <==>
            && '+' !in sid && '#' !in sid && '\0' !in sid && '+' !in eventType && '#' !in eventType
              && '\0' !in eventType
            && |sid| + |eventType| <= 65535 - 21
  {
    BuiltFrom(sid, eventType);
    InParts('+', SESSION_PREFIX, sid, [SEPARATOR], eventType);
    InParts('#', SESSION_PREFIX, sid, [SEPARATOR], eventType);
    InParts('\0', SESSION_PREFIX, sid, [SEPARATOR], eventType);
  }

  /** A topic built for a session is published and reaches the bridge exactly when both parts are
      plain levels and not too long, and then the bridge reads both back. */
  lemma DeliveryIff(sid: string, eventType: string)
    ensures Delivered(BuildSessionTopic(sid, eventType)) <==>
            Plain(sid) && Plain(eventType) && |sid| + |eventType| <= 65535 - 21
    ensures Delivered(BuildSessionTopic(sid, eventType)) ==>
              Split(BuildSessionTopic(sid, eventType)) == ["claude", "mesh", "session", sid, eventType]
  {
    SelectionIff(sid, eventType);
    PublishableIff(sid, eventType);
  }
}
