# Claude Mesh, modelled and verified

Claude Mesh keeps track of the Claude Code sessions running on a set of machines. Hook scripts
publish a session's opening, each of its tool calls and its closing over MQTT; a bridge daemon
routes the messages to Redis; tools read the result. This project models the daemon's state and
algorithms in Dafny and proves what they guarantee.

A session lives in Redis in three places that must agree although nothing ties them together:
a Hash with a time to live, a score in the active ZSET, and two trimmed activity rings. Two
workers, a ticker that refreshes live local sessions and then sweeps, and a booting bridge change
them at the same time. Pipelines are not transactions, so their commands interleave.

## How it is organised

| file | what it holds |
|---|---|
| Redis.dfy | events, keys, the data base as a value (`Db`, `Cmd`, `Apply`, `Run`, `Advance`) and as a mutable server (`Client`) |
| Store.dfy | the store's pipelines, what each amounts to, and the class `RedisStore` that builds and sends them |
| Topics.dfy | session topics, their split, and the wildcard subscription |
| Bridge.dfy | routing of one message, and one tick, as the class `Daemon` |
| Atomic.dfy | runs in which each pipeline takes effect at once, against the clock |
| Messages.dfy | histories of messages handled one after another |
| Mesh.dfy | the concurrent machine: one Redis command a step, a program counter for each worker, the ticker and a booting bridge |
| NonInterference.dfy, Rings.dfy, Liveness.dfy, Eviction.dfy | properties of every run of that machine |
| Races.dfy, Phantoms.dfy, Journeys.dfy, Strays.dfy, Uninterrupted.dfy | members without a Hash, command by command: the rules that rule them out, that each rule is needed, and the exact condition on the settings |
| Quiescence.dfy, Scoring.dfy, Overlaps.dfy | what holds of a session's rings, score and `last_seen` whenever nobody is at work on it, and what two workers at work on it at once can do to them |
| Undisturbed.dfy | the sequential calls of `Bridge` are runs of that machine |
| Subscriber.dfy | the MQTT subscriber's state and the path of a message from callback to worker |
| Conflict.dfy | the conflict lookup over the global ring |
| Hooks.dfy | patching hook entries into settings.json and removing them |
| Percentages.dfy | shares of a limit |
| Transcript.dfy | a line scanner with a bounded buffer, and the context usage read from a transcript's tail |
| UsageStats.dfy | token usage over rolling windows |

Every main result has a partner. The methods of `Client`, `RedisStore`, `Daemon`, the installer and
the readers are proved against functions on values; the results about runs are proved of those
functions; `Undisturbed` and `Uninterrupted` tie the sequential, the atomic and the concurrent reading together.

## What is assumed

- A pipeline that has started completes, and a store call in the sequential classes succeeds. In
  the concurrent machine the ticker's listing, its reads and its sweep may fail.
- Redis, the bridge and the store read one clock, which never goes back. A key is gone from the instant its
  time to live has passed.
- Timestamps are reals: neither the rounding of float64, nor the truncation of the clock to whole
  milliseconds, nor the six digits of the sweep's cutoff text are modelled.
- Activities are pushed under the session id of the payload and touched under that of the topic. The
  concurrent machine takes messages in which both agree (`WellAddressed`); `PublishRouteRoundTrip`
  shows that what the publisher sends is of that kind.
- Decoding JSON, recognising the text of a system message and probing a process are parameters: any
  decoder, any answer. Two-field checks on a line (its type, then its content) are one decoder call.
- Strings stand for the bytes of topics, keys and files.
- The ticker may visit the sessions it has listed in any order, and members of equal score are listed in
  any order, so the results hold for the order Redis gives.
- The hook marker is searched for in decoded text. The source searches the raw text, in which an escaped
  character inside the marker would hide it.
- The boot loop's waiting times do not matter to the results; it retries until the broker accepts.

## Where the code and its own words differ

The model follows the code.

- `SweepExpired` says it removes scores below the cutoff; it also removes the cutoff itself
  (internal/store/session.go:143-145). `Store.RedisStore.SweepExpired` and `Eviction.EvictedForGood` say so.
- `TouchActiveSessions` reports how many members it touched; ZADD XX counts additions, so the report is
  always 0 (internal/store/session.go:133-140), and the boot message at main.go:205 is never logged.
- The interface says that an activity of an unknown session reaches the global ring only
  (internal/store/store.go, `PushActivity`); the code also creates a minimal Hash and an active member
  (`Store.PushEffect`, `Store.RedisStore.PushActivity`).
- A booting bridge rescores the active set so that a restart does not evict live sessions (main.go:199-207). It renews
  no Hash, and a single restart already breaks the shipped settings: sweep window and tick gap, once for the run and
  once for the boot, make 620 seconds against a Hash's 600, so that a session can stay a member without a Hash
  (`Atomic.DefaultsNeverPhantom`).
- Ring sizes below 1 do not bound a ring: size 0 becomes the index -1, which keeps everything
  (`Redis.TrimBoundsIff`).
- A session named "global" shares its ring with everybody (`Keys.KeysSeparate`, `NonInterference.GlobalSessionInterferes`).
- The usage percentage read from a system message is documented as 0 to 100, and is negative when the message states
  more than 100 percent left (`Transcript.InRangeIff`).
- The patch is documented never to modify other hooks. It keeps that promise exactly when there are no hooks, or an object
  of hooks in which whatever stands under a mesh event is an array or already marked (`Hooks.PatchKeepsIff`); otherwise
  a single hook is wrapped into an array, a `null` under an event or hooks of another kind are replaced
  (`Hooks.PatchCanModify`), and a `null` for the file or for its hooks makes the patch panic on a nil map
  (`Hooks.PatchPanicsIff`).

## Model

| member | source | states |
|---|---|---|
| Keys.KeysSeparate | internal/store/keys.go:8-24 | distinct sessions never share a Hash or a ring, and no session key is a fixed key; the one exception is the session "global", whose ring is the global ring |
| Redis.TrimBoundsIff | internal/store/activity.go:42-44 | trimming to index size - 1 bounds every list by size if and only if size is at least 1 |
| Redis.WritesRead | internal/store/session.go:23-32 | HSET makes the fields it names read as written, and leaves the other fields, the expiry and everything else |
| Redis.SeedsRead | internal/store/session.go:61-63 | HSETNX adds a field that is missing and changes none that is there |
| Redis.Ages | internal/store/session.go:33 | as time passes nothing comes, nothing changes, and nothing without an expiry goes |
| Redis.HashLives | internal/store/session.go:33 | a Hash given a time to live is there, whole, exactly as long as that time has not passed |
| Redis.RingLives | internal/store/activity.go:45 | and so is a ring, while no other is affected |
| Redis.ScoresRead | internal/store/session.go:128-145 | who is a member, and with which score, after a ZADD, a ZADD XX, a ZREM or a ZREMRANGEBYSCORE: XX adds nobody, the range includes its end |
| Redis.PushesRead | internal/store/activity.go:42-44 | push and trim leave the item in front of the newest others, size entries at most, and every other ring alone |
| Store.OpenEffect | internal/store/session.go:22-36 | an open merges its eight fields over whatever the Hash held, renews the Hash and scores the session, and does nothing else to the data base |
| Store.TouchEffect | internal/store/session.go:43-47 | a touch writes `last_seen` alone, so that it can bring back an expired Hash with no identity |
| Store.TouchOrCreateEffect | internal/store/session.go:59-68 | the three seeds never overwrite a field that is there, `last_seen` always moves, the Hash gets its full time to live |
| Store.CloseEffect | internal/store/session.go:77-80 | a close removes the member and leaves the Hash whole with five seconds to live |
| Store.RingEffect | internal/store/activity.go:43-45 | push, trim and expire leave the new item in front of the newest size - 1 older ones, and no key when nothing is left |
| Store.PushEffect | internal/store/activity.go:37-67 | an activity always registers its session and reaches the global ring; it reaches its own ring exactly when the Hash was seen |
| Store.OpenOpens | internal/store/session.go:15-36 | an open with a timestamp is scored, opened and last seen then, one without at the clock; all else about members, Hashes and rings is fixed too |
| Store.PushPushes | internal/store/activity.go:21-69 | what an activity does to its session, its two rings and nothing else, entry by entry and field by field |
| Store.TouchOrCreateSeeds | internal/store/session.go:57-70 | which fields a seeding touch adds, which it keeps, and which it moves |
| Store.RedisStore.OpenSession | internal/store/session.go:15-38 | the whole data base after an open: scored, opened and last seen at the event's own timestamp unless that is zero, then at the store's clock, with all eight fields as a reader sees them |
| Store.RedisStore.TouchSession | internal/store/session.go:41-49 | the whole data base after a touch: `last_seen` and score at the given time, nothing else written, the full time to live |
| Store.RedisStore.TouchOrCreateSession | internal/store/session.go:57-70 | the whole data base after a touch that seeds: old values kept, missing ones filled in |
| Store.RedisStore.CloseSession | internal/store/session.go:74-82 | only this member leaves the active set; every Hash is as before but that this one has five seconds to live; the rings are untouched |
| Store.RedisStore.GetSession | internal/store/session.go:85-95 | nothing for a missing or empty Hash, else the view of its fields |
| Store.RedisStore.ListActiveSessions | internal/store/session.go:98-114 | the views of the members by ascending score, members without a Hash skipped |
| Store.RedisStore.TouchActiveSessions | internal/store/session.go:120-141 | every member is scored anew, nobody is added, neither Hash nor ring changes, and the reported count is 0, which is the number touched only if there are no members |
| Store.RedisStore.SweepExpired | internal/store/session.go:144-150 | exactly the members scored at or below the cutoff leave, the others keep their scores, and the count is theirs |
| Store.RedisStore.PushActivity | internal/store/activity.go:21-69 | the whole data base after the EXISTS check and the pipeline it leads to: the session active as of the activity, under a minimal Hash if it had none, each ring with its own size and time to live, its own ring only if the Hash was there |
| Store.RedisStore.RecentActivity | internal/store/activity.go:73-95 | the newest `limit` entries of the session's ring, or of the global ring for an empty id; all of them for a limit of 0 |
| Store.OpenViewRoundTrip | internal/store/session.go:153-171 | a reader sees every field of the open that was written, whatever the Hash held before |
| Store.ListingExact | internal/store/session.go:98-114 | a session is in a listing if and only if it is a member with a non-empty Hash, once, as its Hash says, in score order |
| Topics.SelectedIff | internal/mqtt/subscriber.go:13-16 | the subscription selects exactly the five-level topics under claude/mesh/session (sections 4.7.1.2 and 4.7.1.3 of MQTT 3.1.1), so a delivered topic passes the length check |
| Topics.SelectionIff | internal/events/events.go:40-42 | a built topic is selected if and only if neither part contains a separator, and then splitting it gives both parts back at indices 3 and 4 |
| Topics.PublishableIff | internal/events/events.go:40-42 | a built topic may be published if and only if neither part holds a wildcard or U+0000 and the two are not too long together (sections 3.3.2.1 and 4.7.3 of MQTT 3.1.1) |
| Topics.DeliveryIff | internal/events/events.go:40-42 | a built topic is published and delivered if and only if both parts are plain levels and not too long together, and then the bridge reads both back |
| Bridge.PublishRouteRoundTrip | internal/mqtt/publisher.go:21-36 | an event is delivered if and only if its session id is a plain topic level and not too long, and is then routed as the very message it was |
| Bridge.Daemon.constructor | internal/bridge/bridge.go:95-123 | a sweep window that is not positive is replaced by 300 seconds, any other is taken |
| Bridge.Daemon.Handle | internal/bridge/bridge.go:268-330 | a topic with fewer than five levels, an unknown type and an undecodable payload change nothing; every other message has the effect of its store calls, told by what a reader of the data base sees |
| Bridge.UnknownSessionShown | internal/bridge/bridge.go:293-315 | a session known only by an activity is listed with the activity's directory and time, and no branch, host, transcript or process |
| Bridge.OpenedLiveIff | internal/bridge/bridge.go:229-237 | after an open its session is live for a bridge if and only if the open names the bridge's host, which is not empty, and a process that is alive |
| Bridge.TouchOneMore | internal/bridge/bridge.go:229-243 | touching one more listed session changes that session alone: the order of the refresh loop does not matter |
| Bridge.RefreshStep | internal/bridge/bridge.go:229-243 | one turn of the refresh loop extends the set of touched sessions by exactly the live local one it visits |
| Bridge.Daemon.RefreshLiveSessions | internal/bridge/bridge.go:219-245 | exactly the listed sessions of this host with a live process are touched, all at one reading of the clock, and counted; nobody without a hostname |
| Bridge.Daemon.Tick | internal/bridge/bridge.go:188-206 | after a tick a member is left if and only if the score the refresh gave it, or its old one, is above the cutoff; no live local session is evicted if refresh to cutoff took less than the window |
| Atomic.RegisteringOp | internal/store/session.go:15-70 | open, activity, touch and seeding touch all stamp and score their session with one and the same time, renew its Hash and leave every other session alone |
| Atomic.CoveredRun | internal/bridge/bridge.go:188-206 | in a paced run from any covered state, with a window to spare for each boot that may still come, no member outlives its Hash |
| Atomic.Drift | internal/bridge/bridge.go:199-200 | sweeps that keep the pace, each with the latest cutoff that spares a member, carry the clock to any time before sweep window and tick gap have passed since its score |
| Atomic.Strand | main.go:200-207 | boots just before those times carry it on, one window each, until the member's Hash has expired |
| Atomic.NoPhantomsIff | internal/store/session.go:98-114 | over all paced runs with at most k boots every member of the active set has an unexpired Hash, so that a listing drops nobody, if and only if (k + 1) times (sweep window + tick gap), plus the clock skew of events, is at most the Hash's time to live |
| Atomic.BootsStrand | main.go:200-207 | however long a Hash lives, some number of boots, and any greater number, leaves a member without one: a rehydration raises scores and renews no Hash |
| Atomic.DefaultsNeverPhantom | internal/store/store.go:30-39 | the shipped settings rule phantom members out if and only if no bridge boots during the run and events are stamped at most 290 seconds ahead |
| Atomic.ScoreIsLastSeen | internal/store/session.go:120-141 | in every run of atomic pipelines a member with a live Hash is scored by its `last_seen`, unless a rehydration raised the score since its last write |
| Messages.LastMessageDecides | internal/bridge/bridge.go:268-330 | after any message history without sweeps a session is active if and only if its last message is not a close, scored by that message's timestamp, or by the clock for an open that has none |
| Messages.ActivityEffect | internal/bridge/bridge.go:292-312 | the two store calls of an activity amount to one registration and one or two ring pushes |
| Messages.ActivityOutcome | internal/bridge/bridge.go:292-312 | what an activity makes of the session's fields: built on those that were there, else what the activity alone tells, without a host |
| Messages.RedeliveryIdempotent | internal/bridge/bridge.go:268-330 | delivering a message a second time (QoS 1, section 4.3.2 of MQTT 3.1.1) changes no member, score or Hash field, if and only if it is not an open without a timestamp that meets another reading of the clock; only an activity leaves one more entry in its rings |
| Messages.RevivalKeepsOrReseeds | internal/store/session.go:57-82 | an activity within the grace period brings a closed session back with every old field; later it comes back with what the activity tells and with no host; both times active, with the full time to live |
| Messages.RingsAgree | internal/store/activity.go:37-46 | a session's own ring and its entries in the global ring are prefixes of one history, so one is always a prefix of the other, unless an activity finds its Hash missing while its ring still has entries |
| Messages.OrphanPartsRings | internal/store/activity.go:47-54 | such an activity, unless equal to the newest entry, parts the two rings at once: neither is a prefix of the other |
| Mesh.SysOkStep | internal/bridge/bridge.go:162-177 | at every step what a worker still has to send concerns only the session of its message, and after a close never scores it |
| Undisturbed.UndisturbedDelivers | internal/bridge/bridge.go:268-330 | a worker nobody disturbs does, command by command, exactly what handling the message in one go does |
| Undisturbed.ProbesAll | internal/bridge/bridge.go:229-243 | there is a run of the ticker alone that probes all the listed sessions and touches the live ones |
| Undisturbed.UndisturbedTick | internal/bridge/bridge.go:188-206 | there is a run of the ticker alone that does what the sequential tick does |
| Undisturbed.EveryRound | internal/bridge/bridge.go:229-243 | a tick under way that nobody disturbs comes to the same in whatever order it reads and probes the rest of the sessions |
| Undisturbed.EveryUndisturbedTick | internal/bridge/bridge.go:188-206 | every run of the ticker alone from rest to rest touches exactly the live local sessions and then sweeps, as the sequential tick does |
| Undisturbed.UnrefreshedTick | internal/bridge/bridge.go:193-221 | without a host, or when the listing fails, a tick sweeps and touches nobody |
| Undisturbed.UndisturbedBoot | main.go:200-207 | an undisturbed boot scores exactly the members, all with one reading of the clock |
| NonInterference.StepFollowed | internal/bridge/bridge.go:162-177 | each step of the whole system is, seen from one session, a step of the machine with that session alone, or none |
| NonInterference.SessionRunsAlone | internal/bridge/bridge.go:162-177 | from any state and for any number of workers: the part of a run that concerns a session is itself a run of the one-worker machine and leaves the session's Hash, score, ring and expiries the same |
| NonInterference.EverySessionRunsAlone | internal/bridge/bridge.go:162-177 | so it is for every run of the mesh and every session but "global" that no two workers hold at once; the global push history filtered to a session is that machine's own |
| NonInterference.GlobalSessionInterferes | internal/store/keys.go:21-24 | the session "global" is rightly excluded: a push by anybody changes its ring |
| Rings.RingSafety | internal/store/activity.go:39-65 | at every command step, two workers on one session included, a ring is a newest-first prefix of its pushes, holds at least min(size, pushes since it appeared), and at most size plus the number of workers between push and trim |
| Rings.OneCommandAStep | internal/store/session.go:22-36 | nothing changes the data base but the clock and, step by step, one command of a worker, the ticker or a boot |
| Rings.LogIsPushes | internal/store/activity.go:42-65 | the history rings are measured against is all that has been pushed, newest first |
| Rings.SinceIsPushes | internal/store/activity.go:42-65 | the count they are measured against is that of the pushes since the ring was last absent |
| Conflict.FindConflicts | internal/mcp/handlers/conflict.go:39-60 | one entry for each other session that targeted the file and none for the caller, none twice, each with the time and tool of the first and so newest such activity |
| Conflict.CheckConflict | internal/mcp/handlers/conflict.go:24-66 | the same of the newest 200 entries of the global ring, or all if there are fewer |
| Conflict.AnswersUnique | internal/mcp/handlers/conflict.go:57-60 | the specification fixes the answer up to its order |
| Conflict.ConflictRefinesHistory | internal/mcp/handlers/conflict.go:33-60 | in every reachable state in which the global ring is there, the answer is that over the last min(200, ring size) pushes ever made, exactly so when no worker is between push and trim or the ring is as large as the window |
| Liveness.OpenMakesPresent | internal/store/session.go:15-38 | an open from this host, sent in one go, registers the session with a fresh expiry |
| Liveness.OpenLeadsThere | internal/store/session.go:22-36 | so it does when its commands interleave with others and the clock moves between them, unless the session is closed or re-opened or its Hash expires meanwhile: it leaves the session in the state the next results start from |
| Liveness.LiveStep | internal/bridge/bridge.go:188-245 | the invariant of the next results survives every command of every participant |
| Liveness.LiveSessionListedIff | internal/bridge/bridge.go:188-245 | a session of this host whose process is alive, not closed or re-opened, with listings that succeed, refreshes within the Hash's time to live and cutoffs within the window, is in the listing at every instant of a run if and only if at every successful sweep the last score given to it since the refresh, if any, is above the cutoff |
| Liveness.LiveSessionNeverLost | internal/bridge/bridge.go:188-245 | in particular in every state such a run reaches |
| Liveness.StaleActivityEvicts | internal/bridge/bridge.go:199-200 | a run in which the last condition fails: an activity stamped at or below the cutoff of a sweep under way evicts its session |
| Eviction.OnlyWaysIn | internal/bridge/bridge.go:219-245 | one step makes a session active only if a worker scores it for its own open or activity, or the ticker touches it |
| Eviction.Resurrection | internal/bridge/bridge.go:219-245 | a session that has left the active set comes back only through an open or activity of its own, or through a touch whose snapshot was taken before it left |
| Eviction.ForeignNeverTouched | internal/bridge/bridge.go:230-235 | a session of another host, or one revived without a host, is touched by no refresh before it is opened again, whatever activities arrive |
| Eviction.QuietRun | internal/bridge/bridge.go:193-200 | a session without further events whose probes fail can only leave the active set, and keeps its score unless a bridge boots |
| Eviction.EvictedForGood | internal/bridge/bridge.go:193-200 | such a session is gone after the first sweep whose cutoff reaches its score, the cutoff included, and stays out for the rest of the run, boots during it included |
| Races.CommandsStrandMembers | internal/store/session.go:22-36 | whatever the settings, an open and a close of one session that two workers run at once can leave a member without a Hash |
| Phantoms.MembersKeepHashes | internal/store/session.go:22-82 | command by command and at every instant, a session is no member without a Hash if no close of it overlaps other work on it, no Hash of it expires between a pipeline's first write and its EXPIRE, each ZADD comes within the sweep window after its EXPIRE or while the Hash is sure to outlive the next sweep, with a window to spare for each boot to come, or is one just made anew, and sweeps and boots keep the pace; the settings are those of `NoPhantomsIff` |
| Phantoms.ScorePromptIff | internal/store/session.go:22-70 | that condition on the ZADD is exact: a run that follows the other three rules has no prefix after which time, sweeps and boots at the pace can leave the session a member without a Hash, if and only if every ZADD of it meets the condition |
| Strays.WroteTooLate | internal/store/session.go:22-36 | one worker and no overlap are not enough: an open that writes to the Hash of a closed session strands it when the Hash expires before the EXPIRE |
| Strays.EveryRuleNeeded | internal/store/session.go:22-82 | whatever the settings under which the four rules suffice, for each rule there is a run that follows the other three and ends, with nothing under way, in a member without a Hash; for the rule about closes, if the grace period is shorter than the Hash's time to live |
| Uninterrupted.DeliveredAtomically | internal/bridge/bridge.go:268-330 | handling a message is a run of atomic pipelines |
| Uninterrupted.LiftRun | internal/store/session.go:22-36 | a paced run of atomic opens, sweeps and boots is a run of the mesh, command by command, that follows all the rules and leaves the same data base |
| Uninterrupted.NeverPhantomIff | internal/bridge/bridge.go:188-206 | over all runs of the mesh that follow the rules, with at most k boots, there are no phantom members if and only if (k + 1) times (sweep window + tick gap), plus the clock skew of events, is at most the Hash's time to live |
| Quiescence.RingsAgreeAtRest | internal/store/activity.go:37-65 | in every state of the mesh in which nobody is at work on a session, its ring and its entries in the global ring are prefixes of one push history, if no two workers ever held it at once and no activity of it was orphaned |
| Scoring.Turns | internal/bridge/bridge.go:162-206 | how each step of the mesh changes what the commands under way will make of a session's score and `last_seen` |
| Scoring.ScoreIsLastSeenAtRest | internal/store/session.go:22-67 | in every state of the mesh in which nobody is at work on a session, its score is its `last_seen` unless a rehydration raised it since, whatever the clock, sweeps and expiries in between, if no two were ever at work on it at once |
| Scoring.LastMessageDecidesAtRest | internal/bridge/bridge.go:162-177 | in every such state the session is a member if and only if the last message taken for it is not a close, scored by that message's timestamp, if no sweep, boot or touch came between |
| Overlaps.OverlapPartsRings | internal/store/activity.go:37-65 | two workers on one session part its rings: for any two different activities of it there is a run, with no activity orphaned, at whose end nobody is at work and neither ring is a prefix of the other |
| Overlaps.OverlapPartsScore | internal/store/session.go:22-36 | two workers on one session part its score and its `last_seen`: when two opens cross, nobody is at work any more, no rehydration, sweep or touch came between, and the score is the one's while `last_seen` is the other's, which was taken last |
| Subscriber.MqttSubscriber.Subscribe | internal/mqtt/subscriber.go:61-80 | a refused subscribe changes nothing; an accepted one stores the handler, then sets the flag: the three boot steps of the pipeline machine |
| Subscriber.MqttSubscriber.ResubscribeOnReconnect | internal/mqtt/subscriber.go:86-101 | it fails for want of a handler if and only if none was stored, never while Subscribed is true; only success moves the start time |
| Subscriber.MqttSubscriber.SetConnected | internal/mqtt/subscriber.go:54-56 | a connection lost or found moves the connected flag alone: neither the handler nor the subscription is forgotten, whatever state of the pipeline the subscriber shows |
| Subscriber.MqttSubscriber.Count | internal/mqtt/subscriber.go:62-66 | the wrapped handler counts and stamps each message before it hands it on |
| Subscriber.MqttSubscriber.Stats | internal/mqtt/subscriber.go:109-117 | the snapshot; where it reads Subscribed as true there is a handler |
| Subscriber.MessagesConserved | internal/bridge/bridge.go:129-177 | in every reachable state the count is callbacks + dropped + queued + in workers + handled, as bags of messages; the channel is first in first out and within 256; at most two are in workers; no reconnect finds the flag set and no handler |
| Subscriber.OfferDropsIff | internal/bridge/bridge.go:137-141 | a message offered to the channel is dropped if and only if 256 are queued, and otherwise is the last in the queue |
| Subscriber.DroppedCount | internal/bridge/bridge.go:137-141 | over every run as many messages are dropped as offers met a full channel |
| Subscriber.NoneDroppedIff | internal/bridge/bridge.go:137-141 | none is dropped if and only if no offer was made with 256 queued |
| Subscriber.TakesIff | internal/bridge/bridge.go:164-177 | a waiting message is taken, the oldest first, if and only if the subscription stands and fewer than two workers are busy |
| Subscriber.Drains | internal/bridge/bridge.go:129-177 | from every reachable state there is a continuation that handles every message not dropped so far and drops no more |
| Hooks.BuiltEntriesMarked | internal/installer/hooks.go:110-139 | each of the three entries carries the marker by which it is recognised again |
| Hooks.FreshInstall | internal/installer/hooks.go:110-139 | a missing file ends up with exactly three events, each with one entry: its matcher, the command that runs its own script, and its name |
| Hooks.InstallsEach | internal/installer/hooks.go:47-60 | on any file each of the events keeps what mentioned the marker, or else ends with its entry |
| Hooks.MentionsBy | internal/installer/hooks.go:143-149 | the marker is `claude-mesh-`, and it counts anywhere in a string, a key or a value |
| Hooks.PatchSettings | internal/installer/hooks.go:28-74 | the loop over the new entries, in any order, amounts to one pointwise patch; missing, garbled, null and non-object files included |
| Hooks.AddEntries | internal/installer/hooks.go:55-60 | each mesh event is extended exactly when no marker is under it, every other event is as it was |
| Hooks.RemoveHooks | internal/installer/hooks.go:77-106 | every event is filtered, a missing file is left missing |
| Hooks.RemoveEntries | internal/installer/hooks.go:172-191 | exactly the entries that mention the marker go, in order, and values that are not arrays stay |
| Hooks.RemoveOneBy | internal/installer/hooks.go:172-191 | removal decides entry by entry and keeps the order |
| Hooks.RemoveOneOther | internal/installer/hooks.go:172-179 | null becomes an empty array, any other value that is no array stays |
| Hooks.RemoveFromNull | internal/installer/hooks.go:91-102 | a file whose hooks are null comes back unchanged |
| Hooks.PatchIdempotent | internal/installer/hooks.go:55-60 | for every file, a second patch leaves what the first one wrote |
| Hooks.PatchKeepsIff | internal/installer/hooks.go:25-74 | the patch is written and every existing hook is still there, equal or in an array extended at its end, with everything outside `hooks` as it was, if and only if there is no file, or no hooks, or an object of hooks in which whatever stands under a mesh event is an array or already marked |
| Hooks.PatchPanicsIff | internal/installer/hooks.go:42-66 | it panics if and only if the file, or its `hooks`, is `null` |
| Hooks.PatchCanModify | internal/installer/hooks.go:151-169 | files for which the promise fails: a single hook is wrapped, `null` is replaced, hooks that are no object are lost |
| Hooks.RoundTripOne | internal/installer/hooks.go:152-191 | patch then remove gives back an event's value if and only if it is an unmarked array or a marked single value |
| Hooks.RemoveUndoesPatch | internal/installer/hooks.go:91-102 | remove after patch restores exactly the events that round-trip, adds nothing but empty arrays for the mesh's events, and changes nothing outside `hooks` |
| Hooks.ReinstallIff | internal/installer/hooks.go:47-66 | patch, remove, patch equals one patch if and only if no event holds anybody's marked entry but the current one at its end |
| Scanner.ScanWhole | internal/contextusage/parser.go:197-211 | data within the buffer is scanned line by line as a whole unless one line fills the buffer |
| Scanner.DropCRBy | internal/contextusage/parser.go:197-211 | one carriage return in front of a newline is not part of the line |
| Transcript.ReadTailLines | internal/contextusage/parser.go:176-218 | the last fifteen non-empty lines the scanner finds in the last 16 KB; none for a missing file |
| Transcript.Parse | internal/contextusage/parser.go:72-119 | the usage of the last usable line, if it is in sight in the last 16384 bytes with fewer than fifteen non-empty lines behind it: all three kinds of tokens and their share of the limit (200000 if none is given), capped at 100, or 100 less what a system message says is left; no usage for a missing file or when no line read states one |
| Transcript.InRangeIff | internal/contextusage/parser.go:123-172 | a stated percentage lies in 0 to 100 if and only if no system message states more than 100 percent left |
| Transcript.TailScanIsFullScan | internal/contextusage/parser.go:76-119 | if a usable line shorter than the window lies wholly in it and fewer than fifteen non-empty lines follow, the bounded scan finds what scanning every line backward finds, even when the window starts in the middle of a line |
| Transcript.TailScanIff | internal/contextusage/parser.go:76-119 | on a file with a last usable line the two scans agree if and only if that line is shorter than the window, lies wholly in it and has fewer than fifteen non-empty lines behind it, or what the end of a line cut by the window states is the same usage |
| Transcript.TailScanUnusable | internal/contextusage/parser.go:76-119 | on any other file they agree if and only if the end of a line cut by the window states no usage |
| Transcript.TailReads | internal/contextusage/parser.go:176-218 | when nothing else in the window states a usage, the bounded scan finds what the cut line's end states, unless that end fills the window or fifteen non-empty lines hide it |
| Transcript.LastUsable | internal/contextusage/parser.go:76-119 | every file with a line that states a usage has a last one, so the two iffs cover every file |
| Transcript.GluedRecordMisread | internal/contextusage/parser.go:188-195 | two records without a newline between them state nothing to a full scan, and the second one's usage to a window that starts with it, whatever the decoder |
| Transcript.WindowCanMisread | internal/contextusage/parser.go:188-195 | so the two scans can differ even for a decoder to which no proper end of a record is a record |
| UsageStats.ParseJSONL | internal/usagestats/parser.go:73-131 | one entry, in order, for each line with input, cache creation and cache read tokens at or after the given time, with their sum, the line's time and session; none for any other line, for a file that cannot be opened or for one with a line of 32 MB |
| UsageStats.ScanProjects | internal/usagestats/parser.go:38-70 | the same over the lines of all transcripts in order, unreadable projects and files skipped |
| UsageStats.FiveHourTokens | internal/usagestats/buckets.go:19-28 | the sum over the entries at or after five hours ago, that instant included |
| UsageStats.WeekTokens | internal/usagestats/buckets.go:32-41 | the same over seven days |
| UsageStats.ScanPushdown | internal/usagestats/parser.go:45-69 | filtering while scanning at any time no later than a window's start leaves the window's sum unchanged |
| UsageStats.WiderIsMore | internal/usagestats/buckets.go:19-41 | a window that starts earlier never holds fewer tokens, because only positive counts are kept |
| Percentages.Percent | main.go:355-367 | a share of a limit lies in 0 to 100, is exact up to the limit, 100 from there on, and 0 without a limit |
| UsageStats.PollUsage | main.go:344-367 | the two sums of a poll are the tokens that the lines of the last five hours and of the last seven days state, all three kinds together; the first is at most the second, and both percentages lie in 0 to 100 |

## Left out

- Liveness.LiveSessionNeverLost: says nothing of a session that is closed or opened a second time, since both give it a fresh start.
- Messages.RingsAgree: is about messages handled one after another; `Quiescence.RingsAgreeAtRest` says what holds of concurrent workers, and `Overlaps.OverlapPartsRings` that two workers on one session can part its rings.
- Messages.LastMessageDecides: is about messages handled one after another; `Scoring.LastMessageDecidesAtRest` is the concurrent form, and `Overlaps.OverlapPartsScore` shows what it needs.
- Store.RedisStore.RecentActivity: does not model list entries that fail to decode, which the source skips, because the store writes none.
- Atomic.NoPhantomsIff: reads each pipeline as one step; `Uninterrupted.NeverPhantomIff` is the same for single commands.
- Phantoms.MembersKeepHashes: its rules are each needed, and the one about the ZADD is exact (`Phantoms.ScorePromptIff`), but a run may break one of the other three and still strand nobody.
- Strays.EveryRuleNeeded: shows the rule about closes needed only where the grace period of five seconds is shorter than a Hash's time to live; elsewhere a close does not shorten the Hash's life.
- UsageStats.PollUsage: takes the files as unchanged during the poll, and the top directory as readable; an unreadable one ends the poll with nothing written.
- Failures and crashes in the middle of a pipeline, and store calls that fail in a worker after the first of two calls.
- The Redis, MQTT, logging and MCP libraries themselves; only the Redis commands used are modelled.
- The bound of the message counter (64 bits) and of token sums (machine integers).
- Listing the topics a subscriber registered, and the health record written to Redis on each tick: straight copies.
- The other MCP handlers (status, sessions, recent, announce): one filter or one call each.
- The file lock of internal/lock, whose exclusion does not hold when acquisitions overlap and is easy when they do not.
- The statusline, the Anthropic usage API, plan limits, configuration and environment parsing, and launchd: presentation, input and output.
- PatchMCP and PatchStatusLine, which drop unknown fields and overwrite foreign entries, so that no round trip is to be had.
- Backups and the atomic rename of settings.json; joined script paths are taken as given.
- Process probing: any predicate of process id and time.
