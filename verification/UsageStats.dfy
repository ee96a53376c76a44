/** Token usage over rolling windows: scanning transcripts with the window pushed down
    into the parser gives the sums an unfiltered scan would. */
module UsageStats {
  import opened Scanner
  import opened Percentages
  import opened Wrappers

  /** Milliseconds since the epoch. */
  type Instant = real

  const MAX_LINE_BYTES := 33554432
  const FIVE_HOURS: Instant := 18000000.0
  const SEVEN_DAYS: Instant := 604800000.0

  datatype Entry = Entry(sid: string, at: Instant, tokens: int)

  /** What a line decodes to when it is an assistant message. */
  datatype Assistant = Assistant(sid: string, at: Instant, input: int, cacheCreation: int, cacheRead: int)

  type Decoder = string -> Option<Assistant>

  /** A directory entry: a transcript that may fail to open, or something else. */
  datatype Item = Transcript(content: Option<string>) | OtherFile

  /** A top-level entry: a project directory that may fail to be read, or something else. */
  datatype Project = Project(files: Option<seq<Item>>) | NotADirectory

  datatype ScanResult = Entries(entries: seq<Entry>) | Unreadable

  /** The entry of a line: no entry for a line that is not an assistant message, counts no
      tokens, or lies before `since` when there is one. */
  function EntryOf(line: string, since: Option<Instant>, decode: Decoder): Option<Entry> {
    if line == "" || decode(line).None? then None
    else
      var a := decode(line).value;
      var tokens := a.input + a.cacheCreation + a.cacheRead;
      if tokens <= 0 || (since.Some? && a.at < since.value) then None else Some(Entry(a.sid, a.at, tokens))
  }

  function AsSeq(e: Option<Entry>): seq<Entry> {
    if e.Some? then [e.value] else []
  }

  function EntriesOf(lines: seq<string>, since: Option<Instant>, decode: Decoder): seq<Entry> {
    if lines == [] then []
    else
      EntriesOf(lines[..|lines| - 1], since, decode) + AsSeq(EntryOf(lines[|lines| - 1], since, decode))
  }

  /** A file with a line too long for the scanner yields nothing at all. */
  function FileEntries(f: Item, since: Option<Instant>, decode: Decoder): seq<Entry> {
    if f.Transcript? && f.content.Some? && ScanLines(f.content.value, MAX_LINE_BYTES).ok
    then EntriesOf(ScanLines(f.content.value, MAX_LINE_BYTES).tokens, since, decode)
    else []
  }

  function FilesEntries(files: seq<Item>, since: Option<Instant>, decode: Decoder): seq<Entry> {
    if files == [] then []
    else FilesEntries(files[..|files| - 1], since, decode) + FileEntries(files[|files| - 1], since, decode)
  }

  function ProjectEntries(p: Project, since: Option<Instant>, decode: Decoder): seq<Entry> {
    if p.Project? && p.files.Some? then FilesEntries(p.files.value, since, decode) else []
  }

  function AllEntries(projects: seq<Project>, since: Option<Instant>, decode: Decoder): seq<Entry> {
    if projects == [] then []
    else AllEntries(projects[..|projects| - 1], since, decode) + ProjectEntries(projects[|projects| - 1], since, decode)
  }

  /** The tokens of the entries at or after the cutoff. */
  function TokensSince(entries: seq<Entry>, cutoff: Instant): int {
    if entries == [] then 0
    else
      var e := entries[|entries| - 1];
      TokensSince(entries[..|entries| - 1], cutoff) + if e.at >= cutoff then e.tokens else 0
  }

  // ---- which lines count, and for how much ----

  /** The line is an assistant message with tokens in it, not from before `since`. */
  predicate Counts(line: string, since: Option<Instant>, decode: Decoder) {
    && line != "" && decode(line).Some?
    && decode(line).value.input + decode(line).value.cacheCreation + decode(line).value.cacheRead > 0
    && (since.Some? ==> decode(line).value.at >= since.value)
  }

  /** The places of the lines that count. */
  function Counting(lines: seq<string>, since: Option<Instant>, decode: Decoder): seq<nat> {
    if lines == [] then []
    else
      var last := |lines| - 1;
      Counting(lines[..last], since, decode) + if Counts(lines[last], since, decode) then [last] else []
  }

  /** One entry for each line that counts, in order, and none for any other: the entry of a line has
      its session, its time, and its input, cache creation and cache read tokens together. */
  ghost predicate Picks(entries: seq<Entry>, lines: seq<string>, at: seq<nat>, since: Option<Instant>, decode: Decoder)
  {
    && |at| == |entries|
    && (forall k :: 0 <= k < |at| ==> at[k] < |lines| && IsEntryOf(entries[k], lines[at[k]], decode))
    && (forall j, k :: 0 <= j < k < |at| ==> at[j] < at[k])
    && (forall n: nat :: n in at <==> n < |lines| && Counts(lines[n], since, decode))
  }

  predicate IsEntryOf(e: Entry, line: string, decode: Decoder) {
    decode(line).Some? &&
    var a := decode(line).value; e == Entry(a.sid, a.at, a.input + a.cacheCreation + a.cacheRead)
  }

  lemma PicksOneMore(entries: seq<Entry>, lines: seq<string>, at: seq<nat>, line: string, since: Option<Instant>,
                     decode: Decoder)
    requires Picks(entries, lines, at, since, decode)
    ensures Picks(entries + AsSeq(EntryOf(line, since, decode)), lines + [line],
                  at + if Counts(line, since, decode) then [|lines|] else [], since, decode)
  {
    var longer := lines + [line];
    forall n: nat | n < |lines|
      ensures longer[n] == lines[n]
    {
    }
    assert longer[|lines|] == line;
  }

  lemma {:induction false} LinesPicked(lines: seq<string>, since: Option<Instant>, decode: Decoder)
    ensures Picks(EntriesOf(lines, since, decode), lines, Counting(lines, since, decode), since, decode)
  {
    if lines != [] {
      var front, last := lines[..|lines| - 1], lines[|lines| - 1];
      LinesPicked(front, since, decode);
      PicksOneMore(EntriesOf(front, since, decode), front, Counting(front, since, decode), last, since, decode);
      assert front + [last] == lines;
    }
  }

  /** The lines of a transcript, unless it cannot be opened or has a line of 32 MB or more. */
  function FileLines(f: Item): seq<string> {
    if f.Transcript? && f.content.Some? && ScanLines(f.content.value, 32 * 1024 * 1024).ok
    then ScanLines(f.content.value, 32 * 1024 * 1024).tokens else []
  }

  function FilesLines(files: seq<Item>): seq<string> {
    if files == [] then [] else FilesLines(files[..|files| - 1]) + FileLines(files[|files| - 1])
  }

  /** The lines of every transcript that can be read, in every project that can be. */
  function ReadableLines(projects: seq<Project>): seq<string> {
    if projects == [] then []
    else
      var p := projects[|projects| - 1];
      ReadableLines(projects[..|projects| - 1]) + if p.Project? && p.files.Some? then FilesLines(p.files.value) else []
  }

  lemma Associative<T>(a: seq<T>, b: seq<T>, c: seq<T>)
    ensures a + b + c == a + (b + c)
  {
  }

  lemma {:induction false} EntriesConcat(a: seq<string>, b: seq<string>, since: Option<Instant>, decode: Decoder)
    ensures EntriesOf(a + b, since, decode) == EntriesOf(a, since, decode) + EntriesOf(b, since, decode)
    decreases |b|
  {
    if b == [] {
      assert a + b == a;
    } else {
      var front, last := b[..|b| - 1], b[|b| - 1];
      EntriesConcat(a, front, since, decode);
      assert (a + b)[..|a + b| - 1] == a + front && (a + b)[|a + b| - 1] == last;
      Associative(EntriesOf(a, since, decode), EntriesOf(front, since, decode), AsSeq(EntryOf(last, since, decode)));
    }
  }

  lemma {:induction false} FilesAsOne(files: seq<Item>, since: Option<Instant>, decode: Decoder)
    ensures FilesEntries(files, since, decode) == EntriesOf(FilesLines(files), since, decode)
  {
    if files != [] {
      var front, f := files[..|files| - 1], files[|files| - 1];
      FilesAsOne(front, since, decode);
      EntriesConcat(FilesLines(front), FileLines(f), since, decode);
    }
  }

  /** A scan is as if all the lines stood in one file. */
  lemma {:induction false} ScanAsOne(projects: seq<Project>, since: Option<Instant>, decode: Decoder)
    ensures AllEntries(projects, since, decode) == EntriesOf(ReadableLines(projects), since, decode)
  {
    if projects != [] {
      var front, p := projects[..|projects| - 1], projects[|projects| - 1];
      ScanAsOne(front, since, decode);
      if p.Project? && p.files.Some? {
        FilesAsOne(p.files.value, since, decode);
        EntriesConcat(ReadableLines(front), FilesLines(p.files.value), since, decode);
      } else {
        assert ReadableLines(projects) == ReadableLines(front);
      }
    }
  }

  /** The tokens, of all three kinds, of the assistant messages among the lines from then on. */
  function Spent(lines: seq<string>, from: Instant, decode: Decoder): int {
    if lines == [] then 0
    else
      var a := decode(lines[|lines| - 1]);
      Spent(lines[..|lines| - 1], from, decode)
      + if Counts(lines[|lines| - 1], Some(from), decode)
        then a.value.input + a.value.cacheCreation + a.value.cacheRead else 0
  }

  lemma FilePicked(content: Option<string>, since: Option<Instant>, decode: Decoder)
    ensures FilePicks(FileEntries(Transcript(content), since, decode), content, since, decode)
  {
    LinesPicked(FileLines(Transcript(content)), since, decode);
  }

  ghost predicate FilePicks(entries: seq<Entry>, content: Option<string>, since: Option<Instant>, decode: Decoder) {
    var lines := FileLines(Transcript(content));
    Picks(entries, lines, Counting(lines, since, decode), since, decode)
  }

  // ---- as it runs ----

  method ParseLines(lines: seq<string>, since: Option<Instant>, decode: Decoder) returns (results: seq<Entry>)
    ensures results == EntriesOf(lines, since, decode)
  {
    results := [];
    for i := 0 to |lines|
      invariant results == EntriesOf(lines[..i], since, decode)
    {
      assert lines[..i + 1][..i] == lines[..i];
      var line := lines[i];
      if |line| == 0 {
        continue;
      }
      var ae := decode(line);
      if ae.None? {
        continue;
      }
      var tokens := ae.value.input + ae.value.cacheCreation + ae.value.cacheRead;
      if tokens <= 0 {
        continue;
      }
      if since.Some? && ae.value.at < since.value {
        continue;
      }
      results := results + [Entry(ae.value.sid, ae.value.at, tokens)];
    }
    assert lines[..|lines|] == lines;
  }

  method ParseJSONL(content: Option<string>, since: Option<Instant>, decode: Decoder) returns (r: Option<seq<Entry>>)
    ensures r.Some? <==> content.Some? && ScanLines(content.value, MAX_LINE_BYTES).ok
    ensures r.GetOr([]) == FileEntries(Transcript(content), since, decode)
    ensures FilePicks(r.GetOr([]), content, since, decode)
  {
    FilePicked(content, since, decode);
    if content.None? {
      return None;
    }
    var scan := ScanLines(content.value, MAX_LINE_BYTES);
    var results := ParseLines(scan.tokens, since, decode);
    if !scan.ok {
      return None;
    }
    r := Some(results);
  }

  lemma FilesStep(before: seq<Entry>, files: seq<Item>, j: nat, since: Option<Instant>, decode: Decoder, e: seq<Entry>)
    requires j < |files| && e == FileEntries(files[j], since, decode)
    ensures before + FilesEntries(files[..j + 1], since, decode) == before + FilesEntries(files[..j], since, decode) + e
    ensures e == [] ==>
              before + FilesEntries(files[..j + 1], since, decode) == before + FilesEntries(files[..j], since, decode)
  {
    assert files[..j + 1][..j] == files[..j];
  }

  /** One directory entry: nothing unless it is a transcript that can be parsed. */
  method ScanFile(f: Item, since: Option<Instant>, decode: Decoder) returns (entries: seq<Entry>)
    ensures entries == FileEntries(f, since, decode)
  {
    entries := [];
    if f.Transcript? {
      var parsed := ParseJSONL(f.content, since, decode);
      assert Transcript(f.content) == f;
      if parsed.Some? {
        entries := parsed.value;
      }
    }
  }

  /** The files of one project, appended to what the projects before it gave. */
  method ScanFiles(files: seq<Item>, since: Option<Instant>, decode: Decoder, before: seq<Entry>)
    returns (results: seq<Entry>)
    ensures results == before + FilesEntries(files, since, decode)
  {
    results := before;
    for j := 0 to |files|
      invariant results == before + FilesEntries(files[..j], since, decode)
    {
      var entries := ScanFile(files[j], since, decode);
      FilesStep(before, files, j, since, decode, entries);
      results := results + entries;
    }
    assert files[..|files|] == files;
  }

  method ScanProjects(top: Option<seq<Project>>, since: Option<Instant>, decode: Decoder) returns (r: ScanResult)
    ensures r == if top.None? then Unreadable else Entries(AllEntries(top.value, since, decode))
    ensures top.Some? ==>
              var lines := ReadableLines(top.value);
              Picks(r.entries, lines, Counting(lines, since, decode), since, decode)
  {
    if top.None? {
      return Unreadable;
    }
    var results: seq<Entry> := [];
    for i := 0 to |top.value|
      invariant results == AllEntries(top.value[..i], since, decode)
    {
      assert top.value[..i + 1][..i] == top.value[..i];
      var proj := top.value[i];
      if !proj.Project? || proj.files.None? {
        continue;
      }
      results := ScanFiles(proj.files.value, since, decode, results);
    }
    assert top.value[..|top.value|] == top.value;
    ScanAsOne(top.value, since, decode);
    LinesPicked(ReadableLines(top.value), since, decode);
    r := Entries(results);
  }

  method FiveHourTokens(entries: seq<Entry>, now: Instant) returns (total: int)
    ensures total == TokensSince(entries, now - 5.0 * 60.0 * 60.0 * 1000.0)
  {
    total := SumSince(entries, now - FIVE_HOURS);
  }

  method WeekTokens(entries: seq<Entry>, now: Instant) returns (total: int)
    ensures total == TokensSince(entries, now - 7.0 * 24.0 * 60.0 * 60.0 * 1000.0)
  {
    total := SumSince(entries, now - SEVEN_DAYS);
  }

  method SumSince(entries: seq<Entry>, cutoff: Instant) returns (total: int)
    ensures total == TokensSince(entries, cutoff)
  {
    total := 0;
    for i := 0 to |entries|
      invariant total == TokensSince(entries[..i], cutoff)
    {
      assert entries[..i + 1][..i] == entries[..i];
      if !(entries[i].at < cutoff) {
        total := total + entries[i].tokens;
      }
    }
    assert entries[..|entries|] == entries;
  }

  // ---- the filter pushed down ----

  lemma {:induction false} SumConcat(a: seq<Entry>, b: seq<Entry>, cutoff: Instant)
    ensures TokensSince(a + b, cutoff) == TokensSince(a, cutoff) + TokensSince(b, cutoff)
    decreases |b|
  {
    if b == [] {
      assert a + b == a;
    } else {
      SumConcat(a, b[..|b| - 1], cutoff);
      assert (a + b)[..|a + b| - 1] == a + b[..|b| - 1];
    }
  }

  lemma {:induction false} LinesSpent(lines: seq<string>, from: Instant, decode: Decoder)
    ensures TokensSince(EntriesOf(lines, None, decode), from) == Spent(lines, from, decode)
  {
    if lines != [] {
      var front, last := lines[..|lines| - 1], lines[|lines| - 1];
      var e := EntryOf(last, None, decode);
      LinesSpent(front, from, decode);
      SumConcat(EntriesOf(front, None, decode), AsSeq(e), from);
      if e.Some? {
        assert [e.value][..0] == [];
      }
    }
  }

  /** The entries of a scan from a time on sum up to what the lines they come from state. */
  lemma ScanSpent(projects: seq<Project>, from: Instant, decode: Decoder)
    ensures TokensSince(AllEntries(projects, None, decode), from) == Spent(ReadableLines(projects), from, decode)
  {
    ScanAsOne(projects, None, decode);
    LinesSpent(ReadableLines(projects), from, decode);
  }

  lemma LinePushdown(line: string, since: Instant, decode: Decoder, cutoff: Instant)
    requires since <= cutoff
    ensures TokensSince(AsSeq(EntryOf(line, Some(since), decode)), cutoff)
            == TokensSince(AsSeq(EntryOf(line, None, decode)), cutoff)
  {
    var e := EntryOf(line, None, decode);
    if e.Some? {
      assert [e.value][..0] == [];
    }
  }

  lemma {:induction false} LinesPushdown(lines: seq<string>, since: Instant, decode: Decoder, cutoff: Instant)
    requires since <= cutoff
    ensures TokensSince(EntriesOf(lines, Some(since), decode), cutoff)
            == TokensSince(EntriesOf(lines, None, decode), cutoff)
  {
    if lines != [] {
      var front, last := lines[..|lines| - 1], lines[|lines| - 1];
      LinesPushdown(front, since, decode, cutoff);
      LinePushdown(last, since, decode, cutoff);
      SumConcat(EntriesOf(front, Some(since), decode), AsSeq(EntryOf(last, Some(since), decode)), cutoff);
      SumConcat(EntriesOf(front, None, decode), AsSeq(EntryOf(last, None, decode)), cutoff);
    }
  }

  lemma ScanPushdown(projects: seq<Project>, since: Instant, decode: Decoder, cutoff: Instant)
    requires since <= cutoff
    ensures TokensSince(AllEntries(projects, Some(since), decode), cutoff)
            == TokensSince(AllEntries(projects, None, decode), cutoff)
  {
    ScanAsOne(projects, Some(since), decode);
    ScanAsOne(projects, None, decode);
    LinesPushdown(ReadableLines(projects), since, decode, cutoff);
  }

  ghost predicate AllPositive(entries: seq<Entry>) {
    forall e :: e in entries ==> e.tokens > 0
  }

  lemma {:induction false} LinesPositive(lines: seq<string>, since: Option<Instant>, decode: Decoder)
    ensures AllPositive(EntriesOf(lines, since, decode))
  {
    if lines != [] {
      LinesPositive(lines[..|lines| - 1], since, decode);
    }
  }

  lemma ScanPositive(projects: seq<Project>, since: Option<Instant>, decode: Decoder)
    ensures AllPositive(AllEntries(projects, since, decode))
  {
    ScanAsOne(projects, since, decode);
    LinesPositive(ReadableLines(projects), since, decode);
  }

  lemma {:induction false} WiderIsMore(entries: seq<Entry>, early: Instant, late: Instant)
    requires early <= late && AllPositive(entries)
    ensures 0 <= TokensSince(entries, late) <= TokensSince(entries, early)
  {
    if entries != [] {
      WiderIsMore(entries[..|entries| - 1], early, late);
    }
  }

  // ---- one poll ----

  datatype Poll = Poll(tokens5h: int, tokensWeek: int, pct5h: real, pctWeek: real)

  /** One poll over a fixed set of files: the scan is cut at seven days before its start, the
      windows end at a later reading of the clock. */
  method PollUsage(projects: seq<Project>, decode: Decoder, limit5h: int, limitWeek: int, start: Instant, now: Instant)
    returns (p: Poll)
    requires start <= now
    ensures p.tokens5h == Spent(ReadableLines(projects), now - 5.0 * 60.0 * 60.0 * 1000.0, decode)
    ensures p.tokensWeek == Spent(ReadableLines(projects), now - 7.0 * 24.0 * 60.0 * 60.0 * 1000.0, decode)
    ensures 0 <= p.tokens5h <= p.tokensWeek
    ensures p.pct5h == Percent(p.tokens5h, limit5h) && p.pctWeek == Percent(p.tokensWeek, limitWeek)
    ensures 0.0 <= p.pct5h <= 100.0 && 0.0 <= p.pctWeek <= 100.0
  {
    var since := start - SEVEN_DAYS;
    var scanned := ScanProjects(Some(projects), Some(since), decode);
    var entries := scanned.entries;
    var tokens5h := FiveHourTokens(entries, now);
    var tokensWeek := WeekTokens(entries, now);
    ScanPushdown(projects, since, decode, now - FIVE_HOURS);
    ScanPushdown(projects, since, decode, now - SEVEN_DAYS);
    ScanSpent(projects, now - FIVE_HOURS, decode);
    ScanSpent(projects, now - SEVEN_DAYS, decode);
    ScanPositive(projects, Some(since), decode);
    WiderIsMore(entries, now - SEVEN_DAYS, now - FIVE_HOURS);
    var pct5h, pctWeek := 0.0, 0.0;
    if limit5h > 0 {
      PercentFacts(tokens5h, limit5h);
      pct5h := tokens5h as real / limit5h as real * 100.0;
      if pct5h > 100.0 {
        pct5h := 100.0;
      }
    }
    if limitWeek > 0 {
      PercentFacts(tokensWeek, limitWeek);
      pctWeek := tokensWeek as real / limitWeek as real * 100.0;
      if pctWeek > 100.0 {
        pctWeek := 100.0;
      }
    }
    p := Poll(tokens5h, tokensWeek, pct5h, pctWeek);
  }
}
