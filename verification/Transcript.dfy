/** Lines of a file as a bounded scanner sees them, and the context usage read off the
    last few lines of a transcript. */
module Scanner {
  /** Where the first line ends: at a newline, or at the end of the data. */
  function LineEnd(data: string): (k: nat)
    ensures k <= |data| && (k < |data| ==> data[k] == '\n') && forall i :: 0 <= i < k ==> data[i] != '\n'
  {
    if data == "" || data[0] == '\n' then 0 else 1 + LineEnd(data[1..])
  }

  function DropCR(line: string): string {
    if line != "" && line[|line| - 1] == '\r' then line[..|line| - 1] else line
  }

  /** One carriage return in front of a newline belongs to the line's end. */
  lemma DropCRBy(line: string)
    ensures DropCR(line + "\r") == line
    ensures line == "" || line[|line| - 1] != '\r' ==> DropCR(line) == line
  {
  }

  datatype Scan = Scan(tokens: seq<string>, ok: bool)

  /** The tokens a line scanner with a buffer of `max` bytes produces. It gives up at a line
      that fills the buffer before its newline is seen. */
  function ScanLines(data: string, max: nat): Scan
    decreases |data|
  {
    var k := LineEnd(data);
    if data == "" then Scan([], true)
    else if k >= max then Scan([], false)
    else if k == |data| then Scan([DropCR(data)], true)
    else
      var rest := ScanLines(data[k + 1..], max);
      Scan([DropCR(data[..k])] + rest.tokens, rest.ok)
  }

  /** Every line of the data, however long. */
  function AllLines(data: string): seq<string>
    decreases |data|
  {
    var k := LineEnd(data);
    if data == "" then []
    else if k == |data| then [DropCR(data)]
    else [DropCR(data[..k])] + AllLines(data[k + 1..])
  }

  /** Data within the buffer's size is scanned whole, unless one line fills the buffer. */
  lemma {:induction false} ScanWhole(data: string, max: nat)
    requires |data| <= max && (|data| == max ==> '\n' in data)
    ensures ScanLines(data, max) == Scan(AllLines(data), true)
    decreases |data|
  {
    var k := LineEnd(data);
    if data != "" {
      if k < |data| {
        ScanWhole(data[k + 1..], max);
      } else {
        assert '\n' !in data;
      }
    }
  }

  /** Empty, or whole lines only. */
  predicate Whole(data: string) {
    data == "" || data[|data| - 1] == '\n'
  }

  lemma {:induction false} LineEndPrefix(a: string, b: string)
    requires '\n' in a
    ensures LineEnd(a + b) == LineEnd(a) < |a|
  {
    if a[0] != '\n' {
      assert (a + b)[1..] == a[1..] + b;
      assert a == [a[0]] + a[1..];
      LineEndPrefix(a[1..], b);
    }
  }

  lemma {:induction false} LinesConcat(a: string, b: string)
    requires Whole(a)
    ensures AllLines(a + b) == AllLines(a) + AllLines(b)
    decreases |a|
  {
    if a == "" {
      assert a + b == b;
    } else {
      var k := LineEnd(a);
      assert a[|a| - 1] in a;
      LineEndPrefix(a, b);
      assert (a + b)[..k] == a[..k] && (a + b)[k + 1..] == a[k + 1..] + b;
      LinesConcat(a[k + 1..], b);
    }
  }

  /** What follows the newline that ends a line, if there is one. */
  function AfterNewline(rest: string): string {
    if rest == "" then "" else rest[1..]
  }

  /** A line in front of the end of the data or of a newline. */
  lemma LineFirst(line: string, rest: string)
    requires line != "" && '\n' !in line && (rest == "" || rest[0] == '\n')
    ensures AllLines(line + rest) == [DropCR(line)] + AllLines(AfterNewline(rest))
  {
    LineEndExact(line, rest);
    var data := line + rest;
    var k := LineEnd(data);
    assert data[..k] == line;
    if rest == "" {
      assert data == line;
      assert AllLines(data) == [DropCR(line)] == [DropCR(line)] + [];
    } else {
      assert data[k + 1..] == AfterNewline(rest);
    }
  }

  lemma NewlineFirst(rest: string)
    requires rest != "" && rest[0] == '\n'
    ensures NonEmpty(AllLines(rest)) == NonEmpty(AllLines(rest[1..]))
  {
    assert LineEnd(rest) == 0 && rest[..0] == "";
    assert AllLines(rest) == [""] + AllLines(rest[1..]);
    assert ([""] + AllLines(rest[1..]))[1..] == AllLines(rest[1..]);
  }

  lemma {:induction false} LineEndExact(line: string, rest: string)
    requires '\n' !in line && (rest == "" || rest[0] == '\n')
    ensures LineEnd(line + rest) == |line|
  {
    if line == "" {
      assert line + rest == rest;
    } else {
      assert (line + rest)[1..] == line[1..] + rest;
      LineEndExact(line[1..], rest);
    }
  }

  /** What the scanner finds are lines of the data. */
  lemma {:induction false} TokensAreLines(data: string, max: nat)
    ensures forall l :: l in ScanLines(data, max).tokens ==> l in AllLines(data)
    decreases |data|
  {
    var k := LineEnd(data);
    if data != "" && k < max && k < |data| {
      TokensAreLines(data[k + 1..], max);
    }
  }

  /** The lines of the end of some data are lines of the data, but for the first one when the
      cut is not at a newline. */
  lemma LinesOfSuffix(x: string, w: string)
    ensures forall l :: l in AllLines(w) ==> l in AllLines(x + w) || (!Whole(x) && l == DropCR(w[..LineEnd(w)]))
  {
    var k := LineEnd(w);
    if Whole(x) {
      LinesConcat(x, w);
    } else if k < |w| {
      var piece, rest := w[..k + 1], w[k + 1..];
      assert x + w == (x + piece) + rest;
      LinesConcat(x + piece, rest);
    } else {
      assert w[..k] == w;
    }
  }

  /** What is left from the end of the first line on. */
  function PastFirst(data: string): string {
    data[LineEnd(data)..]
  }

  lemma FirstOfLines(data: string)
    requires LineEnd(data) < |data|
    ensures AllLines(data) == [DropCR(data[..LineEnd(data)])] + AllLines(data[LineEnd(data) + 1..])
    ensures AllLines(PastFirst(data)) == [""] + AllLines(data[LineEnd(data) + 1..])
  {
    var rest := PastFirst(data);
    assert LineEnd(rest) == 0 && rest[1..] == data[LineEnd(data) + 1..] && rest[..0] == "";
  }

  lemma Regrouped(x: string, w: string, k: nat)
    requires 0 < k <= |w|
    ensures x + w == (x + w[..k]) + w[k..] && (x + w[..k])[|x| + k - 1] == w[k - 1]
  {
  }

  lemma InEither(a: seq<string>, b: seq<string>)
    ensures forall l :: l in a + b <==> l in a || l in b
  {
  }

  /** The lines behind the first one of the end of some data are lines of the data. */
  lemma LinesBehind(x: string, w: string)
    ensures forall l :: l in AllLines(PastFirst(w)) ==> l == "" || l in AllLines(x + w)
  {
    var k := LineEnd(w);
    if k < |w| {
      FirstOfLines(w);
      Regrouped(x, w, k + 1);
      var piece, rest := x + w[..k + 1], w[k + 1..];
      LinesConcat(piece, rest);
      InEither([""], AllLines(rest));
      InEither(AllLines(piece), AllLines(rest));
    } else {
      assert PastFirst(w) == "";
    }
  }

  function NonEmpty(lines: seq<string>): seq<string> {
    if lines == [] then [] else (if lines[0] == "" then [] else [lines[0]]) + NonEmpty(lines[1..])
  }

  lemma {:induction false} NonEmptyConcat(a: seq<string>, b: seq<string>)
    ensures NonEmpty(a + b) == NonEmpty(a) + NonEmpty(b)
  {
    if a == [] {
      assert a + b == b;
    } else {
      assert (a + b)[1..] == a[1..] + b;
      NonEmptyConcat(a[1..], b);
    }
  }

  lemma NonEmptyCons(line: string, lines: seq<string>)
    ensures NonEmpty([line] + lines) == (if line == "" then [] else [line]) + NonEmpty(lines)
  {
    assert ([line] + lines)[1..] == lines;
  }

  lemma NonEmptySnoc(lines: seq<string>, line: string)
    ensures NonEmpty(lines + [line]) == NonEmpty(lines) + if line == "" then [] else [line]
  {
    NonEmptyConcat(lines, [line]);
    assert [line][1..] == [];
    assert NonEmpty([line]) == (if line == "" then [] else [line]) + NonEmpty([]);
  }

  lemma {:induction false} NonEmptyIn(lines: seq<string>)
    ensures forall l :: l in NonEmpty(lines) <==> l in lines && l != ""
  {
    if lines != [] {
      NonEmptyIn(lines[1..]);
      assert lines == [lines[0]] + lines[1..];
    }
  }
}

module Transcript {
  import opened Percentages
  import opened Scanner
  import opened Wrappers

  const DEFAULT_LIMIT := 200000
  const READ_TAIL_BYTES := 16384
  const MAX_LINES := 15

  datatype Usage = Usage(tokens: int, limit: int, percent: real, fromTokens: bool, found: bool)

  const NO_USAGE := Usage(0, 0, 0.0, false, false)

  /** What a transcript line decodes to: an assistant message with its three token counts, a
      system message with the percentage left that its text states, or neither. */
  datatype Line =
    | Assistant(input: int, cacheRead: int, cacheCreation: int)
    | System(left: Option<nat>)
    | Other

  function UsageFromTokens(tokens: int, limit: int): (u: Usage)
    requires limit > 0
    ensures u.tokens == tokens && u.percent == Percent(tokens, limit)
  {
    var pct := tokens as real / limit as real * 100.0;
    Usage(tokens, limit, if pct > 100.0 then 100.0 else pct, true, true)
  }

  /** The usage a line states, if any. */
  function Reading(line: Line, limit: int): Option<Usage>
    requires limit > 0
  {
    match line
    case Assistant(a, b, c) => if a + b + c > 0 then Some(UsageFromTokens(a + b + c, limit)) else None
    case System(left) =>
      if left.Some? then Some(Usage(0, limit, (100 - left.value) as real, false, true)) else None
    case Other => None
  }

  /** A percentage lies between 0 and 100, except when a system message states that more than
      100 percent are left. */
  lemma InRangeIff(line: Line, limit: int)
    requires limit > 0 && Reading(line, limit).Some?
    ensures 0.0 <= Reading(line, limit).value.percent <= 100.0 <==> (line.System? ==> line.left.value <= 100)
  {
    match line
    case Assistant(a, b, c) => assert 0.0 <= UsageFromTokens(a + b + c, limit).percent <= 100.0;
    case System(left) =>
    case Other =>
  }

  /** The usage of the last line that states one. */
  function Latest(lines: seq<string>, decode: string -> Line, limit: int): Usage
    requires limit > 0
  {
    if lines == [] then NO_USAGE
    else
      var r := Reading(decode(lines[|lines| - 1]), limit);
      if r.Some? then r.value else Latest(lines[..|lines| - 1], decode, limit)
  }

  function Tail(content: string): string {
    if |content| <= READ_TAIL_BYTES then content else content[|content| - READ_TAIL_BYTES..]
  }

  function LastOf(lines: seq<string>, n: nat): seq<string> {
    if |lines| > n then lines[|lines| - n..] else lines
  }

  function TailLines(content: string): seq<string> {
    LastOf(NonEmpty(ScanLines(Tail(content), READ_TAIL_BYTES).tokens), MAX_LINES)
  }

  function EffectiveLimit(limit: int): (l: int)
    ensures l > 0
  {
    if limit <= 0 then DEFAULT_LIMIT else limit
  }

  // ---- as it runs ----

  /** A missing file has no lines. */
  method ReadTailLines(file: Option<string>) returns (lines: seq<string>)
    ensures lines == if file.None? then [] else TailLines(file.value)
  {
    if file.None? {
      return [];
    }
    var size := |file.value|;
    var seekPos := size - READ_TAIL_BYTES;
    if seekPos < 0 {
      seekPos := 0;
    }
    var scan := ScanLines(file.value[seekPos..], READ_TAIL_BYTES);
    assert file.value[seekPos..] == Tail(file.value);
    lines := [];
    for i := 0 to |scan.tokens|
      invariant lines == NonEmpty(scan.tokens[..i])
    {
      assert scan.tokens[..i + 1] == scan.tokens[..i] + [scan.tokens[i]];
      NonEmptySnoc(scan.tokens[..i], scan.tokens[i]);
      if |scan.tokens[i]| != 0 {
        lines := lines + [scan.tokens[i]];
      }
    }
    assert scan.tokens[..|scan.tokens|] == scan.tokens;
    if |lines| > MAX_LINES {
      lines := lines[|lines| - MAX_LINES..];
    }
  }

  /** Backward, the most recent line first. */
  method LatestUsage(lines: seq<string>, decode: string -> Line, limit: int) returns (u: Usage)
    requires limit > 0
    ensures u == Latest(lines, decode, limit)
  {
    assert lines[..|lines|] == lines;
    for i := |lines| downto 0
      invariant Latest(lines, decode, limit) == Latest(lines[..i], decode, limit)
    {
      assert lines[..i + 1][..i] == lines[..i];
      match decode(lines[i])
      case Assistant(a, b, c) =>
        var total := a + b + c;
        if total > 0 {
          return UsageFromTokens(total, limit);
        }
      case System(left) =>
        if left.Some? {
          return Usage(0, limit, (100 - left.value) as real, false, true);
        }
      case Other =>
    }
    u := NO_USAGE;
  }

  // ---- the bounded scan against the full one ----

  lemma {:induction false} LatestSuffix(a: seq<string>, line: string, b: seq<string>, decode: string -> Line,
                                        limit: int)
    requires limit > 0 && Reading(decode(line), limit).Some?
    ensures Latest(a + [line] + b, decode, limit) == Latest([line] + b, decode, limit)
    decreases |b|
  {
    var long, short := a + [line] + b, [line] + b;
    if b != [] {
      var front := b[..|b| - 1];
      LatestSuffix(a, line, front, decode, limit);
      assert long[..|long| - 1] == a + [line] + front && short[..|short| - 1] == [line] + front;
      assert long[|long| - 1] == short[|short| - 1] == b[|b| - 1];
    } else {
      assert long[|long| - 1] == short[|short| - 1] == line;
    }
  }

  lemma Associative<T>(a: seq<T>, b: seq<T>, c: seq<T>)
    ensures a + b + c == a + (b + c)
  {
  }

  lemma LinesSplit(pre: string, data: string)
    requires Whole(pre)
    ensures NonEmpty(AllLines(pre + data)) == NonEmpty(AllLines(pre)) + NonEmpty(AllLines(data))
  {
    LinesConcat(pre, data);
    NonEmptyConcat(AllLines(pre), AllLines(data));
  }

  lemma LineAhead(line: string, rest: string)
    requires line != "" && '\n' !in line && (rest == "" || rest[0] == '\n') && DropCR(line) != ""
    ensures NonEmpty(AllLines(line + rest)) == [DropCR(line)] + NonEmpty(AllLines(rest))
  {
    LineFirst(line, rest);
    NonEmptyCons(DropCR(line), AllLines(AfterNewline(rest)));
    if rest != "" {
      NewlineFirst(rest);
    }
  }

  /** The lines of a file in which a whole line stands at a known place. */
  lemma LinesAround(pre: string, line: string, rest: string)
    requires Whole(pre) && line != "" && '\n' !in line && (rest == "" || rest[0] == '\n') && DropCR(line) != ""
    ensures NonEmpty(AllLines(pre + line + rest)) ==
            NonEmpty(AllLines(pre)) + [DropCR(line)] + NonEmpty(AllLines(rest))
  {
    Associative(pre, line, rest);
    LinesSplit(pre, line + rest);
    LineAhead(line, rest);
    Associative(NonEmpty(AllLines(pre)), [DropCR(line)], NonEmpty(AllLines(rest)));
  }

  /** The window keeps the line and what follows it, whatever it cuts before. */
  lemma TailAround(pre: string, line: string, rest: string) returns (cut: string)
    requires Whole(pre) && |line| + |rest| <= READ_TAIL_BYTES
    ensures Whole(cut) && Tail(pre + line + rest) == cut + line + rest
  {
    var content := pre + line + rest;
    if |content| <= READ_TAIL_BYTES {
      cut := pre;
    } else {
      var from := |content| - READ_TAIL_BYTES;
      cut := pre[from..];
      assert content[from..] == cut + line + rest;
    }
  }

  lemma WindowScanned(cut: string, line: string, rest: string)
    requires |cut + line + rest| <= READ_TAIL_BYTES && |line| < READ_TAIL_BYTES
    requires Whole(cut) && (rest == "" || rest[0] == '\n')
    ensures ScanLines(cut + line + rest, READ_TAIL_BYTES).tokens == AllLines(cut + line + rest)
  {
    var data := cut + line + rest;
    if |data| == READ_TAIL_BYTES {
      if cut != "" {
        assert data[|cut| - 1] == '\n';
      } else {
        assert data[|line|] == '\n';
      }
    }
    ScanWhole(data, READ_TAIL_BYTES);
  }

  lemma LastKeeps(before: seq<string>, l: string, after: seq<string>, n: nat) returns (kept: seq<string>)
    requires |after| < n
    ensures LastOf(before + [l] + after, n) == kept + [l] + after
  {
    var window := before + [l] + after;
    kept := if |window| > n then before[|window| - n..] else before;
  }

  /** The bounded tail scan is a full scan: if some line that states a usage is shorter than the
      window, lies wholly inside it and is among the last fifteen that are not empty, then the
      transcript's usage is what reading every line backward would find, even when the window
      starts in the middle of a line. */
  lemma TailScanIsFullScan(pre: string, line: string, rest: string, decode: string -> Line, limit: int)
    requires limit > 0
    requires Whole(pre) && '\n' !in line && (rest == "" || rest[0] == '\n')
    requires |line| < READ_TAIL_BYTES && |line| + |rest| <= READ_TAIL_BYTES
    requires DropCR(line) != "" && Reading(decode(DropCR(line)), limit).Some?
    requires |NonEmpty(AllLines(rest))| < MAX_LINES
    ensures var content := pre + line + rest;
            Latest(TailLines(content), decode, limit) == Latest(NonEmpty(AllLines(content)), decode, limit)
  {
    var content, l, after := pre + line + rest, DropCR(line), NonEmpty(AllLines(rest));
    var cut := TailAround(pre, line, rest);
    LinesAround(pre, line, rest);
    LinesAround(cut, line, rest);
    WindowScanned(cut, line, rest);
    var before := NonEmpty(AllLines(cut));
    assert TailLines(content) == LastOf(before + [l] + after, MAX_LINES);
    var kept := LastKeeps(before, l, after, MAX_LINES);
    LatestSuffix(kept, l, after, decode, limit);
    LatestSuffix(NonEmpty(AllLines(pre)), l, after, decode, limit);
  }

  // ---- and only then ----

  /** None of the lines states a usage. */
  ghost predicate Mute(lines: seq<string>, decode: string -> Line, limit: int)
    requires limit > 0
  {
    forall l :: l in lines && l != "" ==> Reading(decode(l), limit).None?
  }

  lemma {:induction false} LatestMute(a: seq<string>, b: seq<string>, decode: string -> Line, limit: int)
    requires limit > 0 && Mute(b, decode, limit) && "" !in b
    ensures Latest(a + b, decode, limit) == Latest(a, decode, limit)
    decreases |b|
  {
    if b == [] {
      assert a + b == a;
    } else {
      LatestMute(a, b[..|b| - 1], decode, limit);
      assert (a + b)[..|a + b| - 1] == a + b[..|b| - 1];
    }
  }

  /** A window that starts inside the line begins with an end of it. */
  lemma WindowInLine(pre: string, line: string, rest: string) returns (c: string)
    requires '\n' !in line && |rest| < READ_TAIL_BYTES < |line| + |rest|
    ensures var content := pre + line + rest;
            && Tail(content) == c + rest && c != "" && '\n' !in c
            && content[|content| - READ_TAIL_BYTES - 1] != '\n'
  {
    var content := pre + line + rest;
    c := line[|line| + |rest| - READ_TAIL_BYTES..];
    assert Tail(content) == c + rest;
    assert content[|content| - READ_TAIL_BYTES - 1] == line[|line| - |c| - 1];
  }

  lemma WindowInRest(pre: string, line: string, rest: string) returns (y: string)
    requires |rest| >= READ_TAIL_BYTES && line != ""
    ensures var content := pre + line + rest;
            && rest == y + Tail(content)
            && (y != "" ==> content[|content| - READ_TAIL_BYTES - 1] == y[|y| - 1])
  {
    var content := pre + line + rest;
    y := rest[..|rest| - READ_TAIL_BYTES];
    assert Tail(content) == rest[|rest| - READ_TAIL_BYTES..];
  }

  lemma LastOfIn(lines: seq<string>, n: nat)
    ensures forall l :: l in LastOf(lines, n) ==> l in lines
  {
  }

  lemma LatestAllMute(lines: seq<string>, decode: string -> Line, limit: int)
    requires limit > 0 && Mute(lines, decode, limit) && "" !in lines
    ensures Latest(lines, decode, limit) == NO_USAGE
  {
    LatestMute([], lines, decode, limit);
    assert [] + lines == lines;
  }

  lemma TailMute(content: string, decode: string -> Line, limit: int)
    requires limit > 0 && Mute(AllLines(Tail(content)), decode, limit)
    ensures Latest(TailLines(content), decode, limit) == NO_USAGE
  {
    var tokens := ScanLines(Tail(content), READ_TAIL_BYTES).tokens;
    TokensAreLines(Tail(content), READ_TAIL_BYTES);
    NonEmptyIn(tokens);
    LastOfIn(NonEmpty(tokens), MAX_LINES);
    LatestAllMute(TailLines(content), decode, limit);
  }

  /** A line that fills the buffer stops the scanner. */
  lemma BufferFilled(pre: string, line: string)
    requires '\n' !in line && |line| == READ_TAIL_BYTES
    ensures TailLines(pre + line + "") == []
  {
    var content := pre + line + "";
    assert Tail(content) == line;
    assert line + "" == line;
    LineEndExact(line, "");
  }

  /** Fifteen lines behind it hide the line. */
  lemma Hidden(pre: string, line: string, rest: string, decode: string -> Line, limit: int)
    requires limit > 0
    requires Whole(pre) && '\n' !in line && (rest == "" || rest[0] == '\n') && DropCR(line) != ""
    requires |line| < READ_TAIL_BYTES && |line| + |rest| <= READ_TAIL_BYTES
    requires Mute(AllLines(rest), decode, limit) && |NonEmpty(AllLines(rest))| >= MAX_LINES
    ensures Latest(TailLines(pre + line + rest), decode, limit) == NO_USAGE
  {
    var cut := TailAround(pre, line, rest);
    var before, after := NonEmpty(AllLines(cut)), NonEmpty(AllLines(rest));
    LinesAround(cut, line, rest);
    WindowScanned(cut, line, rest);
    NonEmptyIn(AllLines(rest));
    LastOfIn(after, MAX_LINES);
    LastSkips(before + [DropCR(line)], after, MAX_LINES);
    LatestAllMute(LastOf(after, MAX_LINES), decode, limit);
  }

  lemma LastSkips(before: seq<string>, after: seq<string>, n: nat)
    requires |after| >= n
    ensures LastOf(before + after, n) == LastOf(after, n)
  {
  }

  // ---- a line that the window cuts ----

  /** The window starts in the middle of a line. */
  predicate Cut(content: string) {
    |content| > READ_TAIL_BYTES && content[|content| - READ_TAIL_BYTES - 1] != '\n'
  }

  /** What the end of a cut line states: nothing when it fills the window or when fifteen lines
      behind it hide it. */
  function CutReading(content: string, decode: string -> Line, limit: int): Option<Usage>
    requires limit > 0
  {
    var w := Tail(content);
    var piece := DropCR(w[..LineEnd(w)]);
    if Cut(content) && PastFirst(w) != "" && piece != "" && |NonEmpty(AllLines(PastFirst(w)))| < MAX_LINES
    then Reading(decode(piece), limit) else None
  }

  /** A line in front of a newline, empty or not. */
  lemma AnyLineAhead(line: string, rest: string)
    requires '\n' !in line && rest != "" && rest[0] == '\n'
    ensures NonEmpty(AllLines(line + rest)) ==
            (if DropCR(line) == "" then [] else [DropCR(line)]) + NonEmpty(AllLines(rest))
  {
    if line == "" {
      assert line + rest == rest;
    } else if DropCR(line) == "" {
      LineFirst(line, rest);
      NonEmptyCons("", AllLines(AfterNewline(rest)));
      NewlineFirst(rest);
    } else {
      LineAhead(line, rest);
    }
  }

  /** The bounded scan reads the cut piece and nothing else, if nothing else states a usage. */
  lemma TailReads(content: string, decode: string -> Line, limit: int)
    requires limit > 0
    requires Mute(AllLines(PastFirst(Tail(content))), decode, limit)
    requires !Cut(content) ==> Mute(AllLines(Tail(content)), decode, limit)
    ensures Latest(TailLines(content), decode, limit) == CutReading(content, decode, limit).GetOr(NO_USAGE)
  {
    var w := Tail(content);
    if !Cut(content) {
      TailMute(content, decode, limit);
    } else if PastFirst(w) == "" {
      assert ScanLines(w, READ_TAIL_BYTES).tokens == [];
      LatestAllMute([], decode, limit);
    } else {
      PieceReads(w, decode, limit);
    }
  }

  lemma PieceReads(w: string, decode: string -> Line, limit: int)
    requires limit > 0 && |w| == READ_TAIL_BYTES && PastFirst(w) != ""
    requires Mute(AllLines(PastFirst(w)), decode, limit)
    ensures var piece := DropCR(w[..LineEnd(w)]);
            Latest(LastOf(NonEmpty(ScanLines(w, READ_TAIL_BYTES).tokens), MAX_LINES), decode, limit) ==
            if piece != "" && |NonEmpty(AllLines(PastFirst(w)))| < MAX_LINES
            then Reading(decode(piece), limit).GetOr(NO_USAGE) else NO_USAGE
  {
    var c, rest := w[..LineEnd(w)], PastFirst(w);
    var l, after := DropCR(c), NonEmpty(AllLines(rest));
    assert w == c + rest && w[LineEnd(w)] == '\n';
    ScanWhole(w, READ_TAIL_BYTES);
    AnyLineAhead(c, rest);
    NonEmptyIn(AllLines(rest));
    LastOfIn(after, MAX_LINES);
    if l == "" {
      assert [] + after == after;
      LatestAllMute(LastOf(after, MAX_LINES), decode, limit);
    } else if |after| >= MAX_LINES {
      LastSkips([l], after, MAX_LINES);
      LatestAllMute(LastOf(after, MAX_LINES), decode, limit);
    } else {
      LatestMute([l], after, decode, limit);
      LatestOfOne(l, decode, limit);
    }
  }

  lemma SuffixMute(x: string, w: string, decode: string -> Line, limit: int)
    requires limit > 0 && Mute(AllLines(x + w), decode, limit)
    ensures Mute(AllLines(PastFirst(w)), decode, limit)
    ensures Whole(x) ==> Mute(AllLines(w), decode, limit)
  {
    LinesOfSuffix(x, w);
    LinesBehind(x, w);
  }

  /** A window that starts behind the beginning of the last usable line. */
  lemma WindowBehind(pre: string, line: string, rest: string, decode: string -> Line, limit: int)
    requires limit > 0 && line != "" && '\n' !in line && (rest == "" || rest[0] == '\n')
    requires Mute(AllLines(rest), decode, limit) && |line| + |rest| > READ_TAIL_BYTES
    ensures var content := pre + line + rest;
            && Mute(AllLines(PastFirst(Tail(content))), decode, limit)
            && (!Cut(content) ==> Mute(AllLines(Tail(content)), decode, limit))
  {
    var content := pre + line + rest;
    if |rest| < READ_TAIL_BYTES {
      var c := WindowInLine(pre, line, rest);
      LineEndExact(c, rest);
    } else {
      var y := WindowInRest(pre, line, rest);
      SuffixMute(y, Tail(content), decode, limit);
    }
  }

  /** A window that begins with a whole line, or with lines of which at least fifteen follow the
      first, has no cut piece to be read. */
  lemma NothingCut(pre: string, line: string, rest: string, decode: string -> Line, limit: int)
    requires limit > 0
    requires Whole(pre) && '\n' !in line && (rest == "" || rest[0] == '\n') && DropCR(line) != ""
    requires |line| + |rest| <= READ_TAIL_BYTES
    requires |line| == READ_TAIL_BYTES || |NonEmpty(AllLines(rest))| >= MAX_LINES
    ensures CutReading(pre + line + rest, decode, limit).None?
  {
    if Cut(pre + line + rest) {
      var cut := CutBefore(pre, line, rest);
      PastCut(cut, line, rest);
    }
  }

  lemma CutBefore(pre: string, line: string, rest: string) returns (cut: string)
    requires Whole(pre) && |line| + |rest| <= READ_TAIL_BYTES && Cut(pre + line + rest)
    ensures Tail(pre + line + rest) == cut + line + rest && cut != "" && Whole(cut)
    ensures |cut| + |line| + |rest| == READ_TAIL_BYTES
  {
    var content := pre + line + rest;
    var from := |content| - READ_TAIL_BYTES;
    assert from > 0 && content[from - 1] == pre[from - 1];
    cut := pre[from..];
    assert content[from..] == cut + line + rest;
  }

  /** Behind the first of some whole lines there is still the line that follows them. */
  lemma PastCut(cut: string, line: string, rest: string)
    requires Whole(cut) && cut != "" && line != "" && '\n' !in line && DropCR(line) != ""
    requires rest == "" || rest[0] == '\n'
    ensures |NonEmpty(AllLines(PastFirst(cut + line + rest)))| > |NonEmpty(AllLines(rest))|
  {
    assert cut[|cut| - 1] == '\n';
    Associative(cut, line, rest);
    LineEndPrefix(cut, line + rest);
    var left := PastFirst(cut);
    PastPrefix(cut, line, rest);
    LinesAround(left, line, rest);
  }

  lemma PastPrefix(cut: string, line: string, rest: string)
    requires LineEnd(cut + line + rest) == LineEnd(cut) < |cut|
    ensures PastFirst(cut + line + rest) == PastFirst(cut) + line + rest
  {
  }

  /** The line is shorter than 16384 bytes, lies wholly in the last 16384 of the file, and has fewer
      than fifteen non-empty lines behind it. */
  predicate InSight(line: string, rest: string) {
    |line| < 16384 && |line| + |rest| <= 16384 && |NonEmpty(AllLines(rest))| < 15
  }

  /** When the last usable line is out of sight, the bounded scan finds what a cut line states, if
      anything. */
  lemma OutOfSight(pre: string, line: string, rest: string, decode: string -> Line, limit: int)
    requires limit > 0
    requires Whole(pre) && '\n' !in line && (rest == "" || rest[0] == '\n') && DropCR(line) != ""
    requires Mute(AllLines(rest), decode, limit) && !InSight(line, rest)
    ensures var content := pre + line + rest;
            Latest(TailLines(content), decode, limit) == CutReading(content, decode, limit).GetOr(NO_USAGE)
  {
    var content := pre + line + rest;
    if |line| + |rest| > READ_TAIL_BYTES {
      WindowBehind(pre, line, rest, decode, limit);
      TailReads(content, decode, limit);
    } else {
      NothingCut(pre, line, rest, decode, limit);
      if |line| == READ_TAIL_BYTES {
        assert rest == "";
        BufferFilled(pre, line);
        LatestAllMute([], decode, limit);
      } else {
        Hidden(pre, line, rest, decode, limit);
      }
    }
  }

  /** The bounded scan agrees with the full one, on a file with a last line that states a usage,
      exactly when that line is shorter than the window, lies wholly inside it and has fewer than
      fifteen non-empty lines behind it, or the end of a line that the window cuts happens to state
      the same usage. */
  lemma TailScanIff(pre: string, line: string, rest: string, decode: string -> Line, limit: int)
    requires limit > 0
    requires Whole(pre) && '\n' !in line && (rest == "" || rest[0] == '\n')
    requires DropCR(line) != "" && Reading(decode(DropCR(line)), limit).Some?
    requires Mute(AllLines(rest), decode, limit)
    ensures var content := pre + line + rest;
            Latest(TailLines(content), decode, limit) == Latest(NonEmpty(AllLines(content)), decode, limit) <==>
            InSight(line, rest) || CutReading(content, decode, limit) == Reading(decode(DropCR(line)), limit)
  {
    if InSight(line, rest) {
      TailScanIsFullScan(pre, line, rest, decode, limit);
    } else {
      OutOfSight(pre, line, rest, decode, limit);
      LastUsableFound(pre, line, rest, decode, limit);
    }
  }

  /** On any other file it does exactly when no end of a cut line states a usage. */
  lemma TailScanUnusable(content: string, decode: string -> Line, limit: int)
    requires limit > 0 && Mute(AllLines(content), decode, limit)
    ensures Latest(TailLines(content), decode, limit) == Latest(NonEmpty(AllLines(content)), decode, limit) <==>
            CutReading(content, decode, limit).None?
  {
    var x := TailEnds(content);
    SuffixMute(x, Tail(content), decode, limit);
    TailReads(content, decode, limit);
    NonEmptyIn(AllLines(content));
    LatestAllMute(NonEmpty(AllLines(content)), decode, limit);
  }

  lemma TailEnds(content: string) returns (x: string)
    ensures content == x + Tail(content) && (!Cut(content) ==> Whole(x))
  {
    x := content[..|content| - |Tail(content)|];
  }

  /** There are no other files than these two kinds. */
  lemma {:induction false} LastUsable(content: string, decode: string -> Line, limit: int)
    returns (pre: string, line: string, rest: string)
    requires limit > 0 && !Mute(AllLines(content), decode, limit)
    ensures content == pre + line + rest
    ensures Whole(pre) && '\n' !in line && (rest == "" || rest[0] == '\n')
    ensures DropCR(line) != "" && Reading(decode(DropCR(line)), limit).Some?
    ensures Mute(AllLines(rest), decode, limit)
    decreases |content|
  {
    var k := LineEnd(content);
    if k == |content| {
      pre, line, rest := "", content, "";
      OnlyLine(content, decode, limit);
    } else if Mute(AllLines(content[k + 1..]), decode, limit) {
      pre, line, rest := "", content[..k], content[k..];
      FirstLine(content, decode, limit);
      assert content == pre + line + rest;
    } else {
      pre, line, rest := LastUsable(content[k + 1..], decode, limit);
      Rejoined(content, k + 1, pre, line, rest);
      pre := content[..k + 1] + pre;
    }
  }

  lemma Rejoined(content: string, k: nat, pre: string, line: string, rest: string)
    requires 0 < k <= |content| && content[k..] == pre + line + rest && content[k - 1] == '\n' && Whole(pre)
    ensures content == content[..k] + pre + line + rest && Whole(content[..k] + pre)
  {
    assert content == content[..k] + content[k..];
  }

  lemma OnlyLine(content: string, decode: string -> Line, limit: int)
    requires limit > 0 && LineEnd(content) == |content| && !Mute(AllLines(content), decode, limit)
    ensures DropCR(content) != "" && Reading(decode(DropCR(content)), limit).Some?
    ensures '\n' !in content && Mute(AllLines(""), decode, limit) && content == "" + content + ""
  {
    assert AllLines(content) == if content == "" then [] else [DropCR(content)];
  }

  lemma FirstLine(content: string, decode: string -> Line, limit: int)
    requires limit > 0 && LineEnd(content) < |content| && !Mute(AllLines(content), decode, limit)
    requires Mute(AllLines(content[LineEnd(content) + 1..]), decode, limit)
    ensures var line, rest := content[..LineEnd(content)], PastFirst(content);
            && DropCR(line) != "" && Reading(decode(DropCR(line)), limit).Some?
            && Mute(AllLines(rest), decode, limit)
  {
    FirstOfLines(content);
    OnlyTheFirst(DropCR(content[..LineEnd(content)]), AllLines(content[LineEnd(content) + 1..]), decode, limit);
  }

  lemma OnlyTheFirst(first: string, others: seq<string>, decode: string -> Line, limit: int)
    requires limit > 0 && !Mute([first] + others, decode, limit) && Mute(others, decode, limit)
    ensures first != "" && Reading(decode(first), limit).Some? && Mute([""] + others, decode, limit)
  {
    var l :| l in [first] + others && l != "" && Reading(decode(l), limit).Some?;
  }

  lemma LastUsableFound(pre: string, line: string, rest: string, decode: string -> Line, limit: int)
    requires limit > 0
    requires Whole(pre) && '\n' !in line && (rest == "" || rest[0] == '\n')
    requires DropCR(line) != "" && Reading(decode(DropCR(line)), limit).Some?
    requires Mute(AllLines(rest), decode, limit)
    ensures Latest(NonEmpty(AllLines(pre + line + rest)), decode, limit) == Reading(decode(DropCR(line)), limit).value
  {
    var l, after := DropCR(line), NonEmpty(AllLines(rest));
    LinesAround(pre, line, rest);
    LatestSuffix(NonEmpty(AllLines(pre)), l, after, decode, limit);
    NonEmptyIn(AllLines(rest));
    LatestMute([l], after, decode, limit);
    LatestOfOne(l, decode, limit);
  }

  // ---- what a parse gives ----

  /** The line states a usage: tokens of an assistant message, or the share of the context that a
      system message says is left. */
  predicate Usable(line: Line) {
    match line
    case Assistant(a, b, c) => a + b + c > 0
    case System(left) => left.Some?
    case Other => false
  }

  /** The usage is that of the line: all three kinds of tokens and their capped share of the limit,
      or a hundred less what is left. */
  predicate States(line: Line, limit: int, u: Usage) {
    match line
    case Assistant(a, b, c) =>
      && u.tokens == a + b + c && u.limit == limit && u.fromTokens && u.found
      && (u.tokens <= limit ==> u.percent * limit as real == 100.0 * u.tokens as real)
      && (u.tokens >= limit ==> u.percent == 100.0)
    case System(left) =>
      left.Some? && u.tokens == 0 && u.limit == limit && !u.fromTokens && u.found
      && u.percent == 100.0 - left.value as real
    case Other => false
  }

  lemma ReadingStates(line: Line, limit: int)
    requires limit > 0
    ensures Reading(line, limit).Some? <==> Usable(line)
    ensures Usable(line) ==> States(line, limit, Reading(line, limit).value)
  {
  }

  /** A line in sight that states a usage, with none behind it that does. */
  ghost predicate LastInSight(content: string, pre: string, line: string, rest: string, decode: string -> Line) {
    && content == pre + line + rest && Whole(pre) && '\n' !in line && (rest == "" || rest[0] == '\n')
    && DropCR(line) != "" && Usable(decode(DropCR(line)))
    && InSight(line, rest) && forall l :: l in AllLines(rest) && l != "" ==> !Usable(decode(l))
  }

  /** The usage is that of the last usable line in sight. Without a file, or when none of the lines
      read states one, there is none. */
  ghost predicate Parsed(u: Usage, file: Option<string>, decode: string -> Line, limit: int) {
    && (file.Some? ==>
          forall pre, line, rest :: LastInSight(file.value, pre, line, rest, decode) ==>
            States(decode(DropCR(line)), limit, u))
    && (file.None? || (forall l :: l in TailLines(file.value) ==> !Usable(decode(l))) ==>
          u == Usage(0, 0, 0.0, false, false))
  }

  lemma ParsesAs(file: Option<string>, decode: string -> Line, limit: int)
    requires limit > 0
    ensures Parsed(Latest(if file.None? then [] else TailLines(file.value), decode, limit), file, decode, limit)
  {
    if file.Some? {
      forall pre, line, rest | LastInSight(file.value, pre, line, rest, decode)
        ensures States(decode(DropCR(line)), limit, Latest(TailLines(file.value), decode, limit))
      {
        InSightParses(file.value, pre, line, rest, decode, limit);
      }
      if forall l :: l in TailLines(file.value) ==> !Usable(decode(l)) {
        NothingParses(TailLines(file.value), decode, limit);
      }
    }
  }

  lemma InSightParses(content: string, pre: string, line: string, rest: string, decode: string -> Line, limit: int)
    requires limit > 0 && LastInSight(content, pre, line, rest, decode)
    ensures States(decode(DropCR(line)), limit, Latest(TailLines(content), decode, limit))
  {
    forall l | l in AllLines(rest) && l != ""
      ensures Reading(decode(l), limit).None?
    {
      ReadingStates(decode(l), limit);
    }
    ReadingStates(decode(DropCR(line)), limit);
    TailScanIsFullScan(pre, line, rest, decode, limit);
    LastUsableFound(pre, line, rest, decode, limit);
  }

  lemma {:induction false} NothingParses(lines: seq<string>, decode: string -> Line, limit: int)
    requires limit > 0 && forall l :: l in lines ==> !Usable(decode(l))
    ensures Latest(lines, decode, limit) == Usage(0, 0, 0.0, false, false)
  {
    if lines != [] {
      ReadingStates(decode(lines[|lines| - 1]), limit);
      NothingParses(lines[..|lines| - 1], decode, limit);
    }
  }

  method Parse(file: Option<string>, decode: string -> Line, limit: int) returns (u: Usage)
    ensures u == Latest(if file.None? then [] else TailLines(file.value), decode, EffectiveLimit(limit))
    ensures Parsed(u, file, decode, if limit <= 0 then 200000 else limit)
  {
    var effective := limit;
    if limit <= 0 {
      effective := DEFAULT_LIMIT;
    }
    var lines := ReadTailLines(file);
    u := LatestUsage(lines, decode, effective);
    ParsesAs(file, decode, effective);
  }

  /** No line is read as a record of which a proper end is one as well: so it is with one JSON
      object a line. */
  ghost predicate Selfstanding(decode: string -> Line) {
    forall a: string, b: string :: a != "" && b != "" && decode(a + b) != Other ==> decode(b) == Other
  }

  /** A cut that states a usage nobody stated: two records without a newline between them are read
      as nothing, but the window may begin with the second. */
  lemma GluedRecordMisread(first: string, second: string, rest: string, decode: string -> Line, limit: int)
    requires limit > 0 && first != "" && |second| + |rest| == READ_TAIL_BYTES && rest != "" && rest[0] == '\n'
    requires '\n' !in first && '\n' !in second && DropCR(second) != ""
    requires Reading(decode(DropCR(second)), limit).Some? && Reading(decode(DropCR(first + second)), limit).None?
    requires Mute(AllLines(rest), decode, limit) && |NonEmpty(AllLines(rest))| < MAX_LINES
    ensures var content := first + second + rest;
            && Latest(TailLines(content), decode, limit) == Reading(decode(DropCR(second)), limit).value
            && Latest(NonEmpty(AllLines(content)), decode, limit) == NO_USAGE
  {
    var content := first + second + rest;
    assert Tail(content) == second + rest && Tail(second + rest) == second + rest;
    assert "" + second + rest == second + rest;
    TailScanIsFullScan("", second, rest, decode, limit);
    LastUsableFound("", second, rest, decode, limit);
    GluedMute(first + second, rest, decode, limit);
  }

  lemma GluedMute(line: string, rest: string, decode: string -> Line, limit: int)
    requires limit > 0 && '\n' !in line && DropCR(line) != "" && rest != "" && rest[0] == '\n'
    requires Reading(decode(DropCR(line)), limit).None? && Mute(AllLines(rest), decode, limit)
    ensures Latest(NonEmpty(AllLines(line + rest)), decode, limit) == NO_USAGE
  {
    var after := NonEmpty(AllLines(rest));
    LineAhead(line, rest);
    NonEmptyIn(AllLines(rest));
    LatestMute([DropCR(line)], after, decode, limit);
    LatestOfOne(DropCR(line), decode, limit);
  }

  // ---- such a file ----

  function Depth(s: string): int {
    if s == "" then 0
    else Depth(s[..|s| - 1]) + if s[|s| - 1] == '{' then 1 else if s[|s| - 1] == '}' then -1 else 0
  }

  /** Text in one pair of braces, as an object is. */
  ghost predicate OneObject(s: string) {
    s != "" && Depth(s) == 0 && forall i :: 0 < i < |s| ==> Depth(s[..i]) > 0
  }

  lemma {:induction false} DepthConcat(a: string, b: string)
    ensures Depth(a + b) == Depth(a) + Depth(b)
    decreases |b|
  {
    if b == "" {
      assert a + b == a;
    } else {
      assert (a + b)[..|a + b| - 1] == a + b[..|b| - 1];
      DepthConcat(a, b[..|b| - 1]);
    }
  }

  lemma {:induction false} DepthOpen(n: nat)
    ensures Depth("{" + seq(n, i => '.')) == 1
  {
    var s: string := "{" + seq(n, i => '.');
    if n == 0 {
      assert s == "{" && s[..0] == "";
    } else {
      assert s[..|s| - 1] == "{" + seq(n - 1, i => '.');
      DepthOpen(n - 1);
    }
  }

  function Record(n: nat): string {
    "{" + seq(n, i => '.') + "}"
  }

  lemma RecordIsOneObject(n: nat)
    ensures OneObject(Record(n))
  {
    var s: string := Record(n);
    DepthOpen(n);
    assert s[..|s| - 1] == "{" + seq(n, i => '.');
    forall i | 0 < i < |s|
      ensures Depth(s[..i]) > 0
    {
      DepthOpen(i - 1);
      assert s[..i] == "{" + seq(i - 1, j => '.');
    }
  }

  /** A decoder that reads one object a line, and nothing else. */
  ghost function ReadObject(line: string): Line {
    if OneObject(line) then Assistant(1, 0, 0) else Other
  }

  lemma ReadObjectSelfstanding()
    ensures Selfstanding(ReadObject)
  {
    forall a: string, b: string | a != "" && b != "" && ReadObject(a + b) != Other
      ensures ReadObject(b) == Other
    {
      DepthConcat(a, b);
      assert (a + b)[..|a|] == a;
    }
  }

  lemma TwoRecords(n: nat)
    ensures ReadObject(Record(n)) == Assistant(1, 0, 0) && ReadObject(Record(n) + Record(n)) == Other
    ensures DropCR(Record(n)) == Record(n) && DropCR(Record(n) + Record(n)) == Record(n) + Record(n)
    ensures '\n' !in Record(n) && |Record(n)| == n + 2
  {
    RecordIsOneObject(n);
    var r := Record(n);
    assert (r + r)[..|r|] == r;
    assert r[|r| - 1] == '}' && (r + r)[|r + r| - 1] == '}';
  }

  /** Without the condition on the cut the two scans can differ, even for a decoder of which no
      line's end is a record of its own. */
  lemma WindowCanMisread() returns (content: string, decode: string -> Line)
    ensures Selfstanding(decode)
    ensures Latest(TailLines(content), decode, DEFAULT_LIMIT)
            != Latest(NonEmpty(AllLines(content)), decode, DEFAULT_LIMIT)
  {
    var record := Record(READ_TAIL_BYTES - 3);
    content, decode := record + record + "\n", ReadObject;
    ReadObjectSelfstanding();
    TwoRecords(READ_TAIL_BYTES - 3);
    NoLinesAfter();
    GluedRecordMisread(record, record, "\n", ReadObject, DEFAULT_LIMIT);
  }

  lemma NoLinesAfter()
    ensures AllLines("\n") == [""] && NonEmpty(AllLines("\n")) == []
  {
    assert LineEnd("\n") == 0 && "\n"[1..] == "" && "\n"[..0] == "";
    assert [""][1..] == [];
    assert NonEmpty([""]) == [] + NonEmpty([]);
  }

  lemma LatestOfOne(line: string, decode: string -> Line, limit: int)
    requires limit > 0
    ensures Latest([line], decode, limit) == Reading(decode(line), limit).GetOr(NO_USAGE)
  {
    assert [line][..0] == [];
    assert Latest([], decode, limit) == NO_USAGE;
  }
}
