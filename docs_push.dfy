/**
 * The pure parts of `push` in `docs_sync.py`: the file content split into lines, the lines
 * laid out one after another from document index 1, the style requests built for them, and
 * the requests cut into batches.
 */
module DocsPush {
  import opened PyStr
  import opened LineParse

  /** The lines of a file: `\r\n` normalised, split at `\n`, without the empty piece after a final newline. */
  function SplitLines(content: string): (lines: seq<string>)
    ensures |lines| >= 1
    ensures forall i :: 0 <= i < |lines| ==> '\n' !in lines[i]
  {
    var raw := ReplaceCrLf(content);
    var parts := Split(raw, '\n');
    if EndsWithNewline(raw) then
      LastPartEmpty(parts, raw);
      parts[..|parts| - 1]
    else parts
  }

  /** Every line followed by a newline. */
  function Unlines(lines: seq<string>): string {
    if lines == [] then ""
    else Unlines(lines[..|lines| - 1]) + lines[|lines| - 1] + "\n"
  }

  lemma {:induction false} UnlinesCons(line: string, rest: seq<string>)
    ensures Unlines([line] + rest) == line + "\n" + Unlines(rest)
    decreases |rest|
  {
    if rest == [] {
      assert [line] + rest == [line];
      assert [line][..0] == [];
    } else {
      var n := |rest| - 1;
      assert ([line] + rest)[..n + 1] == [line] + rest[..n];
      UnlinesCons(line, rest[..n]);
    }
  }

  /** Joining with `\n` and adding a final newline is the same as ending every part with one. */
  lemma {:induction false} JoinUnlines(parts: seq<string>)
    requires |parts| >= 1
    ensures JoinWith(parts, '\n') + "\n" == Unlines(parts)
    decreases |parts|
  {
    if |parts| == 1 {
      assert parts == [parts[0]];
      assert parts[..0] == [];
    } else {
      JoinUnlines(parts[1..]);
      UnlinesCons(parts[0], parts[1..]);
      assert [parts[0]] + parts[1..] == parts;
    }
  }

  /** The last separator-free part of a text that ends with the separator is empty. */
  lemma {:induction false} LastPartEmpty(parts: seq<string>, raw: string)
    requires |parts| >= 1 && JoinWith(parts, '\n') == raw && EndsWithNewline(raw)
    requires forall i :: 0 <= i < |parts| ==> '\n' !in parts[i]
    ensures |parts| >= 2 && parts[|parts| - 1] == ""
    ensures JoinWith(parts[..|parts| - 1], '\n') + "\n" == raw
    decreases |parts|
  {
    if |parts| > 1 {
      var rest := parts[1..];
      assert JoinWith(parts, '\n') == parts[0] + "\n" + JoinWith(rest, '\n');
      if |rest| == 1 {
        assert parts[..1] == [parts[0]];
      } else {
        var tail := JoinWith(rest, '\n');
        assert EndsWithNewline(tail);
        LastPartEmpty(rest, tail);
        assert rest[..|rest| - 1] == parts[..|parts| - 1][1..];
      }
    }
  }

  /**
   * Splitting loses nothing: the lines, each followed by a newline, are the normalised
   * content, with a final newline added when it had none.
   */
  lemma SplitLinesUnlines(content: string)
    ensures var raw := ReplaceCrLf(content);
      Unlines(SplitLines(content)) == if EndsWithNewline(raw) then raw else raw + "\n"
  {
    var raw := ReplaceCrLf(content);
    var parts := Split(raw, '\n');
    if EndsWithNewline(raw) {
      LastPartEmpty(parts, raw);
      JoinUnlines(parts[..|parts| - 1]);
    } else {
      JoinUnlines(parts);
    }
  }

  /** What the loop body of `push` computes for one line, before it is placed in the document. */
  datatype Line = Line(style: NamedStyle, bullet: bool, level: nat, quote: bool, clean: string, bolds: seq<Span>)

  /** The bold ranges of a line lie, ascending and disjoint, inside its cleaned text. */
  predicate WellFormed(l: Line) {
    SpansWithin(l.bolds, |l.clean|)
  }

  /** A line parsed: its markers classified and removed, then its bold delimiters extracted. */
  function LineOf(line: string): Line {
    var shape := ParseLine(line);
    var b := ExtractedBold(shape.text);
    Line(shape.style, shape.bullet, shape.level, shape.quote, b.clean, b.spans)
  }

  /** The bold ranges of a parsed line lie inside its cleaned text. */
  lemma LineOfWellFormed(line: string)
    ensures WellFormed(LineOf(line))
  {
    ExtractedBoldRoundTrip(ParseLine(line).text);
  }

  /** `f` applied to every element of `s`, in order. */
  function Map<A, B>(f: A -> B, s: seq<A>): (r: seq<B>)
    ensures |r| == |s|
  {
    if s == [] then [] else Map(f, s[..|s| - 1]) + [f(s[|s| - 1])]
  }

  /** Element `k` of the mapped sequence is `f` of element `k`. */
  lemma {:induction false} MapAt<A, B>(f: A -> B, s: seq<A>, k: nat)
    requires k < |s|
    ensures Map(f, s)[k] == f(s[k])
    decreases |s|
  {
    var n := |s| - 1;
    if k < n {
      MapAt(f, s[..n], k);
    }
  }

  /** Every line of a file parsed. */
  function Parsed(lines: seq<string>): seq<Line> {
    Map(LineOf, lines)
  }

  /** Every parsed line has its bold ranges inside its cleaned text. */
  lemma ParsedWellFormed(lines: seq<string>)
    ensures forall k :: 0 <= k < |lines| ==> WellFormed(Parsed(lines)[k])
  {
    forall k | 0 <= k < |lines|
      ensures WellFormed(Parsed(lines)[k])
    {
      MapAt(LineOf, lines, k);
      LineOfWellFormed(lines[k]);
    }
  }

  /** The loop body of `push` up to the layout: parses line `i` and extracts its bold ranges. */
  method ParseRow(lines: seq<string>, i: nat) returns (row: Line)
    requires i < |lines|
    ensures row == Parsed(lines)[i]
  {
    var shape := ParseLine(lines[i]);
    var clean, bolds := ExtractBold(shape.text);
    row := Line(shape.style, shape.bullet, shape.level, shape.quote, clean, bolds);
    MapAt(LineOf, lines, i);
  }

  /** One entry of `tasks`: the document range of a line's paragraph and what to style in it. */
  datatype Task = Task(start: nat, end: nat, style: NamedStyle, bullet: bool, level: nat, quote: bool, bolds: seq<Span>)

  /** `final_line_text`: the cleaned line and the newline that ends its paragraph. */
  function Paragraph(l: Line): string {
    l.clean + "\n"
  }

  /** The task of a parsed line whose paragraph starts at `start`: it spans the cleaned text and a newline. */
  function TaskAt(l: Line, start: nat): (t: Task)
    ensures t.start == start && t.end == start + |l.clean| + 1
  {
    Task(start, start + |Paragraph(l)|, l.style, l.bullet, l.level, l.quote, l.bolds)
  }

  /** `full_text` after the first `n` lines. */
  function TextUpTo(rows: seq<Line>, n: nat): string
    requires n <= |rows|
  {
    if n == 0 then "" else TextUpTo(rows, n - 1) + Paragraph(rows[n - 1])
  }

  /** `tasks` after the first `n` lines: each line's task starts where the text before it ends. */
  function TasksUpTo(rows: seq<Line>, n: nat): (r: seq<Task>)
    requires n <= |rows|
    ensures |r| == n
  {
    if n == 0 then [] else TasksUpTo(rows, n - 1) + [TaskAt(rows[n - 1], 1 + |TextUpTo(rows, n - 1)|)]
  }

  /** `full_text`: every cleaned line followed by a newline. */
  function FullText(rows: seq<Line>): string {
    TextUpTo(rows, |rows|)
  }

  /** `tasks`: one per line. */
  function Tasks(rows: seq<Line>): (r: seq<Task>)
    ensures |r| == |rows|
  {
    TasksUpTo(rows, |rows|)
  }

  /** The text and tasks of the first `n` lines do not depend on the lines after them. */
  lemma {:induction false} UpToSnoc(rows: seq<Line>, row: Line, n: nat)
    requires n <= |rows|
    ensures TextUpTo(rows + [row], n) == TextUpTo(rows, n)
    ensures TasksUpTo(rows + [row], n) == TasksUpTo(rows, n)
    decreases n
  {
    if n > 0 {
      UpToSnoc(rows, row, n - 1);
      assert (rows + [row])[n - 1] == rows[n - 1];
    }
  }

  /** One iteration of the layout loop: one more line extends `full_text` and `tasks`. */
  lemma PlaceLine(rows: seq<Line>, row: Line, currentPos: nat)
    requires currentPos == 1 + |FullText(rows)|
    ensures FullText(rows + [row]) == FullText(rows) + (row.clean + "\n")
    ensures Tasks(rows + [row]) == Tasks(rows) +
      [Task(currentPos, currentPos + |row.clean + "\n"|, row.style, row.bullet, row.level, row.quote, row.bolds)]
  {
    UpToSnoc(rows, row, |rows|);
    assert (rows + [row])[|rows|] == row;
  }

  lemma TakeSnoc<T>(s: seq<T>, i: nat)
    requires i < |s|
    ensures s[..i + 1] == s[..i] + [s[i]]
  {
  }

  lemma TakeAll<T>(s: seq<T>)
    ensures s[..|s|] == s
  {
  }

  /** The state of the layout loop after `i` lines: the text and tasks of those lines, and the next paragraph's start. */
  predicate LaidOut(lines: seq<string>, i: nat, fullText: string, tasks: seq<Task>, currentPos: nat)
    requires i <= |lines|
  {
    && fullText == FullText(Parsed(lines)[..i]) && tasks == Tasks(Parsed(lines)[..i])
    && currentPos == 1 + |fullText|
  }

  /** One iteration of the layout loop places line `i` after the lines before it. */
  lemma LayOutStep(lines: seq<string>, i: nat, row: Line, fullText: string, tasks: seq<Task>, currentPos: nat)
    requires i < |lines| && row == Parsed(lines)[i]
    requires LaidOut(lines, i, fullText, tasks, currentPos)
    ensures var finalLine := row.clean + "\n";
      LaidOut(lines, i + 1, fullText + finalLine,
        tasks + [Task(currentPos, currentPos + |finalLine|, row.style, row.bullet, row.level, row.quote, row.bolds)],
        currentPos + |finalLine|)
  {
    PlaceLine(Parsed(lines)[..i], row, currentPos);
    TakeSnoc(Parsed(lines), i);
  }

  /** The layout loop of `push`: parses every line, extracts its bold ranges and advances `current_pos`. */
  method LayOut(lines: seq<string>) returns (fullText: string, tasks: seq<Task>, currentPos: nat)
    ensures fullText == FullText(Parsed(lines)) && tasks == Tasks(Parsed(lines))
    ensures currentPos == 1 + |fullText|
  {
    fullText, tasks, currentPos := "", [], 1;
    for i := 0 to |lines|
      invariant LaidOut(lines, i, fullText, tasks, currentPos)
    {
      var row := ParseRow(lines, i);
      var finalLine := row.clean + "\n";
      LayOutStep(lines, i, row, fullText, tasks, currentPos);
      tasks := tasks + [Task(currentPos, currentPos + |finalLine|, row.style, row.bullet, row.level, row.quote, row.bolds)];
      fullText := fullText + finalLine;
      currentPos := currentPos + |finalLine|;
    }
    TakeAll(Parsed(lines));
  }

  /** The task of line `k` is that line's task placed right after the text of the lines before it. */
  lemma {:induction false} TaskOfLine(rows: seq<Line>, n: nat, k: nat)
    requires k < n <= |rows|
    ensures TasksUpTo(rows, n)[k] == TaskAt(rows[k], 1 + |TextUpTo(rows, k)|)
    decreases n
  {
    if k < n - 1 {
      TaskOfLine(rows, n - 1, k);
    }
  }

  /** The text after `k` lines is a prefix of the text after `n >= k` lines. */
  lemma {:induction false} TextPrefix(rows: seq<Line>, k: nat, n: nat)
    requires k <= n <= |rows|
    ensures |TextUpTo(rows, k)| <= |TextUpTo(rows, n)|
    ensures TextUpTo(rows, n)[..|TextUpTo(rows, k)|] == TextUpTo(rows, k)
    decreases n
  {
    if k < n {
      TextPrefix(rows, k, n - 1);
      var a, b := TextUpTo(rows, k), TextUpTo(rows, n - 1);
      assert TextUpTo(rows, n)[..|b|] == b;
      assert TextUpTo(rows, n)[..|a|] == b[..|a|];
    }
  }

  /** Line `k`'s paragraph sits in the text right after the text of the lines before it. */
  lemma ParagraphAt(rows: seq<Line>, k: nat)
    requires k < |rows|
    ensures |TextUpTo(rows, k + 1)| <= |FullText(rows)|
    ensures FullText(rows)[|TextUpTo(rows, k)|..|TextUpTo(rows, k + 1)|] == Paragraph(rows[k])
  {
    TextPrefix(rows, k + 1, |rows|);
    var a, b := TextUpTo(rows, k), TextUpTo(rows, k + 1);
    assert FullText(rows)[|a|..|b|] == b[|a|..];
  }

  /**
   * The layout is contiguous from document index 1: the first task starts at 1, each task
   * ends `len(clean_line) + 1` after its start, each next task starts at the previous end,
   * and the last ends at `1 + len(full_text)`.
   */
  lemma Layout(rows: seq<Line>)
    ensures |rows| > 0 ==> Tasks(rows)[0].start == 1
    ensures |rows| > 0 ==> Tasks(rows)[|rows| - 1].end == 1 + |FullText(rows)|
    ensures forall k :: 0 <= k < |rows| ==> Tasks(rows)[k].end == Tasks(rows)[k].start + |rows[k].clean| + 1
    ensures forall k :: 0 <= k < |rows| - 1 ==> Tasks(rows)[k + 1].start == Tasks(rows)[k].end
  {
    var n := |rows|;
    forall k | 0 <= k < n
      ensures Tasks(rows)[k].end == Tasks(rows)[k].start + |rows[k].clean| + 1
    {
      TaskOfLine(rows, n, k);
    }
    forall k | 0 <= k < n - 1
      ensures Tasks(rows)[k + 1].start == Tasks(rows)[k].end
    {
      TaskOfLine(rows, n, k);
      TaskOfLine(rows, n, k + 1);
    }
    if n > 0 {
      TaskOfLine(rows, n, 0);
      TaskOfLine(rows, n, n - 1);
    }
  }

  /** Each task's range lies in the inserted text and holds its cleaned line and a newline. */
  lemma LayoutText(rows: seq<Line>)
    ensures forall k :: 0 <= k < |rows| ==>
      1 <= Tasks(rows)[k].start < Tasks(rows)[k].end <= 1 + |FullText(rows)| &&
      FullText(rows)[Tasks(rows)[k].start - 1..Tasks(rows)[k].end - 1] == rows[k].clean + "\n"
  {
    forall k | 0 <= k < |rows|
      ensures 1 <= Tasks(rows)[k].start < Tasks(rows)[k].end <= 1 + |FullText(rows)|
      ensures FullText(rows)[Tasks(rows)[k].start - 1..Tasks(rows)[k].end - 1] == rows[k].clean + "\n"
    {
      TaskOfLine(rows, |rows|, k);
      ParagraphAt(rows, k);
    }
  }

  /** A `(startIndex, endIndex)` range of the document. */
  datatype Range = Range(startIndex: nat, endIndex: nat)

  /** The `batchUpdate` requests that `push` builds. */
  datatype Request =
    | NamedStyleRequest(range: Range, style: NamedStyle)
      // `updateParagraphStyle` of `namedStyleType`
    | IndentRequest(range: Range, indentStart: nat, indentFirstLine: nat)
      // `updateParagraphStyle` of `indentStart` and `indentFirstLine`, in points
    | BulletRequest(range: Range, preset: string)
      // `createParagraphBullets`
    | BoldRequest(range: Range)
      // `updateTextStyle` with `bold: True`

  const BulletPreset: string := "BULLET_DISC_CIRCLE_SQUARE"

  /** The indentation of a quoted paragraph, in points, for its start and its first line. */
  const QuoteIndent: nat := 36

  /** `text_pos` of a bullet at `level`: 36 points, 18 more per level. */
  function BulletTextPos(level: nat): nat {
    36 + 18 * level
  }

  /**
   * `bullet_pos`: the bullet mark sits 18 points left of the text, so a bullet at `level` has its
   * mark 18 points in per level, one level deeper than where its text starts.
   */
  function BulletMarkPos(level: nat): (r: nat)
    ensures r + 18 == BulletTextPos(level)
    ensures r == 18 * (level + 1)
    ensures level > 0 ==> r == BulletTextPos(level - 1)
  {
    BulletTextPos(level) - 18
  }

  /** The paragraph requests of a task: its named style, its quote indent, its bullet and bullet indent. */
  function ParagraphRequests(t: Task): seq<Request> {
    var range := Range(t.start, t.end);
    (if t.style != NormalText then [NamedStyleRequest(range, t.style)] else [])
    + (if t.quote then [IndentRequest(range, QuoteIndent, QuoteIndent)] else [])
    + (if t.bullet then
         [BulletRequest(range, BulletPreset), IndentRequest(range, BulletTextPos(t.level), BulletMarkPos(t.level))]
       else [])
  }

  /** The bold requests of the first `n` ranges of a paragraph starting at `s`: non-empty ranges only, in order. */
  function BoldRequests(s: nat, bolds: seq<Span>, n: nat): seq<Request>
    requires n <= |bolds|
  {
    if n == 0 then []
    else
      var b := bolds[n - 1];
      BoldRequests(s, bolds, n - 1)
      + (if s + b.hi > s + b.lo then [BoldRequest(Range(s + b.lo, s + b.hi))] else [])
  }

  /** The requests of one task: its paragraph requests, then one per non-empty bold range. */
  function TaskRequests(t: Task): seq<Request> {
    ParagraphRequests(t) + BoldRequests(t.start, t.bolds, |t.bolds|)
  }

  /** `requests` after the first `n` tasks. */
  function RequestsUpTo(tasks: seq<Task>, n: nat): seq<Request>
    requires n <= |tasks|
  {
    if n == 0 then [] else RequestsUpTo(tasks, n - 1) + TaskRequests(tasks[n - 1])
  }

  /** `requests`: the requests of every task, task by task. */
  function AllRequests(tasks: seq<Task>): seq<Request> {
    RequestsUpTo(tasks, |tasks|)
  }

  /** One more task appends its paragraph requests and then its bold requests. */
  lemma RequestsStep(tasks: seq<Task>, i: nat)
    requires i < |tasks|
    ensures RequestsUpTo(tasks, i + 1) ==
      (RequestsUpTo(tasks, i) + ParagraphRequests(tasks[i])) + BoldRequests(tasks[i].start, tasks[i].bolds, |tasks[i].bolds|)
  {
  }

  /** One more bold range appends its request when it is non-empty. */
  lemma BoldStep(s: nat, bolds: seq<Span>, j: nat, before: seq<Request>)
    requires j < |bolds|
    ensures before + BoldRequests(s, bolds, j + 1) ==
      (before + BoldRequests(s, bolds, j))
      + (if s + bolds[j].hi > s + bolds[j].lo then [BoldRequest(Range(s + bolds[j].lo, s + bolds[j].hi))] else [])
  {
  }

  /** The inner loop of the request builder: one `updateTextStyle` per non-empty bold range of a paragraph at `s`. */
  method AppendBoldRequests(requests: seq<Request>, s: nat, bolds: seq<Span>) returns (r: seq<Request>)
    ensures r == requests + BoldRequests(s, bolds, |bolds|)
  {
    r := requests;
    for j := 0 to |bolds|
      invariant r == requests + BoldRequests(s, bolds, j)
    {
      var b := bolds[j];
      BoldStep(s, bolds, j, requests);
      if s + b.hi > s + b.lo {
        r := r + [BoldRequest(Range(s + b.lo, s + b.hi))];
      }
    }
  }

  /** The paragraph requests of one task, in the order `push` appends them. */
  method AppendParagraphRequests(requests: seq<Request>, t: Task) returns (r: seq<Request>)
    ensures r == requests + ParagraphRequests(t)
  {
    var s, e := t.start, t.end;
    r := requests;
    if t.style != NormalText {
      r := r + [NamedStyleRequest(Range(s, e), t.style)];
    }
    if t.quote {
      r := r + [IndentRequest(Range(s, e), QuoteIndent, QuoteIndent)];
    }
    if t.bullet {
      r := r + [BulletRequest(Range(s, e), BulletPreset)];
      var textPos := 36 + 18 * t.level;
      var bulletPos := textPos - 18;
      r := r + [IndentRequest(Range(s, e), textPos, bulletPos)];
    }
  }

  /** The request-building loop of `push`. */
  method BuildRequests(tasks: seq<Task>) returns (requests: seq<Request>)
    ensures requests == AllRequests(tasks)
  {
    requests := [];
    for i := 0 to |tasks|
      invariant requests == RequestsUpTo(tasks, i)
    {
      var t := tasks[i];
      requests := AppendParagraphRequests(requests, t);
      requests := AppendBoldRequests(requests, t.start, t.bolds);
      RequestsStep(tasks, i);
    }
  }

  /** A bold request is made for exactly the recorded ranges with end > start, shifted to the paragraph start. */
  lemma {:induction false} BoldRequestsExact(s: nat, bolds: seq<Span>, n: nat)
    requires n <= |bolds|
    ensures forall r :: r in BoldRequests(s, bolds, n) <==>
      exists j :: 0 <= j < n && bolds[j].hi > bolds[j].lo && r == BoldRequest(Range(s + bolds[j].lo, s + bolds[j].hi))
    decreases n
  {
    if n > 0 {
      BoldRequestsExact(s, bolds, n - 1);
    }
  }

  /**
   * Every request of a laid-out line is a non-empty range inside that line's paragraph, and
   * every bold request stays inside the cleaned text, before the paragraph's newline.
   */
  lemma TaskRequestsInside(l: Line, start: nat)
    requires WellFormed(l)
    ensures var t := TaskAt(l, start);
      forall r :: r in TaskRequests(t) ==>
        start <= r.range.startIndex < r.range.endIndex <= t.end
        && (r.BoldRequest? ==> r.range.endIndex < t.end)
  {
    SpansWithinMeans(l.bolds, |l.clean|);
    BoldRequestsExact(start, l.bolds, |l.bolds|);
  }

  /** The requests of line `k` are non-empty ranges inside the inserted text `[1, 1 + len(full_text)]`. */
  lemma LineRequestsInside(rows: seq<Line>, k: nat)
    requires k < |rows| && WellFormed(rows[k])
    ensures forall r :: r in TaskRequests(Tasks(rows)[k]) ==>
      1 <= r.range.startIndex < r.range.endIndex <= 1 + |FullText(rows)|
  {
    var start := 1 + |TextUpTo(rows, k)|;
    TaskOfLine(rows, |rows|, k);
    TaskRequestsInside(rows[k], start);
    TextPrefix(rows, k + 1, |rows|);
    assert TaskAt(rows[k], start).end <= 1 + |FullText(rows)|;
  }

  /** Every request among those of the first `n` tasks is a request of one of them. */
  lemma {:induction false} RequestOfTask(tasks: seq<Task>, n: nat, r: Request) returns (k: nat)
    requires n <= |tasks| && r in RequestsUpTo(tasks, n)
    ensures k < n && r in TaskRequests(tasks[k])
    decreases n
  {
    if r in TaskRequests(tasks[n - 1]) {
      k := n - 1;
    } else {
      k := RequestOfTask(tasks, n - 1, r);
    }
  }

  /** Every request built for a document is a non-empty range inside the inserted text `[1, 1 + len(full_text)]`. */
  lemma RequestsInsideDocument(rows: seq<Line>)
    requires forall k :: 0 <= k < |rows| ==> WellFormed(rows[k])
    ensures forall r :: r in AllRequests(Tasks(rows)) ==>
      1 <= r.range.startIndex < r.range.endIndex <= 1 + |FullText(rows)|
  {
    forall r | r in AllRequests(Tasks(rows))
      ensures 1 <= r.range.startIndex < r.range.endIndex <= 1 + |FullText(rows)|
    {
      var k := RequestOfTask(Tasks(rows), |rows|, r);
      LineRequestsInside(rows, k);
    }
  }

  /** The number of requests sent in one `batchUpdate`. */
  const BatchSize: nat := 50

  /** The chunks, concatenated in order. */
  function Flatten<T>(chunks: seq<seq<T>>): seq<T> {
    if chunks == [] then []
    else Flatten(chunks[..|chunks| - 1]) + chunks[|chunks| - 1]
  }

  /** A count between `BatchSize * c` (exclusive) and `BatchSize * (c + 1)` fills `c + 1` chunks. */
  lemma ChunkCount(c: nat, n: nat)
    requires BatchSize * c < n <= BatchSize * (c + 1)
    ensures (n + BatchSize - 1) / BatchSize == c + 1
  {
  }

  /**
   * The batching loop of `push`: `requests[i:i+50]` for `i` in `range(0, len(requests), 50)`.
   * The chunks are consecutive, non-empty, all full but the last, and together the requests.
   */
  method Batches<T>(requests: seq<T>) returns (chunks: seq<seq<T>>)
    ensures Flatten(chunks) == requests
    ensures |chunks| == (|requests| + BatchSize - 1) / BatchSize
    ensures forall k :: 0 <= k < |chunks| ==> 1 <= |chunks[k]| <= BatchSize
    ensures forall k :: 0 <= k < |chunks| - 1 ==> |chunks[k]| == BatchSize
  {
    chunks := [];
    var i := 0;
    while i < |requests|
      invariant i <= |requests| && Flatten(chunks) == requests[..i]
      invariant |chunks| == (i + BatchSize - 1) / BatchSize
      invariant forall k :: 0 <= k < |chunks| ==> 1 <= |chunks[k]| <= BatchSize
      invariant i < |requests| ==> i == BatchSize * |chunks| && forall k :: 0 <= k < |chunks| ==> |chunks[k]| == BatchSize
      invariant forall k :: 0 <= k < |chunks| - 1 ==> |chunks[k]| == BatchSize
      decreases |requests| - i
    {
      var j := if i + BatchSize <= |requests| then i + BatchSize else |requests|;
      ghost var done := chunks;
      chunks := chunks + [requests[i..j]];
      assert chunks[..|done|] == done;
      assert requests[..j] == requests[..i] + requests[i..j];
      ChunkCount(|done|, j);
      i := j;
    }
    assert requests[..|requests|] == requests;
  }

  /**
   * The part of `push` between reading the file and calling the API: the text inserted at
   * index 1, and the style requests in batches that together are every request built for it.
   */
  method Push(content: string) returns (fullText: string, batches: seq<seq<Request>>)
    ensures fullText == FullText(Parsed(SplitLines(content)))
    ensures Flatten(batches) == AllRequests(Tasks(Parsed(SplitLines(content))))
    ensures forall k :: 0 <= k < |batches| ==> 1 <= |batches[k]| <= BatchSize
  {
    var lines := SplitLines(content);
    var tasks, currentPos;
    fullText, tasks, currentPos := LayOut(lines);
    var requests := BuildRequests(tasks);
    batches := Batches(requests);
  }
}
