/**
 * The per-line pass of `push` in `docs_sync.py`: how one Markdown line is classified
 * (quote, heading, bullet) and how its `**bold**` spans are turned into offset ranges
 * over the cleaned text.
 */
module LineParse {
  import opened Wrappers
  import opened PyStr

  /** The Google Docs named paragraph styles that the sync reads or writes. */
  datatype NamedStyle = NormalText | Title | Subtitle | Heading(level: nat)

  /**
   * A line after its markers are removed: the paragraph style, the bullet flag and level,
   * the quote flag, and the remaining text (`temp_line` before bold extraction).
   */
  datatype LineShape = LineShape(style: NamedStyle, bullet: bool, level: nat, quote: bool, text: string)

  /** `line.startswith('> ')` */
  predicate QuoteMarker(line: string) {
    |line| >= 2 && line[0] == '>' && line[1] == ' '
  }

  /** The line without its `> ` quote prefix, when it has one. */
  function QuoteBody(line: string): string {
    if QuoteMarker(line) then line[2..] else line
  }

  /** `re.match(r'^(#+)\s', body)` succeeds; its group is the `LeadingRun(body, '#')` leading `#`s. */
  predicate HeadingMarker(body: string) {
    var n := LeadingRun(body, '#');
    1 <= n < |body| && IsSpace(body[n])
  }

  /** `s.startswith(('* ', '- '))` */
  predicate BulletMarker(s: string) {
    |s| >= 2 && (s[0] == '*' || s[0] == '-') && s[1] == ' '
  }

  /**
   * Classifies one line. A `> ` prefix marks a quote and is removed; then `#`×n and one
   * whitespace character make a heading of level n when n <= 6 (a deeper heading leaves
   * the line as it is and is not looked at as a bullet); otherwise an unquoted line whose
   * left-stripped form starts with `* ` or `- ` is a bullet nested (stripped characters) / 2 deep.
   */
  function ParseLine(line: string): (r: LineShape)
    ensures r.quote <==> QuoteMarker(line)
    ensures r.quote ==> !r.bullet
    ensures !r.bullet ==> r.level == 0
    ensures r.style == NormalText || r.style.Heading?
    ensures !r.bullet && !r.style.Heading? ==> r.text == QuoteBody(line)
  {
    var quote := QuoteMarker(line);
    var body := if quote then line[2..] else line;
    var n := LeadingRun(body, '#');
    if HeadingMarker(body) then
      if n <= 6 then LineShape(Heading(n), false, 0, quote, body[n + 1..])
      else LineShape(NormalText, false, 0, quote, body)
    else
      var stripped := LStrip(body);
      if !quote && BulletMarker(stripped) then
        var k := |body| - |stripped|;
        LineShape(NormalText, true, k / 2, false, stripped[2..])
      else LineShape(NormalText, false, 0, quote, body)
  }

  /**
   * A heading is recognised exactly when the (unquoted) body starts with 1 to 6 `#` and a
   * whitespace character; the text is what follows that character.
   */
  lemma ParseLineHeading(line: string)
    ensures ParseLine(line).style.Heading? <==>
      HeadingMarker(QuoteBody(line)) && LeadingRun(QuoteBody(line), '#') <= 6
    ensures ParseLine(line).style.Heading? ==>
      var r, body := ParseLine(line), QuoteBody(line);
      var n := r.style.level;
      && !r.bullet && 1 <= n <= 6 && n < |body| && IsSpace(body[n])
      && body == RepeatChar('#', n) + [body[n]] + r.text
  {
    var body := QuoteBody(line);
    var n := LeadingRun(body, '#');
    if HeadingMarker(body) && n <= 6 {
      LeadingRunAll(body, '#');
      assert body == body[..n] + [body[n]] + body[n + 1..];
      assert body[..n] == RepeatChar('#', n);
    }
  }

  /** A run of more than six `#` is neither a heading nor a bullet: the line is kept as it is. */
  lemma ParseLineDeepHeading(line: string)
    requires HeadingMarker(QuoteBody(line)) && LeadingRun(QuoteBody(line), '#') > 6
    ensures ParseLine(line) == LineShape(NormalText, false, 0, QuoteMarker(line), QuoteBody(line))
  {
  }

  /** A string is its prefix before a suffix `t`, the first `n` characters of `t` and the rest of `t`. */
  lemma SuffixSplit(s: string, t: string, n: nat)
    requires |t| <= |s| && t == s[|s| - |t|..] && n <= |t|
    ensures s == s[..|s| - |t|] + t[..n] + t[n..]
  {
    assert t == t[..n] + t[n..];
  }

  /** A bullet is an unquoted line that is not a heading and whose left-stripped form starts with `* ` or `- `. */
  lemma ParseLineBullet(line: string)
    ensures ParseLine(line).bullet <==>
      !QuoteMarker(line) && !HeadingMarker(line) && BulletMarker(LStrip(line))
  {
    if QuoteMarker(line) || HeadingMarker(line) {
      assert !ParseLine(line).bullet;
    }
  }

  /**
   * A bullet's level is half the number of stripped whitespace characters, and the line is
   * those characters, the marker and the text.
   */
  lemma ParseLineBulletShape(line: string)
    requires ParseLine(line).bullet
    ensures var r, k := ParseLine(line), |line| - |LStrip(line)|;
      && r.level == k / 2 && r.style == NormalText
      && (forall i :: 0 <= i < k ==> IsSpace(line[i]))
      && line == line[..k] + LStrip(line)[..2] + r.text
  {
    var stripped := LStrip(line);
    ParseLineBullet(line);
    assert ParseLine(line) == LineShape(NormalText, true, (|line| - |stripped|) / 2, false, stripped[2..]);
    LStripSuffix(line);
    SuffixSplit(line, stripped, 2);
  }

  /** `**` starts at `j`. */
  predicate StarsAt(s: string, j: int) {
    0 <= j && j + 2 <= |s| && s[j] == '*' && s[j + 1] == '*'
  }

  /** `\*\*(.*?)\*\*` can match `s[p .. q + 2]`, with group `s[p + 2 .. q]` (lines hold no `\n`). */
  predicate MatchAt(s: string, p: int, q: int) {
    p + 2 <= q && StarsAt(s, p) && StarsAt(s, q)
  }

  /** The first `**` at or after `i`. */
  function FindStars(s: string, i: nat): (r: Option<nat>)
    requires i <= |s|
    ensures r.Some? ==> i <= r.value && r.value + 2 <= |s|
    decreases |s| - i
  {
    if i + 2 > |s| then None
    else if StarsAt(s, i) then Some(i)
    else FindStars(s, i + 1)
  }

  /** `FindStars` finds the first `**`, and finds none only when there is none. */
  lemma {:induction false} FindStarsFirst(s: string, i: nat)
    requires i <= |s|
    ensures FindStars(s, i).None? ==> forall j :: i <= j ==> !StarsAt(s, j)
    ensures FindStars(s, i).Some? ==> StarsAt(s, FindStars(s, i).value)
    ensures FindStars(s, i).Some? ==> forall j :: i <= j < FindStars(s, i).value ==> !StarsAt(s, j)
    decreases |s| - i
  {
    if i + 2 <= |s| && !StarsAt(s, i) {
      FindStarsFirst(s, i + 1);
    }
  }

  /** The next match `re.finditer` yields when the previous one ended at `i`. */
  function NextMatch(s: string, i: nat): (r: Option<(nat, nat)>)
    requires i <= |s|
    ensures r.Some? ==> i <= r.value.0 && r.value.0 + 2 <= r.value.1 && r.value.1 + 2 <= |s|
  {
    match FindStars(s, i)
    case None => None
    case Some(p) =>
      match FindStars(s, p + 2)
      case None => None
      case Some(q) => Some((p, q))
  }

  /**
   * `NextMatch` follows the regex engine: the leftmost start, then the shortest group (the lazy
   * `.*?`); and no match is reported only when no match starts at or after `i`.
   */
  lemma NextMatchLeftmostShortest(s: string, i: nat)
    requires i <= |s|
    ensures NextMatch(s, i).None? ==> forall p, q :: i <= p ==> !MatchAt(s, p, q)
    ensures NextMatch(s, i).Some? ==>
      var (p, q) := NextMatch(s, i).value;
      && MatchAt(s, p, q)
      && (forall p', q' :: i <= p' < p ==> !MatchAt(s, p', q'))
      && (forall q' :: p + 2 <= q' < q ==> !StarsAt(s, q'))
  {
    FindStarsFirst(s, i);
    var first := FindStars(s, i);
    if first.Some? {
      FindStarsFirst(s, first.value + 2);
    }
  }

  /** What `NextMatch` reports is a match of `\*\*(.*?)\*\*`. */
  lemma NextMatchAt(s: string, i: nat)
    requires i <= |s| && NextMatch(s, i).Some?
    ensures MatchAt(s, NextMatch(s, i).value.0, NextMatch(s, i).value.1)
  {
    FindStarsFirst(s, i);
    FindStarsFirst(s, FindStars(s, i).value + 2);
  }

  /** One match of `finditer`: the text between the previous match and this one, and the group. */
  datatype Piece = Piece(plain: string, bold: string)

  /** The matches `re.finditer` yields over `s[i..]`, in order. */
  function Pieces(s: string, i: nat): seq<Piece>
    requires i <= |s|
    decreases |s| - i
  {
    match NextMatch(s, i)
    case None => []
    case Some((p, q)) => [Piece(s[i..p], s[p + 2..q])] + Pieces(s, q + 2)
  }

  /** What follows the last match (`temp_line[last_idx:]` after the loop). */
  function TailFrom(s: string, i: nat): string
    requires i <= |s|
    decreases |s| - i
  {
    match NextMatch(s, i)
    case None => s[i..]
    case Some((p, q)) => TailFrom(s, q + 2)
  }

  /** The text the pieces were cut from, delimiters included. */
  function Marked(ps: seq<Piece>): string {
    if ps == [] then ""
    else
      var x := ps[|ps| - 1];
      Marked(ps[..|ps| - 1]) + x.plain + "**" + x.bold + "**"
  }

  lemma {:induction false} MarkedAppend(a: seq<Piece>, b: seq<Piece>)
    ensures Marked(a + b) == Marked(a) + Marked(b)
    decreases |b|
  {
    if b != [] {
      assert (a + b)[..|a + b| - 1] == a + b[..|b| - 1];
      MarkedAppend(a, b[..|b| - 1]);
    } else {
      assert a + b == a;
    }
  }

  /** A match cuts the text into what precedes it, its delimiters, its group and what follows. */
  lemma MatchSplits(s: string, i: nat, p: nat, q: nat)
    requires i <= p && MatchAt(s, p, q)
    ensures s[i..] == s[i..p] + "**" + s[p + 2..q] + "**" + s[q + 2..]
  {
    assert s[p..p + 2] == "**" && s[q..q + 2] == "**";
    assert s[i..] == s[i..p] + s[p..p + 2] + s[p + 2..q] + s[q..q + 2] + s[q + 2..];
  }

  /** Prepending a piece to marked pieces prepends its plain text, its delimiters and its group. */
  lemma MarkedCons(ps: seq<Piece>, t: string, whole: string, x: Piece, rest: seq<Piece>, tail: string, after: string)
    requires ps == [x] + rest && t == tail
    requires Marked(rest) + tail == after
    requires whole == x.plain + "**" + x.bold + "**" + after
    ensures Marked(ps) + t == whole
  {
    MarkedAppend([x], rest);
    assert [x][..0] == [];
    var head := x.plain + "**" + x.bold + "**";
    assert Marked([x]) == head;
    assert Marked(ps) + t == head + (Marked(rest) + tail);
  }

  /** One match: `Pieces` and `TailFrom` each take one step over it. */
  lemma PiecesStep(s: string, i: nat, p: nat, q: nat)
    requires i <= |s| && NextMatch(s, i) == Some((p, q))
    ensures q + 2 <= |s|
    ensures Pieces(s, i) == [Piece(s[i..p], s[p + 2..q])] + Pieces(s, q + 2)
    ensures TailFrom(s, i) == TailFrom(s, q + 2)
  {
    TailStep(s, i, p, q);
  }

  lemma TailStep(s: string, i: nat, p: nat, q: nat)
    requires i <= |s| && NextMatch(s, i) == Some((p, q))
    ensures q + 2 <= |s|
    ensures TailFrom(s, i) == TailFrom(s, q + 2)
  {
  }

  /** One match, whose second `**` ends at `j`: `Pieces` and `TailFrom` step from `i` to `j`. */
  lemma PiecesStepAt(s: string, i: nat, p: nat, q: nat, j: nat)
    requires i <= |s| && NextMatch(s, i) == Some((p, q)) && j == q + 2
    ensures j <= |s|
    ensures Pieces(s, i) == [Piece(s[i..p], s[p + 2..q])] + Pieces(s, j)
    ensures TailFrom(s, i) == TailFrom(s, j)
  {
    PiecesStep(s, i, p, q);
  }

  /** The text from `i` is the text before the match there, its delimiters and group, and the text from `j` on. */
  lemma MatchTextAt(s: string, i: nat, p: nat, q: nat, j: nat)
    requires i <= |s| && NextMatch(s, i) == Some((p, q)) && j == q + 2
    ensures j <= |s|
    ensures s[i..] == s[i..p] + "**" + s[p + 2..q] + "**" + s[j..]
  {
    NextMatchAt(s, i);
    MatchSplits(s, i, p, q);
  }

  /** The step of `PiecesMarked` over one match, given the result for the text from `j`, where the match ends. */
  lemma PiecesMarkedStep(s: string, i: nat, p: nat, q: nat, j: nat)
    requires i <= |s| && NextMatch(s, i) == Some((p, q)) && j == q + 2
    requires j <= |s| && Marked(Pieces(s, j)) + TailFrom(s, j) == s[j..]
    ensures Marked(Pieces(s, i)) + TailFrom(s, i) == s[i..]
  {
    PiecesStepAt(s, i, p, q, j);
    MatchTextAt(s, i, p, q, j);
    MarkedCons(Pieces(s, i), TailFrom(s, i), s[i..], Piece(s[i..p], s[p + 2..q]), Pieces(s, j), TailFrom(s, j), s[j..]);
  }

  /** `PiecesMarked` at a match. */
  lemma {:induction false} PiecesMarkedSome(s: string, i: nat, p: nat, q: nat)
    requires i <= |s| && NextMatch(s, i) == Some((p, q))
    ensures Marked(Pieces(s, i)) + TailFrom(s, i) == s[i..]
    decreases |s| - i, 0
  {
    var j := q + 2;
    PiecesMarked(s, j);
    PiecesMarkedStep(s, i, p, q, j);
  }

  /** `PiecesMarked` where no match is left: the tail is the whole rest of the line. */
  lemma PiecesMarkedNone(s: string, i: nat)
    requires i <= |s| && NextMatch(s, i).None?
    ensures Marked(Pieces(s, i)) + TailFrom(s, i) == s[i..]
  {
  }

  /** The matches and the text after them make up the whole line: `finditer` skips nothing. */
  lemma {:induction false} PiecesMarked(s: string, i: nat)
    requires i <= |s|
    ensures Marked(Pieces(s, i)) + TailFrom(s, i) == s[i..]
    decreases |s| - i, 1
  {
    var m := NextMatch(s, i);
    if m.Some? {
      PiecesMarkedSome(s, i, m.value.0, m.value.1);
    } else {
      PiecesMarkedNone(s, i);
    }
  }

  /** A bold range `(start, end)` over the cleaned text. */
  datatype Span = Span(lo: nat, hi: nat)

  /** The cleaned text of a line and the bold ranges recorded over it. */
  datatype Bolded = Bolded(clean: string, spans: seq<Span>)

  /** The spans lie in `[0, hi]` one after another: each starts no earlier than the previous one ends. */
  predicate SpansWithin(spans: seq<Span>, hi: nat)
    decreases |spans|
  {
    spans == [] ||
      var x := spans[|spans| - 1];
      x.lo <= x.hi <= hi && SpansWithin(spans[..|spans| - 1], x.lo)
  }

  /** What `SpansWithin` means span by span: inside `[0, hi]`, each with start <= end, ascending and disjoint. */
  lemma {:induction false} SpansWithinMeans(spans: seq<Span>, hi: nat)
    requires SpansWithin(spans, hi)
    ensures forall k :: 0 <= k < |spans| ==> spans[k].lo <= spans[k].hi <= hi
    ensures forall j, k :: 0 <= j < k < |spans| ==> spans[j].hi <= spans[k].lo
    decreases |spans|
  {
    if spans != [] {
      var n := |spans| - 1;
      var init := spans[..n];
      SpansWithinMeans(init, spans[n].lo);
      forall k | 0 <= k < |spans|
        ensures spans[k].lo <= spans[k].hi <= hi
      {
        if k < n { assert spans[k] == init[k]; }
      }
      forall j, k | 0 <= j < k < |spans|
        ensures spans[j].hi <= spans[k].lo
      {
        assert spans[j] == init[j];
        if k < n { assert spans[k] == init[k]; }
      }
    }
  }

  /** `SpansWithin` only bounds the last span from above, so a larger bound keeps it. */
  lemma SpansWithinWiden(spans: seq<Span>, hi: nat, hi': nat)
    requires SpansWithin(spans, hi) && hi <= hi'
    ensures SpansWithin(spans, hi')
  {
  }

  /** `clean_line` after the pieces: each contributes its plain text and its group. */
  function CleanText(ps: seq<Piece>): string {
    if ps == [] then ""
    else
      var x := ps[|ps| - 1];
      CleanText(ps[..|ps| - 1]) + x.plain + x.bold
  }

  /** `bold_ranges` after the pieces: each group's `(len(clean_line), len(clean_line) + len(group))`. */
  function SpansOf(ps: seq<Piece>): (r: seq<Span>)
    ensures |r| == |ps|
  {
    if ps == [] then []
    else
      var x := ps[|ps| - 1];
      var before := CleanText(ps[..|ps| - 1]) + x.plain;
      SpansOf(ps[..|ps| - 1]) + [Span(|before|, |before| + |x.bold|)]
  }

  /** Every recorded range covers its group in `CleanText(ps) + tail`. */
  predicate CoversGroups(ps: seq<Piece>, tail: string) {
    forall k :: 0 <= k < |ps| ==>
      && SpansOf(ps)[k].lo <= SpansOf(ps)[k].hi <= |CleanText(ps) + tail|
      && SpansOf(ps)[k].hi - SpansOf(ps)[k].lo == |ps[k].bold|
      && (CleanText(ps) + tail)[SpansOf(ps)[k].lo..SpansOf(ps)[k].hi] == ps[k].bold
  }

  lemma AppendAssoc4(a: string, b: string, c: string, d: string)
    ensures a + b + c + d == a + (b + c + d)
  {
  }

  /** The step of `SpansCoverGroups` over the last piece `x`, given the result for the pieces `init` before it. */
  lemma SpansCoverGroupsStep(init: seq<Piece>, x: Piece, tail: string, after: string)
    requires after == x.plain + x.bold + tail
    requires CoversGroups(init, after)
    ensures CoversGroups(init + [x], tail)
  {
    var ps := init + [x];
    var ci := CleanText(init);
    var whole := CleanText(ps) + tail;
    PushPiece(init, x);
    AppendAssoc4(ci, x.plain, x.bold, tail);
    assert whole == ci + after;
    forall k | 0 <= k < |ps|
      ensures SpansOf(ps)[k].lo <= SpansOf(ps)[k].hi <= |whole|
      ensures SpansOf(ps)[k].hi - SpansOf(ps)[k].lo == |ps[k].bold|
      ensures whole[SpansOf(ps)[k].lo..SpansOf(ps)[k].hi] == ps[k].bold
    {
      if k < |init| {
        assert SpansOf(ps)[k] == SpansOf(init)[k] && ps[k] == init[k];
      } else {
        var lo := |ci + x.plain|;
        assert SpansOf(ps)[k] == Span(lo, lo + |x.bold|);
        assert whole[lo..lo + |x.bold|] == x.bold;
      }
    }
  }

  /** Each recorded range covers exactly its match's group in the cleaned line, and is as long as the group. */
  lemma {:induction false} SpansCoverGroups(ps: seq<Piece>, tail: string)
    ensures CoversGroups(ps, tail)
    decreases |ps|
  {
    if ps != [] {
      var init, x := ps[..|ps| - 1], ps[|ps| - 1];
      var after := x.plain + x.bold + tail;
      assert ps == init + [x];
      SpansCoverGroups(init, after);
      SpansCoverGroupsStep(init, x, tail, after);
    }
  }

  /** The inverse of bold extraction: `**` put back around every span of `clean`. */
  function Rebold(clean: string, spans: seq<Span>): string
    requires SpansWithin(spans, |clean|)
    decreases |spans|
  {
    if spans == [] then clean
    else
      var x := spans[|spans| - 1];
      Rebold(clean[..x.lo], spans[..|spans| - 1]) + "**" + clean[x.lo..x.hi] + "**" + clean[x.hi..]
  }

  lemma ReboldLast(clean: string, spans: seq<Span>, init: string, x: Piece, tail: string, initSpans: seq<Span>)
    requires SpansWithin(initSpans, |init|)
    requires clean == init + x.plain + x.bold + tail
    requires spans == initSpans + [Span(|init + x.plain|, |init + x.plain| + |x.bold|)]
    ensures SpansWithin(spans, |clean|)
    ensures Rebold(clean, spans) == Rebold(init + x.plain, initSpans) + "**" + x.bold + "**" + tail
  {
    var lo, hi := |init + x.plain|, |init + x.plain| + |x.bold|;
    assert spans[..|spans| - 1] == initSpans;
    SpansWithinWiden(initSpans, |init|, lo);
    assert clean[..lo] == init + x.plain;
    assert clean[lo..hi] == x.bold;
    assert clean[hi..] == tail;
  }

  /** The recorded ranges lie one after another inside the cleaned text. */
  lemma {:induction false} SpansOfWithin(ps: seq<Piece>)
    ensures SpansWithin(SpansOf(ps), |CleanText(ps)|)
    decreases |ps|
  {
    if ps != [] {
      var init, x := ps[..|ps| - 1], ps[|ps| - 1];
      SpansOfWithin(init);
      SpansWithinWiden(SpansOf(init), |CleanText(init)|, |CleanText(init) + x.plain|);
      assert SpansOf(ps)[..|ps| - 1] == SpansOf(init);
    }
  }

  /** The step of `ReboldPieces` over the last piece `x`, given the result for the pieces `init` before it. */
  lemma ReboldPiecesLast(init: seq<Piece>, x: Piece, tail: string)
    requires SpansWithin(SpansOf(init), |CleanText(init) + x.plain|)
    requires Rebold(CleanText(init) + x.plain, SpansOf(init)) == Marked(init) + x.plain
    ensures SpansWithin(SpansOf(init + [x]), |CleanText(init + [x]) + tail|)
    ensures Rebold(CleanText(init + [x]) + tail, SpansOf(init + [x])) == Marked(init + [x]) + tail
  {
    var ps := init + [x];
    assert ps[..|ps| - 1] == init && ps[|ps| - 1] == x;
    PushPiece(init, x);
    SpansOfWithin(init);
    ReboldLast(CleanText(ps) + tail, SpansOf(ps), CleanText(init), x, tail, SpansOf(init));
  }

  /** Putting `**` back around the recorded ranges of the cleaned pieces gives the marked text. */
  lemma {:induction false} ReboldPieces(ps: seq<Piece>, tail: string)
    ensures SpansWithin(SpansOf(ps), |CleanText(ps) + tail|)
    ensures Rebold(CleanText(ps) + tail, SpansOf(ps)) == Marked(ps) + tail
    decreases |ps|
  {
    if ps == [] {
      assert CleanText(ps) + tail == tail;
    } else {
      var init, x := ps[..|ps| - 1], ps[|ps| - 1];
      assert ps == init + [x];
      ReboldPieces(init, x.plain);
      ReboldPiecesLast(init, x, tail);
    }
  }

  /** The cleaned line and its bold ranges, as the `re.finditer` loop of `push` leaves them. */
  function ExtractedBold(s: string): Bolded {
    ExtractFrom(s, 0, Bolded("", []))
  }

  /**
   * The bold ranges are ascending, disjoint and inside the cleaned line, and putting `**`
   * back around them gives the line back: extraction drops only the delimiters of the matches.
   */
  lemma ExtractedBoldRoundTrip(s: string)
    ensures SpansWithin(ExtractedBold(s).spans, |ExtractedBold(s).clean|)
    ensures Rebold(ExtractedBold(s).clean, ExtractedBold(s).spans) == s
  {
    ExtractedBoldPieces(s);
    PiecesMarked(s, 0);
    ReboldPieces(Pieces(s, 0), TailFrom(s, 0));
  }

  /** A line without `**` has no matches: extraction leaves it as it is and records no range. */
  lemma NoStarsUnchanged(s: string)
    requires forall j :: !StarsAt(s, j)
    ensures ExtractedBold(s) == Bolded(s, [])
  {
    FindStarsFirst(s, 0);
    assert NextMatch(s, 0).None?;
    assert "" + s[0..] == s;
  }

  /** Adding one piece extends `clean_line` and `bold_ranges` as one loop iteration does. */
  lemma PushPiece(ps: seq<Piece>, x: Piece)
    ensures CleanText(ps + [x]) == CleanText(ps) + x.plain + x.bold
    ensures SpansOf(ps + [x]) ==
      SpansOf(ps) + [Span(|CleanText(ps) + x.plain|, |CleanText(ps) + x.plain| + |x.bold|)]
  {
    assert (ps + [x])[..|ps|] == ps;
  }

  /**
   * What the `re.finditer` loop leaves when it resumes at `i` with `acc` built so far: each
   * match appends the text before it and its group to the cleaned line, and records the
   * group's range; the text after the last match is appended at the end.
   */
  function ExtractFrom(s: string, i: nat, acc: Bolded): Bolded
    requires i <= |s|
    decreases |s| - i
  {
    match NextMatch(s, i)
    case None => Bolded(acc.clean + s[i..], acc.spans)
    case Some((p, q)) => ExtractFrom(s, q + 2, Advance(acc, s[i..p], s[p + 2..q]))
  }

  /** One pass of the loop body: the text before the match and the group go to `clean_line`, the group's range to `bold_ranges`. */
  function Advance(acc: Bolded, pre: string, group: string): Bolded {
    var start := |acc.clean + pre|;
    Bolded(acc.clean + pre + group, acc.spans + [Span(start, start + |group|)])
  }

  lemma AppendAssoc<T>(a: seq<T>, x: T, b: seq<T>)
    ensures a + ([x] + b) == (a + [x]) + b
  {
  }

  /** One match: `ExtractFrom` takes one step over it, to the state `next` the loop body leaves. */
  lemma ExtractStep(s: string, i: nat, p: nat, q: nat, acc: Bolded, next: Bolded)
    requires i <= |s| && NextMatch(s, i) == Some((p, q))
    requires next == Advance(acc, s[i..p], s[p + 2..q])
    ensures q + 2 <= |s|
    ensures ExtractFrom(s, i, acc) == ExtractFrom(s, q + 2, next)
  {
  }

  /** Resuming after `done` at a match is resuming after `next`, which adds the match's piece `x`, from `j`, where the match ends. */
  lemma ExtractFirstPiece(s: string, i: nat, p: nat, q: nat, j: nat, done: seq<Piece>, x: Piece, next: seq<Piece>)
    requires i <= |s| && NextMatch(s, i) == Some((p, q)) && j == q + 2
    requires x == Piece(s[i..p], s[p + 2..q]) && next == done + [x]
    ensures j <= |s|
    ensures ExtractFrom(s, i, Bolded(CleanText(done), SpansOf(done))) == ExtractFrom(s, j, Bolded(CleanText(next), SpansOf(next)))
  {
    PushPiece(done, x);
    ExtractStep(s, i, p, q, Bolded(CleanText(done), SpansOf(done)), Bolded(CleanText(next), SpansOf(next)));
  }

  /** The pieces after `done` at a match are those after `next`, which adds the match's piece `x`, followed by the pieces from `j`. */
  lemma PiecesAfter(s: string, i: nat, p: nat, q: nat, j: nat, done: seq<Piece>, x: Piece, next: seq<Piece>)
    requires i <= |s| && NextMatch(s, i) == Some((p, q)) && j == q + 2
    requires x == Piece(s[i..p], s[p + 2..q]) && next == done + [x]
    ensures j <= |s|
    ensures done + Pieces(s, i) == next + Pieces(s, j)
    ensures TailFrom(s, i) == TailFrom(s, j)
  {
    PiecesStepAt(s, i, p, q, j);
    AppendAssoc(done, x, Pieces(s, j));
  }

  /** The step of `ExtractFromPieces` over one match, given the result for `next` from `j`, where the match ends. */
  lemma ExtractFromPiecesStep(s: string, i: nat, p: nat, q: nat, j: nat, done: seq<Piece>, x: Piece, next: seq<Piece>)
    requires i <= |s| && NextMatch(s, i) == Some((p, q)) && j == q + 2
    requires x == Piece(s[i..p], s[p + 2..q]) && next == done + [x]
    requires j <= |s|
    requires ExtractFrom(s, j, Bolded(CleanText(next), SpansOf(next))) ==
      Bolded(CleanText(next + Pieces(s, j)) + TailFrom(s, j), SpansOf(next + Pieces(s, j)))
    ensures ExtractFrom(s, i, Bolded(CleanText(done), SpansOf(done))) ==
      Bolded(CleanText(done + Pieces(s, i)) + TailFrom(s, i), SpansOf(done + Pieces(s, i)))
  {
    ExtractFirstPiece(s, i, p, q, j, done, x, next);
    PiecesAfter(s, i, p, q, j, done, x, next);
  }

  /** `ExtractFromPieces` at a match. */
  lemma {:induction false} ExtractFromPiecesSome(s: string, i: nat, p: nat, q: nat, done: seq<Piece>)
    requires i <= |s| && NextMatch(s, i) == Some((p, q))
    ensures ExtractFrom(s, i, Bolded(CleanText(done), SpansOf(done))) ==
      Bolded(CleanText(done + Pieces(s, i)) + TailFrom(s, i), SpansOf(done + Pieces(s, i)))
    decreases |s| - i, 0
  {
    var j := q + 2;
    var x := Piece(s[i..p], s[p + 2..q]);
    var next := done + [x];
    ExtractFromPieces(s, j, next);
    ExtractFromPiecesStep(s, i, p, q, j, done, x, next);
  }

  /** No match is left: the loop appends the rest of the line and stops. */
  lemma ExtractDone(s: string, i: nat, acc: Bolded)
    requires i <= |s| && NextMatch(s, i).None?
    ensures ExtractFrom(s, i, acc) == Bolded(acc.clean + s[i..], acc.spans)
  {
  }

  /** `ExtractFromPieces` where no match is left. */
  lemma ExtractFromPiecesNone(s: string, i: nat, done: seq<Piece>)
    requires i <= |s| && NextMatch(s, i).None?
    ensures ExtractFrom(s, i, Bolded(CleanText(done), SpansOf(done))) ==
      Bolded(CleanText(done + Pieces(s, i)) + TailFrom(s, i), SpansOf(done + Pieces(s, i)))
  {
    assert done + Pieces(s, i) == done;
  }

  /** Resuming the loop after the pieces `done` gives the cleaned text and ranges of all the pieces. */
  lemma {:induction false} ExtractFromPieces(s: string, i: nat, done: seq<Piece>)
    requires i <= |s|
    ensures ExtractFrom(s, i, Bolded(CleanText(done), SpansOf(done))) ==
      Bolded(CleanText(done + Pieces(s, i)) + TailFrom(s, i), SpansOf(done + Pieces(s, i)))
    decreases |s| - i, 1
  {
    var m := NextMatch(s, i);
    if m.Some? {
      ExtractFromPiecesSome(s, i, m.value.0, m.value.1, done);
    } else {
      ExtractFromPiecesNone(s, i, done);
    }
  }

  /** The cleaned line is every match's preceding text and group, then the text after the last match; a range is recorded per match. */
  lemma ExtractedBoldPieces(s: string)
    ensures ExtractedBold(s) == Bolded(CleanText(Pieces(s, 0)) + TailFrom(s, 0), SpansOf(Pieces(s, 0)))
  {
    ExtractFromPieces(s, 0, []);
    assert [] + Pieces(s, 0) == Pieces(s, 0);
  }

  /**
   * Each range pushed for a line covers, in the cleaned text, exactly the text between the
   * matching pair of `**`: one range per match, in order.
   */
  lemma ExtractedBoldGroups(s: string)
    ensures |ExtractedBold(s).spans| == |Pieces(s, 0)|
    ensures forall k :: 0 <= k < |Pieces(s, 0)| ==>
      && ExtractedBold(s).spans[k].lo <= ExtractedBold(s).spans[k].hi <= |ExtractedBold(s).clean|
      && ExtractedBold(s).clean[ExtractedBold(s).spans[k].lo..ExtractedBold(s).spans[k].hi] == Pieces(s, 0)[k].bold
  {
    ExtractedBoldPieces(s);
    SpansCoverGroups(Pieces(s, 0), TailFrom(s, 0));
  }

  /** The `re.finditer` loop of `push`: builds `clean_line` and `bold_ranges` match by match. */
  method ExtractBold(s: string) returns (clean: string, spans: seq<Span>)
    ensures Bolded(clean, spans) == ExtractedBold(s)
  {
    clean, spans := "", [];
    var last := 0;
    var m := NextMatch(s, last);
    while m.Some?
      invariant last <= |s| && m == NextMatch(s, last)
      invariant ExtractFrom(s, last, Bolded(clean, spans)) == ExtractedBold(s)
      decreases |s| - last
    {
      var p, q := m.value.0, m.value.1;
      ghost var acc := Bolded(clean, spans);
      var pre, group := s[last..p], s[p + 2..q];
      clean := clean + pre;
      spans := spans + [Span(|clean|, |clean| + |group|)];
      clean := clean + group;
      assert Bolded(clean, spans) == Advance(acc, pre, group);
      ExtractStep(s, last, p, q, acc, Bolded(clean, spans));
      last := q + 2;
      m := NextMatch(s, last);
    }
    ExtractDone(s, last, Bolded(clean, spans));
    clean := clean + s[last..];
  }
}
