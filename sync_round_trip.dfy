/**
 * How `push` and `read_structural_elements` in `docs_sync.py` fit together, line by line:
 * the Markdown that pull writes for a pushed line parses back to the same line, except that a
 * quoted heading comes back unquoted, and the bullet indent that push writes is read back as
 * the same nesting level.
 */
module SyncRoundTrip {
  import opened Wrappers
  import opened PyStr
  import opened LineParse
  import opened DocsPush
  import opened DocsPull

  /**
   * The paragraph a pushed line becomes in the document, as pull sees it: one unbolded run
   * holding the cleaned line and its newline, the named style push set, the indent push set
   * (36 points for a quote, 36 + 18 * level for a list item) and, for a list item, a bullet
   * whose nesting level the document leaves at 0.
   */
  function Written(row: Line): Paragraph {
    var indent :=
      if row.bullet then Some(BulletTextPos(row.level))
      else if row.quote then Some(QuoteIndent)
      else None;
    Paragraph([TextRun(row.clean + "\n", false)],
              ParagraphStyle(Some(row.style), indent),
              if row.bullet then Some(Bullet(None)) else None)
  }

  /**
   * `Written` is what the requests push sends for the line make of a fresh paragraph at `start`:
   * its text fills the task's range; the named style is requested exactly when it is not normal
   * text; a bullet is requested exactly when the paragraph has one; and the indent it carries is
   * the one the indent request sets, with no indent request when it has none.
   */
  lemma WrittenFromRequests(line: string, start: nat)
    ensures var row := LineOf(line);
      var t := TaskAt(row, start);
      var range := Range(t.start, t.end);
      var requests := ParagraphRequests(t);
      var p := Written(row);
      && p.elements == [TextRun(row.clean + "\n", false)] && t.end - t.start == |row.clean + "\n"|
      && p.paragraphStyle.namedStyleType == Some(row.style)
      && (row.style != NormalText <==> NamedStyleRequest(range, row.style) in requests)
      && (p.bullet.Some? <==> BulletRequest(range, BulletPreset) in requests)
      && (p.paragraphStyle.indentStart.Some? <==> exists q :: q in requests && q.IndentRequest?)
      && (row.bullet ==> IndentRequest(range, p.paragraphStyle.indentStart.value, BulletMarkPos(row.level)) in requests)
      && (row.quote ==> IndentRequest(range, p.paragraphStyle.indentStart.value, QuoteIndent) in requests)
  {
    var row := LineOf(line);
    assert row.quote ==> !row.bullet;
    var t := TaskAt(row, start);
    var range := Range(t.start, t.end);
    var requests := ParagraphRequests(t);
    if row.bullet {
      assert requests[|requests| - 1] == IndentRequest(range, BulletTextPos(row.level), BulletMarkPos(row.level));
    } else if row.quote {
      assert requests[|requests| - 1] == IndentRequest(range, QuoteIndent, QuoteIndent);
    }
  }

  /** The Markdown line pull writes for a classified line: the heading wins over the quote, as in pull. */
  function Markdown(shape: LineShape): string {
    if shape.style.Heading? then RepeatChar('#', shape.style.level) + " " + shape.text
    else if shape.bullet then Repeat("  ", shape.level) + "* " + shape.text
    else if shape.quote then "> " + shape.text
    else shape.text
  }

  lemma {:induction false} HashRun(n: nat, t: string)
    ensures LeadingRun(RepeatChar('#', n) + " " + t, '#') == n
    decreases n
  {
    if n > 0 {
      HashRun(n - 1, t);
      assert (RepeatChar('#', n) + " " + t)[1..] == RepeatChar('#', n - 1) + " " + t;
    }
  }

  /** One more level of indentation is two more spaces for `lstrip` to remove. */
  lemma StripIndentStep(level: nat, t: string)
    requires level > 0
    ensures LStrip(Repeat("  ", level) + t) == LStrip(Repeat("  ", level - 1) + t)
  {
    var rest := Repeat("  ", level - 1) + t;
    assert Repeat("  ", level) + t == [' '] + ([' '] + rest);
    LStripSpace(' ', [' '] + rest);
    LStripSpace(' ', rest);
  }

  lemma {:induction false} StripIndent(level: nat, t: string)
    ensures LStrip(Repeat("  ", level) + t) == LStrip(t)
    decreases level
  {
    if level > 0 {
      StripIndent(level - 1, t);
      StripIndentStep(level, t);
    } else {
      assert Repeat("  ", level) + t == t;
    }
  }

  /** A line without `**` is pushed with its text as it is and no bold range. */
  lemma LineOfNoStars(line: string)
    requires forall j :: !StarsAt(ParseLine(line).text, j)
    ensures var shape := ParseLine(line);
      LineOf(line) == Line(shape.style, shape.bullet, shape.level, shape.quote, shape.text, [])
  {
    NoStarsUnchanged(ParseLine(line).text);
  }

  /** The paragraph written for a line without bold ranges holds the line's text and a newline. */
  lemma WrittenText(shape: LineShape)
    ensures ParaText(Written(Line(shape.style, shape.bullet, shape.level, shape.quote, shape.text, []))) == shape.text + "\n"
  {
    var p := Written(Line(shape.style, shape.bullet, shape.level, shape.quote, shape.text, []));
    assert p.elements == [TextRun(shape.text + "\n", false)];
    assert ParaTextUpTo(p.elements, 0) == "";
  }

  /** Text that does not start with whitespace keeps it after a newline is added, and `lstrip` leaves it alone. */
  lemma StripLine(t: string)
    requires t != [] && !IsSpace(t[0])
    ensures LStrip(t + "\n") == t + "\n"
  {
    assert (t + "\n")[0] == t[0];
  }

  lemma RenderWrittenHeading(shape: LineShape)
    requires shape.style.Heading? && shape.text != [] && !IsSpace(shape.text[0])
    ensures RenderParagraph(Written(Line(shape.style, shape.bullet, shape.level, shape.quote, shape.text, [])))
      == Markdown(shape) + "\n"
  {
    WrittenText(shape);
    StripLine(shape.text);
    var hashes := RepeatChar('#', shape.style.level);
    assert hashes + " " + (shape.text + "\n") == hashes + " " + shape.text + "\n";
  }

  lemma RenderWrittenBullet(shape: LineShape)
    requires !shape.style.Heading? && shape.bullet && shape.text != [] && !IsSpace(shape.text[0])
    ensures RenderParagraph(Written(Line(shape.style, shape.bullet, shape.level, shape.quote, shape.text, [])))
      == Markdown(shape) + "\n"
  {
    var p := Written(Line(shape.style, shape.bullet, shape.level, shape.quote, shape.text, []));
    WrittenText(shape);
    StripLine(shape.text);
    IndentRoundTrip(p, shape.level);
    var indent := Repeat("  ", shape.level);
    assert indent + "* " + (shape.text + "\n") == indent + "* " + shape.text + "\n";
  }

  /** The paragraph written for a line without bold ranges is read back as the line's Markdown form. */
  lemma RenderWritten(shape: LineShape)
    requires (shape.style.Heading? || shape.bullet) ==> shape.text != [] && !IsSpace(shape.text[0])
    requires shape.quote ==> shape.text != []
    ensures RenderParagraph(Written(Line(shape.style, shape.bullet, shape.level, shape.quote, shape.text, [])))
      == Markdown(shape) + "\n"
  {
    if shape.style.Heading? {
      RenderWrittenHeading(shape);
    } else if shape.bullet {
      RenderWrittenBullet(shape);
    } else {
      WrittenText(shape);
      if shape.quote {
        assert "> " + (shape.text + "\n") == "> " + shape.text + "\n";
      }
    }
  }

  /**
   * Pulling a pushed line back gives its Markdown form: for a line without `**`, whose
   * heading, list or quote text is not empty and, for a heading or list item, does not start
   * with whitespace.
   */
  lemma PushThenPull(line: string)
    requires forall j :: !StarsAt(ParseLine(line).text, j)
    requires var shape := ParseLine(line);
      (shape.style.Heading? || shape.bullet) ==> shape.text != [] && !IsSpace(shape.text[0])
    requires ParseLine(line).quote ==> ParseLine(line).text != []
    ensures RenderParagraph(Written(LineOf(line))) == Markdown(ParseLine(line)) + "\n"
  {
    LineOfNoStars(line);
    RenderWritten(ParseLine(line));
  }

  /** A heading that pull writes is classified again as the same heading with the same text. */
  lemma HeadingParsesBack(n: nat, t: string)
    requires 1 <= n <= 6
    ensures ParseLine(RepeatChar('#', n) + " " + t) == LineShape(Heading(n), false, 0, false, t)
  {
    var md := RepeatChar('#', n) + " " + t;
    HashRun(n, t);
    assert md[0] == '#';
    assert md[n] == ' ';
    assert md[n + 1..] == t;
  }

  /** A list item that pull writes is classified again as a list item at the same level with the same text. */
  lemma BulletParsesBack(level: nat, t: string)
    ensures ParseLine(Repeat("  ", level) + "* " + t) == LineShape(NormalText, true, level, false, t)
  {
    var md := Repeat("  ", level) + "* " + t;
    StripIndent(level, "* " + t);
    assert md == Repeat("  ", level) + ("* " + t);
    assert md[0] == ' ' || md[0] == '*';
    assert LeadingRun(md, '#') == 0;
    assert LStrip("* " + t) == "* " + t;
    assert ("* " + t)[2..] == t;
  }

  /**
   * Pushing the Markdown that pull wrote classifies the line as before: same style, bullet,
   * level and text, and the same quote flag unless the line was a quoted heading.
   */
  lemma PullThenPush(line: string)
    ensures var shape := ParseLine(line);
      ParseLine(Markdown(shape)) == if shape.style.Heading? then shape.(quote := false) else shape
  {
    var shape := ParseLine(line);
    if shape.style.Heading? {
      ParseLineHeading(line);
      HeadingParsesBack(shape.style.level, shape.text);
    } else if shape.bullet {
      BulletParsesBack(shape.level, shape.text);
    } else if shape.quote {
      assert Markdown(shape) == line;
    }
  }

  /** A line read back without loss is pushed again to the same paragraph. */
  lemma PushIsStable(line: string)
    requires !(ParseLine(line).quote && ParseLine(line).style.Heading?)
    ensures LineOf(Markdown(ParseLine(line))) == LineOf(line)
  {
    PullThenPush(line);
  }

  /** A quoted heading loses its quote on the way back: `> # Plan` is read back as `# Plan`. */
  lemma QuotedHeadingLosesQuote()
    ensures LineOf("> # Plan").quote
    ensures !LineOf(Markdown(ParseLine("> # Plan"))).quote
  {
    PullThenPush("> # Plan");
    assert QuoteMarker("> # Plan");
    assert LeadingRun("# Plan", '#') == 1;
    assert HeadingMarker("# Plan");
  }
}
