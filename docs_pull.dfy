/**
 * `read_structural_elements` in `docs_sync.py`: the body of a Google Docs document rendered
 * back into Markdown, paragraph by paragraph.
 */
module DocsPull {
  import opened Wrappers
  import opened PyStr
  import opened LineParse

  /** An element of a paragraph: a run of text with its bold flag, or anything else (an image, a page break, ...). */
  datatype ParagraphElement = TextRun(content: string, bold: bool) | OtherElement

  /** The `bullet` of a list paragraph; Google Docs leaves out `nestingLevel` at level 0. */
  datatype Bullet = Bullet(nestingLevel: Option<nat>)

  /** The parts of `paragraphStyle` the renderer reads: the named style and the magnitude of `indentStart`, in points. */
  datatype ParagraphStyle = ParagraphStyle(namedStyleType: Option<NamedStyle>, indentStart: Option<nat>)

  datatype Paragraph = Paragraph(elements: seq<ParagraphElement>, paragraphStyle: ParagraphStyle, bullet: Option<Bullet>)

  /** A structural element of the body: a paragraph, or anything else (a table, a section break, ...). */
  datatype StructuralElement = ParagraphBlock(paragraph: Paragraph) | OtherBlock

  /** One element as Markdown: a bold run is wrapped in `**`, with its paragraph-ending newline kept outside. */
  function RunText(el: ParagraphElement): string {
    match el
    case OtherElement => ""
    case TextRun(content, bold) =>
      if !bold then content
      else if EndsWithNewline(content) then "**" + content[..|content| - 1] + "**\n"
      else "**" + content + "**"
  }

  /** `para_text` after the first `n` elements. */
  function ParaTextUpTo(elements: seq<ParagraphElement>, n: nat): string
    requires n <= |elements|
  {
    if n == 0 then "" else ParaTextUpTo(elements, n - 1) + RunText(elements[n - 1])
  }

  /** `para_text`: the Markdown of every element of a paragraph, in order. */
  function ParaText(p: Paragraph): string {
    ParaTextUpTo(p.elements, |p.elements|)
  }

  /** `indentStart` of a paragraph, 0 when it is missing. */
  function IndentStart(p: Paragraph): nat {
    p.paragraphStyle.indentStart.GetOr(0)
  }

  /**
   * The nesting level of a list paragraph: its `nestingLevel` (0 when missing); at level 0 an
   * `indentStart` above 36 points gives the level back, 18 points per level, rounding half up.
   */
  function Nesting(p: Paragraph): (r: nat)
    requires p.bullet.Some?
    ensures p.bullet.value.nestingLevel.GetOr(0) <= r
    ensures IndentStart(p) <= 36 ==> r == p.bullet.value.nestingLevel.GetOr(0)
  {
    var nesting := p.bullet.value.nestingLevel.GetOr(0);
    var indent := IndentStart(p);
    if nesting == 0 && indent > 36 then
      var calculated := (indent - 36 + 9) / 18;
      if calculated > nesting then calculated else nesting
    else nesting
  }

  /**
   * One paragraph as Markdown. A paragraph that is only a newline stays a newline; a heading
   * gets its `#`s, a list item its indentation and `* `, an indented paragraph `> `.
   */
  function RenderParagraph(p: Paragraph): string {
    var text := ParaText(p);
    var named := p.paragraphStyle.namedStyleType.GetOr(NormalText);
    if text == "\n" then "\n"
    else if named.Heading? then RepeatChar('#', named.level) + " " + LStrip(text)
    else if p.bullet.Some? then Repeat("  ", Nesting(p)) + "* " + LStrip(text)
    else if IndentStart(p) > 0 then "> " + text
    else text
  }

  /** What one structural element contributes: only paragraphs are rendered. */
  function Rendered(e: StructuralElement): string {
    match e
    case ParagraphBlock(p) => RenderParagraph(p)
    case OtherBlock => ""
  }

  /** `text` after the first `n` structural elements. */
  function RenderUpTo(elements: seq<StructuralElement>, n: nat): string
    requires n <= |elements|
  {
    if n == 0 then "" else RenderUpTo(elements, n - 1) + Rendered(elements[n - 1])
  }

  /** The Markdown of a document body. */
  function Render(elements: seq<StructuralElement>): string {
    RenderUpTo(elements, |elements|)
  }

  /** The inner loop of `read_structural_elements`: the Markdown of a paragraph's elements. */
  method ReadParagraphText(elements: seq<ParagraphElement>) returns (paraText: string)
    ensures paraText == ParaTextUpTo(elements, |elements|)
  {
    paraText := "";
    for j := 0 to |elements|
      invariant paraText == ParaTextUpTo(elements, j)
    {
      match elements[j]
      case OtherElement =>
      case TextRun(content, bold) =>
        if bold {
          if EndsWithNewline(content) {
            paraText := paraText + ("**" + content[..|content| - 1] + "**\n");
          } else {
            paraText := paraText + ("**" + content + "**");
          }
        } else {
          paraText := paraText + content;
        }
    }
  }

  /** The body of the outer loop of `read_structural_elements` for one paragraph: its Markdown. */
  method ReadParagraph(para: Paragraph) returns (md: string)
    ensures md == RenderParagraph(para)
  {
    var paraText := ReadParagraphText(para.elements);
    if paraText == "\n" {
      md := "\n";
      return;
    }
    var named := para.paragraphStyle.namedStyleType.GetOr(NormalText);
    if named.Heading? {
      md := RepeatChar('#', named.level) + " " + LStrip(paraText);
    } else if para.bullet.Some? {
      var nesting := para.bullet.value.nestingLevel.GetOr(0);
      var indentStart := para.paragraphStyle.indentStart.GetOr(0);
      if nesting == 0 && indentStart > 36 {
        var calculated := (indentStart - 36 + 9) / 18;
        nesting := if nesting > calculated then nesting else calculated;
      }
      md := Repeat("  ", nesting) + "* " + LStrip(paraText);
    } else if para.paragraphStyle.indentStart.GetOr(0) > 0 {
      md := "> " + paraText;
    } else {
      md := paraText;
    }
  }

  /** `read_structural_elements`: the body rendered element by element; only paragraphs add text. */
  method ReadStructuralElements(elements: seq<StructuralElement>) returns (text: string)
    ensures text == Render(elements)
  {
    text := "";
    for i := 0 to |elements|
      invariant text == RenderUpTo(elements, i)
    {
      var md := "";
      if elements[i].ParagraphBlock? {
        md := ReadParagraph(elements[i].paragraph);
      }
      assert md == Rendered(elements[i]);
      text := text + md;
    }
  }

  /**
   * A list item written at level `level` is read back at that level: `indentStart` is
   * 36 + 18 * level and `nestingLevel` is 0 or missing.
   */
  lemma IndentRoundTrip(p: Paragraph, level: nat)
    requires p.bullet.Some? && p.bullet.value.nestingLevel.GetOr(0) == 0
    requires IndentStart(p) == 36 + 18 * level
    ensures Nesting(p) == level
  {
    if level > 0 {
      assert (18 * level + 9) / 18 == level;
    }
  }

  /** A list item at level 0 indented more than 36 points is read back at the level whose indent, rounded half up, is its `indentStart`. */
  lemma NestingFromIndent(p: Paragraph)
    requires p.bullet.Some? && p.bullet.value.nestingLevel.GetOr(0) == 0 && IndentStart(p) > 36
    ensures Nesting(p) * 18 + 27 <= IndentStart(p) < Nesting(p) * 18 + 45
  {
  }
}
