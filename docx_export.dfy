/**
 * The word-processor export: the text read back from the view is split into
 * lines again, and each line becomes one justified document paragraph whose
 * runs follow the same word rules as the view, with headings 14pt bold,
 * subheadings 13pt bold and italics in the body size.
 */
module DocxExport {
  import opened Wrappers
  import opened Strings
  import opened Markup

  datatype Alignment = Unaligned | Justify

  /** A document run: its text and the formatting set on it; `size` `None` keeps the body size. */
  datatype DocxRun = DocxRun(text: string, bold: bool, italic: bool, size: Option<nat>)

  datatype DocxParagraph = DocxParagraph(runs: seq<DocxRun>, alignment: Alignment)

  /** How a run of each style is formatted in the document. */
  function RunFormat(r: Run): DocxRun
  {
    match r.style
    case Heading => DocxRun(r.text, true, false, Some(14))
    case Subheading => DocxRun(r.text, true, false, Some(13))
    case Italic => DocxRun(r.text, false, true, None)
    case Plain => DocxRun(r.text, false, false, None)
  }

  function DocxRuns(runs: seq<Run>): seq<DocxRun>
  {
    seq(|runs|, i requires 0 <= i < |runs| => RunFormat(runs[i]))
  }

  /** The document paragraph made of one line. */
  function LineParagraph(line: string): DocxParagraph
  {
    DocxParagraph(DocxRuns(ParagraphRuns(line)), Justify)
  }

  function DocxParagraphs(lines: seq<string>): seq<DocxParagraph>
  {
    seq(|lines|, i requires 0 <= i < |lines| => LineParagraph(lines[i]))
  }

  /** The paragraphs the export writes for the (already stripped) text: one per line of `text.split("\n")`. */
  function DocxLayout(steamText: string): seq<DocxParagraph>
  {
    DocxParagraphs(Split(steamText, '\n'))
  }

  /** The document being built: the body font of its `Normal` style and its paragraphs. */
  class Document {
    var fontName: Option<string>
    var fontSize: Option<nat>
    var paragraphs: seq<DocxParagraph>

    /** `Document()`: a new empty document whose body font is the template's. */
    constructor()
      ensures paragraphs == [] && fontName == None && fontSize == None
    {
      paragraphs := [];
      fontName, fontSize := None, None;
    }

    /** `styles["Normal"].font.name = name; ...font.size = Pt(size)`. */
    method SetBodyFont(name: string, size: nat)
      modifies this
      ensures fontName == Some(name) && fontSize == Some(size)
      ensures paragraphs == old(paragraphs)
    {
      fontName, fontSize := Some(name), Some(size);
    }

    /** `add_paragraph()`: a new empty paragraph at the end. */
    method AddParagraph()
      modifies this
      ensures paragraphs == old(paragraphs) + [DocxParagraph([], Unaligned)]
      ensures fontName == old(fontName) && fontSize == old(fontSize)
    {
      paragraphs := paragraphs + [DocxParagraph([], Unaligned)];
    }

    /** `p.add_run(text)` on the last paragraph, then setting the run's bold, italic and size. */
    method AddRun(run: DocxRun)
      requires |paragraphs| > 0
      modifies this
      ensures var n := |old(paragraphs)| - 1;
        paragraphs == old(paragraphs)[..n]
          + [DocxParagraph(old(paragraphs)[n].runs + [run], old(paragraphs)[n].alignment)]
      ensures fontName == old(fontName) && fontSize == old(fontSize)
    {
      var n := |paragraphs| - 1;
      paragraphs := paragraphs[..n] + [DocxParagraph(paragraphs[n].runs + [run], paragraphs[n].alignment)];
    }

    /** `p.alignment = WD_ALIGN_PARAGRAPH.JUSTIFY` on the last paragraph. */
    method JustifyLast()
      requires |paragraphs| > 0
      modifies this
      ensures var n := |old(paragraphs)| - 1;
        paragraphs == old(paragraphs)[..n] + [DocxParagraph(old(paragraphs)[n].runs, Justify)]
      ensures fontName == old(fontName) && fontSize == old(fontSize)
    {
      var n := |paragraphs| - 1;
      paragraphs := paragraphs[..n] + [DocxParagraph(paragraphs[n].runs, Justify)];
    }
  }

  /**
   * The body of `export_to_docx` once there is text and a path: a new
   * document with an 11pt Helvetica body, then one paragraph per line.
   */
  method BuildDocx(steamText: string) returns (doc: Document)
    ensures fresh(doc)
    ensures doc.paragraphs == DocxLayout(steamText)
    ensures doc.fontName == Some("Helvetica") && doc.fontSize == Some(11)
  {
    doc := new Document();
    doc.SetBodyFont("Helvetica", 11);
    var lines := Split(steamText, '\n');
    for p := 0 to |lines|
      invariant doc.paragraphs == DocxParagraphs(lines[..p])
      invariant doc.fontName == Some("Helvetica") && doc.fontSize == Some(11)
    {
      AddLine(doc, lines[p]);
      assert DocxParagraphs(lines[..p + 1]) == DocxParagraphs(lines[..p]) + [LineParagraph(lines[p])];
    }
    assert lines[..|lines|] == lines;
  }

  /**
   * One iteration of the export's outer loop: a new paragraph, each word of
   * the line one run classified by its position, then justification.
   */
  method AddLine(doc: Document, line: string)
    modifies doc
    ensures doc.paragraphs == old(doc.paragraphs) + [LineParagraph(line)]
    ensures doc.fontName == old(doc.fontName) && doc.fontSize == old(doc.fontSize)
  {
    doc.AddParagraph();
    var words := Split(line, ' ');
    var wordCount := 0;
    assert DocxRuns(LineRuns(words[..0])) == [];
    for w := 0 to |words|
      invariant wordCount == w
      invariant doc.paragraphs == old(doc.paragraphs) + [DocxParagraph(DocxRuns(LineRuns(words[..w])), Unaligned)]
      invariant doc.fontName == old(doc.fontName) && doc.fontSize == old(doc.fontSize)
    {
      var word := words[w];
      if wordCount < 2 && Contains(word, "**") {
        doc.AddRun(DocxRun(ReplaceAll(word, "**", ""), true, false, Some(14)));
        wordCount := wordCount + 1;
      } else if Contains(word, "**") {
        doc.AddRun(DocxRun(ReplaceAll(word, "**", ""), true, false, Some(13)));
        wordCount := wordCount + 1;
      } else if Contains(word, "*") {
        doc.AddRun(DocxRun(ReplaceAll(word, "*", ""), false, true, None));
        wordCount := wordCount + 1;
      } else {
        doc.AddRun(DocxRun(word + " ", false, false, None));
        wordCount := wordCount + 1;
      }
      DocxRunsStep(words, w);
    }
    doc.JustifyLast();
    assert words[..|words|] == words;
  }

  /** Formatting one more word appends that word's run. */
  lemma DocxRunsStep(words: seq<string>, w: nat)
    requires w < |words|
    ensures DocxRuns(LineRuns(words[..w + 1])) == DocxRuns(LineRuns(words[..w])) + [RunFormat(WordRun(words[w], w))]
  {
    LineRunsPrefix(words, w);
  }

  /** The text of a document paragraph, formatting discarded. */
  function ParagraphText(runs: seq<DocxRun>): string
    decreases |runs|
  {
    if runs == [] then "" else ParagraphText(runs[..|runs| - 1]) + runs[|runs| - 1].text
  }

  /** The text of a document, each paragraph ending in a newline. */
  function DocumentText(paragraphs: seq<DocxParagraph>): string
    decreases |paragraphs|
  {
    if paragraphs == [] then ""
    else DocumentText(paragraphs[..|paragraphs| - 1]) + ParagraphText(paragraphs[|paragraphs| - 1].runs) + "\n"
  }

  lemma {:induction false} ParagraphTextOfRuns(runs: seq<Run>)
    ensures ParagraphText(DocxRuns(runs)) == VisibleText(runs)
    decreases |runs|
  {
    if runs != [] {
      var n := |runs| - 1;
      assert DocxRuns(runs)[..n] == DocxRuns(runs[..n]);
      ParagraphTextOfRuns(runs[..n]);
    }
  }

  lemma {:induction false} DocumentTextOfLines(lines: seq<string>)
    ensures DocumentText(DocxParagraphs(lines)) == VisibleText(ViewRuns(lines))
    decreases |lines|
  {
    if lines != [] {
      var n := |lines| - 1;
      assert DocxParagraphs(lines)[..n] == DocxParagraphs(lines[..n]);
      DocumentTextOfLines(lines[..n]);
      ParagraphTextOfRuns(ParagraphRuns(lines[n]));
      VisibleTextAppend(ViewRuns(lines[..n]) + ParagraphRuns(lines[n]), [LineBreak]);
      VisibleTextAppend(ViewRuns(lines[..n]), ParagraphRuns(lines[n]));
      assert VisibleText([LineBreak]) == VisibleText([]) + "\n";
    }
  }

  /**
   * The document and the view agree on the words: reading the document's
   * paragraphs one per line gives exactly what the view shows for the same
   * text, and every paragraph is justified.
   */
  lemma DocxReadsLikeView(steamText: string)
    ensures DocumentText(DocxLayout(steamText)) == VisibleText(Rendered(steamText))
    ensures |DocxLayout(steamText)| == |Split(steamText, '\n')|
    ensures forall i :: 0 <= i < |DocxLayout(steamText)| ==> DocxLayout(steamText)[i].alignment == Justify
  {
    DocumentTextOfLines(Split(steamText, '\n'));
  }

  /**
   * The formatting of run `j` of the paragraph made of `line`: bold 14pt
   * exactly for a `**` word among the first two words of the line, bold
   * 13pt for a later `**` word, italic exactly for a word with a lone `*`,
   * and otherwise the word itself plus one space in the body style; no run
   * keeps a `**`.
   */
  lemma DocxRunFormatting(line: string, j: nat)
    requires j < |Split(line, ' ')|
    ensures var r := LineParagraph(line).runs[j];
      r.bold && r.size == Some(14) <==> Contains(Split(line, ' ')[j], "**") && j < 2
    ensures var r := LineParagraph(line).runs[j];
      r.bold && r.size == Some(13) <==> Contains(Split(line, ' ')[j], "**") && j >= 2
    ensures var word := Split(line, ' ')[j];
      LineParagraph(line).runs[j].italic <==> '*' in word && !Contains(word, "**")
    ensures var word := Split(line, ' ')[j];
      '*' !in word ==> LineParagraph(line).runs[j] == DocxRun(word + " ", false, false, None)
    ensures !Contains(LineParagraph(line).runs[j].text, "**")
  {
    var word := Split(line, ' ')[j];
    var run := WordRun(word, j);
    assert LineParagraph(line).runs[j] == RunFormat(run);
    if '*' !in word {
      assert run.text == word + " ";
      assert '*' !in run.text;
    }
    if Contains(run.text, "**") {
      ContainsDoubleStarHasStar(run.text);
    }
  }
}
