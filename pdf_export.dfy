/**
 * The portable-document export. Unlike the view and the word-processor
 * export it decides per line, not per word: a line holding `**` becomes one
 * heading block, a line holding `*` one body block with every `*` turned
 * into an `<i>` tag, any other non-blank line a body block and a spacer.
 */
module PdfExport {
  import opened Strings

  /** A paragraph style: its name, the sample style it derives from, its font size and the space after it. */
  datatype ParagraphStyle = ParagraphStyle(name: string, parent: string, fontSize: nat, spaceAfter: nat)

  const HeadingStyle := ParagraphStyle("CustomHeading", "Heading1", 14, 12)
  /** Defined next to the heading style but never given to any block. */
  const SubheadingStyle := ParagraphStyle("CustomSubheading", "Heading2", 12, 10)
  /** The sample sheet's `Normal`, with its size and spacing changed. */
  const NormalStyle := ParagraphStyle("Normal", "", 11, 8)

  /** What the story holds: a paragraph of (mark-up) text in a style, or a fixed gap. */
  datatype Flowable = Para(text: string, style: ParagraphStyle) | Spacer(width: nat, height: nat)

  /** The blocks one line of the text adds to the story. */
  function LineBlocks(line: string): seq<Flowable>
  {
    if Contains(line, "**") then [Para(ReplaceAll(line, "**", ""), HeadingStyle)]
    else if Contains(line, "*") then [Para(ReplaceAll(ReplaceAll(line, "*", "<i>"), "*", "</i>"), NormalStyle)]
    else if Strip(line, Python) != [] then [Para(line, NormalStyle), Spacer(1, 6)]
    else []
  }

  /** The story for a sequence of lines. */
  function Story(lines: seq<string>): seq<Flowable>
    decreases |lines|
  {
    if lines == [] then []
    else Story(lines[..|lines| - 1]) + LineBlocks(lines[|lines| - 1])
  }

  /**
   * The loop of `export_to_pdf`: for every line of `text.split("\n")`,
   * append that line's blocks to the story.
   */
  method BuildStory(steamText: string) returns (story: seq<Flowable>)
    ensures story == Story(Split(steamText, '\n'))
  {
    story := [];
    var paragraphs := Split(steamText, '\n');
    for p := 0 to |paragraphs|
      invariant story == Story(paragraphs[..p])
    {
      var paragraph := paragraphs[p];
      if Contains(paragraph, "**") {
        var cleanText := ReplaceAll(paragraph, "**", "");
        story := story + [Para(cleanText, HeadingStyle)];
      } else if Contains(paragraph, "*") {
        var cleanText := ReplaceAll(ReplaceAll(paragraph, "*", "<i>"), "*", "</i>");
        story := story + [Para(cleanText, NormalStyle)];
      } else {
        if Strip(paragraph, Python) != [] {
          story := story + [Para(paragraph, NormalStyle)];
          story := story + [Spacer(1, 6)];
        }
      }
      assert paragraphs[..p + 1][..p] == paragraphs[..p];
    }
    assert paragraphs[..|paragraphs|] == paragraphs;
  }

  /**
   * The italic substitution only ever opens: once every `*` has become
   * `<i>` no `*` is left, so the `.replace("*", "</i>")` that follows
   * changes nothing and no closing tag is written.
   */
  lemma ItalicTagsNeverClose(line: string)
    ensures '*' !in ReplaceAll(line, "*", "<i>")
    ensures ReplaceAll(ReplaceAll(line, "*", "<i>"), "*", "</i>") == ReplaceAll(line, "*", "<i>")
  {
    var tagged := ReplaceAll(line, "*", "<i>");
    ReplaceCharRemovesIt(line, '*', "<i>");
    ContainsChar(tagged, '*');
    ReplaceAllAbsent(tagged, "*", "</i>");
  }

  /**
   * What one line becomes, case by case, `**` taking precedence over `*`:
   * one heading block without any `**`; else one body block in which each
   * `*` is an `<i>` and nothing else changed; else, for a line with a
   * non-whitespace character, the line itself and a 1x6 spacer; else nothing.
   */
  lemma LineBlocksCases(line: string)
    ensures Contains(line, "**") ==>
      LineBlocks(line) == [Para(ReplaceAll(line, "**", ""), HeadingStyle)]
      && !Contains(ReplaceAll(line, "**", ""), "**")
    ensures !Contains(line, "**") && '*' in line ==>
      LineBlocks(line) == [Para(ReplaceAll(line, "*", "<i>"), NormalStyle)]
      && '*' !in LineBlocks(line)[0].text
    ensures '*' !in line && !Blank(line, Python) ==> LineBlocks(line) == [Para(line, NormalStyle), Spacer(1, 6)]
    ensures '*' !in line && Blank(line, Python) ==> LineBlocks(line) == []
  {
    ContainsChar(line, '*');
    RemoveDoubleStars(line);
    ItalicTagsNeverClose(line);
    StripFacts(line, Python);
    if Contains(line, "**") {
      ContainsDoubleStarHasStar(line);
    }
  }

  /** For `"*x*"` the story holds `"<i>x<i>"`: the second tag opens again instead of closing. */
  lemma ItalicExample()
    ensures LineBlocks("*x*") == [Para("<i>x<i>", NormalStyle)]
  {
    assert "*x*"[1] == 'x' && "x*"[0] == 'x';
    assert !Contains("*x*", "**");
    assert Contains("*x*", "*");
    assert ReplaceAll("*", "*", "<i>") == "<i>";
    assert ReplaceAll("x*", "*", "<i>") == "x<i>";
    assert ReplaceAll("*x*", "*", "<i>") == "<i>x<i>";
    ItalicTagsNeverClose("*x*");
  }

  /** Blank lines leave no trace, and no line contributes more than two blocks. */
  lemma {:induction false} StoryLength(lines: seq<string>)
    ensures |Story(lines)| <= 2 * |lines|
    ensures (forall i :: 0 <= i < |lines| ==> Blank(lines[i], Python)) ==> Story(lines) == []
    decreases |lines|
  {
    if lines != [] {
      var n := |lines| - 1;
      StoryLength(lines[..n]);
      var line := lines[n];
      if Blank(line, Python) {
        forall k | 0 <= k < |line| ensures line[k] != '*' {
          assert IsSpace(line[k], Python);
        }
        LineBlocksCases(line);
      }
      if forall i :: 0 <= i < |lines| ==> Blank(lines[i], Python) {
        assert forall i :: 0 <= i < n ==> lines[..n][i] == lines[i];
      }
    }
  }
}
