/**
 * The word-level markup convention of the generated text, shared by the
 * on-screen view and the word-processor export: a line is split on single
 * spaces, and each word becomes one styled run according to its markers and
 * its position in the line.
 */
module Markup {
  import opened Strings

  /** The look of a run; `Plain` is text inserted without any tag. */
  datatype Style = Plain | Heading | Subheading | Italic

  datatype Run = Run(text: string, style: Style)

  /** The line break written after every line of the view. */
  const LineBreak: Run := Run("\n", Plain)

  /**
   * The run for the word at position `index` of its line. A word holding
   * `**` is a heading among the first two words of the line and a
   * subheading after them; otherwise a word holding `*` is italic wherever
   * it stands; a marked word loses its markers and gets no trailing space,
   * an unmarked word keeps one trailing space.
   */
  function WordRun(word: string, index: nat): (r: Run)
    ensures r.style == Heading <==> Contains(word, "**") && index < 2
    ensures r.style == Subheading <==> Contains(word, "**") && index >= 2
    ensures r.style == Italic <==> '*' in word && !Contains(word, "**")
    ensures r.style == Plain <==> '*' !in word
    ensures r.style == Plain ==> r.text == word + " "
    ensures r.style == Heading || r.style == Subheading ==> !Contains(r.text, "**")
    ensures r.style == Italic ==> '*' !in r.text
    ensures r.style == Italic ==> forall c :: c != '*' ==> (c in r.text <==> c in word)
  {
    ContainsChar(word, '*');
    if Contains(word, "**") then ContainsDoubleStarHasStar(word); RemoveDoubleStars(word);
      Run(ReplaceAll(word, "**", ""), if index < 2 then Heading else Subheading)
    else if Contains(word, "*") then ReplaceCharRemovesIt(word, '*', "");
      assert forall c :: c != '*' ==> (c in ReplaceAll(word, "*", "") <==> c in word) by {
        forall c | c != '*'
          ensures c in ReplaceAll(word, "*", "") <==> c in word
        {
          ReplaceCharKeepsOthers(word, c, '*', "");
        }
      }
      Run(ReplaceAll(word, "*", ""), Italic)
    else Run(word + " ", Plain)
  }

  /** The runs of the words of one line, each classified at its own position. */
  function LineRuns(words: seq<string>): seq<Run>
  {
    seq(|words|, i requires 0 <= i < |words| => WordRun(words[i], i))
  }

  /** The runs of one line of text: its words are the fields of a split on `' '`. */
  function ParagraphRuns(paragraph: string): seq<Run>
  {
    LineRuns(Split(paragraph, ' '))
  }

  /** The view's runs for a sequence of lines: each line's runs, then a line break. */
  function ViewRuns(paragraphs: seq<string>): seq<Run>
    decreases |paragraphs|
  {
    if paragraphs == [] then []
    else
      var n := |paragraphs| - 1;
      ViewRuns(paragraphs[..n]) + ParagraphRuns(paragraphs[n]) + [LineBreak]
  }

  /** What a render of `text` leaves in the view: one entry per line of `text.split("\n")`. */
  function Rendered(text: string): seq<Run>
  {
    ViewRuns(Split(text, '\n'))
  }

  /** The characters a reader sees, styles discarded. */
  function VisibleText(runs: seq<Run>): string
    decreases |runs|
  {
    if runs == [] then ""
    else VisibleText(runs[..|runs| - 1]) + runs[|runs| - 1].text
  }

  lemma {:induction false} VisibleTextAppend(a: seq<Run>, b: seq<Run>)
    ensures VisibleText(a + b) == VisibleText(a) + VisibleText(b)
    decreases |b|
  {
    if b == [] {
      assert a + b == a;
    } else {
      var n := |b| - 1;
      assert (a + b)[..|a + b| - 1] == a + b[..n];
      assert (a + b)[|a + b| - 1] == b[n];
      VisibleTextAppend(a, b[..n]);
    }
  }

  /** No field of a split holds a character the split string does not hold. */
  lemma {:induction false} SplitKeepsCharOut(s: string, sep: char, c: char)
    requires c !in s
    ensures forall i :: 0 <= i < |Split(s, sep)| ==> c !in Split(s, sep)[i]
    decreases |s|
  {
    if s != [] {
      assert c !in s[1..] by { assert forall k :: 0 <= k < |s[1..]| ==> s[1..][k] == s[k + 1]; }
      SplitKeepsCharOut(s[1..], sep, c);
    }
  }

  lemma LineRunsPrefix(words: seq<string>, k: nat)
    requires k < |words|
    ensures LineRuns(words[..k + 1]) == LineRuns(words[..k]) + [WordRun(words[k], k)]
  {
  }

  /** Words without markers show up as themselves, each followed by one space. */
  lemma {:induction false} PlainWordsVisible(words: seq<string>, k: nat)
    requires 0 < k <= |words|
    requires forall i :: 0 <= i < |words| ==> '*' !in words[i]
    ensures VisibleText(LineRuns(words[..k])) == Join(words[..k], " ") + " "
    decreases k
  {
    var runs := LineRuns(words[..k]);
    var word := words[k - 1];
    assert runs[..k - 1] == LineRuns(words[..k - 1]);
    assert runs[k - 1] == WordRun(word, k - 1);
    assert WordRun(word, k - 1).text == word + " ";
    if k == 1 {
      assert runs[..0] == [];
      assert words[..1] == [word];
    } else {
      PlainWordsVisible(words, k - 1);
      assert words[..k] == words[..k - 1] + [word];
      JoinSnoc(words[..k - 1], word, " ");
    }
  }

  /** A line without markers shows up as itself followed by one space. */
  lemma PlainLineVisible(line: string)
    requires '*' !in line
    ensures VisibleText(ParagraphRuns(line)) == line + " "
  {
    var words := Split(line, ' ');
    SplitKeepsCharOut(line, ' ', '*');
    PlainWordsVisible(words, |words|);
    assert words[..|words|] == words;
    JoinSplitRoundTrip(line, ' ');
  }

  /** Rendering one more line adds that line's text and a newline to what is seen. */
  lemma ViewRunsSnocVisible(prev: seq<string>, line: string)
    ensures VisibleText(ViewRuns(prev + [line]))
         == VisibleText(ViewRuns(prev)) + VisibleText(ParagraphRuns(line)) + "\n"
  {
    var ps := prev + [line];
    assert ps[..|ps| - 1] == prev && ps[|ps| - 1] == line;
    VisibleTextAppend(ViewRuns(prev) + ParagraphRuns(line), [LineBreak]);
    VisibleTextAppend(ViewRuns(prev), ParagraphRuns(line));
    assert VisibleText([LineBreak]) == VisibleText([]) + "\n";
  }

  lemma {:induction false} PlainLinesVisible(lines: seq<string>)
    requires |lines| > 0
    requires forall i :: 0 <= i < |lines| ==> '*' !in lines[i]
    ensures VisibleText(ViewRuns(lines)) == Join(lines, " \n") + " \n"
    decreases |lines|
  {
    var prev, line := lines[..|lines| - 1], lines[|lines| - 1];
    assert lines == prev + [line];
    ViewRunsSnocVisible(prev, line);
    PlainLineVisible(line);
    var seen := VisibleText(ViewRuns(prev));
    assert " \n" == " " + "\n";
    if |prev| == 0 {
      assert seen == "";
      assert Join(lines, " \n") == line;
    } else {
      PlainLinesVisible(prev);
      JoinSnoc(prev, line, " \n");
    }
  }

  /**
   * For text without markers the view shows every line of the text followed
   * by `" \n"`: the text with a space put before each newline, and `" \n"`
   * at the end.
   */
  lemma StarFreeTextVisible(text: string)
    requires '*' !in text
    ensures VisibleText(Rendered(text)) == ReplaceAll(text, "\n", " \n") + " \n"
  {
    var lines := Split(text, '\n');
    SplitKeepsCharOut(text, '\n', '*');
    PlainLinesVisible(lines);
    JoinOfSplit(text, '\n', " \n");
  }

  /** Empty text is still one line holding one empty word: a lone space, then a line break. */
  lemma EmptyTextRendered()
    ensures Rendered("") == [Run(" ", Plain), LineBreak]
  {
    assert Split("", '\n') == [""] && Split("", ' ') == [""];
    assert WordRun("", 0) == Run(" ", Plain);
    assert ParagraphRuns("") == [Run(" ", Plain)];
    assert [""][..0] == [];
  }
}
