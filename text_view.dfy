/**
 * The on-screen result: a scrolled Tk text widget, and the routine that
 * renders generated text into it word by word.
 */
module TextView {
  import opened Strings
  import opened Markup

  /**
   * The output widget: its content as tagged runs, and whether it takes
   * edits (`state=NORMAL`) or silently ignores them (`state=DISABLED`),
   * as a Tk text widget does.
   */
  class View {
    var runs: seq<Run>
    var editable: bool

    constructor()
      ensures runs == [] && editable
    {
      runs := [];
      editable := true;
    }

    /** `config(state=NORMAL)` or `config(state=DISABLED)`. */
    method SetEditable(normal: bool)
      modifies this
      ensures editable == normal && runs == old(runs)
    {
      editable := normal;
    }

    /** `delete(1.0, END)`. */
    method DeleteAll()
      modifies this
      ensures editable == old(editable)
      ensures runs == if old(editable) then [] else old(runs)
    {
      if editable {
        runs := [];
      }
    }

    /** `insert(END, text, tag)`. */
    method Insert(text: string, style: Style)
      modifies this
      ensures editable == old(editable)
      ensures runs == if old(editable) then old(runs) + [Run(text, style)] else old(runs)
    {
      if editable {
        runs := runs + [Run(text, style)];
      }
    }

    /** `get(1.0, END)`: what is shown, with the newline Tk keeps after the last line. */
    function Get(): string
      reads this
    {
      VisibleText(runs) + "\n"
    }
  }

  /**
   * `format_output_text`: clears the view, then for every line of
   * `text.split("\n")` inserts one run per word of `line.split(" ")`, the
   * word's position in the line deciding between heading and subheading,
   * and a newline after the line; the view is left disabled. Whatever the
   * view showed before, and whether or not it was disabled, it afterwards
   * shows exactly the rendering of `text`.
   */
  method FormatOutputText(view: View, text: string)
    modifies view
    ensures view.runs == Rendered(text)
    ensures !view.editable
  {
    view.SetEditable(true);
    view.DeleteAll();
    var paragraphs := Split(text, '\n');
    for p := 0 to |paragraphs|
      invariant view.editable
      invariant view.runs == ViewRuns(paragraphs[..p])
    {
      RenderLine(view, paragraphs[p]);
      assert paragraphs[..p + 1][..p] == paragraphs[..p];
    }
    assert paragraphs[..|paragraphs|] == paragraphs;
    view.SetEditable(false);
  }

  /**
   * One iteration of the outer loop of `format_output_text`: a run per word
   * of `line.split(" ")`, classified by the word's position, then a newline.
   */
  method RenderLine(view: View, line: string)
    requires view.editable
    modifies view
    ensures view.editable
    ensures view.runs == old(view.runs) + ParagraphRuns(line) + [LineBreak]
  {
    var words := Split(line, ' ');
    var wordCount := 0;
    for w := 0 to |words|
      invariant wordCount == w
      invariant view.editable
      invariant view.runs == old(view.runs) + LineRuns(words[..w])
    {
      var word := words[w];
      if wordCount < 2 && Contains(word, "**") {
        view.Insert(ReplaceAll(word, "**", ""), Heading);
        wordCount := wordCount + 1;
      } else if Contains(word, "**") {
        view.Insert(ReplaceAll(word, "**", ""), Subheading);
        wordCount := wordCount + 1;
      } else if Contains(word, "*") {
        view.Insert(ReplaceAll(word, "*", ""), Italic);
        wordCount := wordCount + 1;
      } else {
        view.Insert(word + " ", Plain);
        wordCount := wordCount + 1;
      }
      LineRunsPrefix(words, w);
    }
    view.Insert("\n", Plain);
    assert words[..|words|] == words;
  }
}
