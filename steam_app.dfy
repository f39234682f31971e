/**
 * The desktop application: input checking and the order of its error
 * messages, prompt assembly, the handling of the model's and the
 * translator's replies, rendering into the view, the history, and the two
 * exports behind the format selector.
 */
module SteamApp {
  import opened Wrappers
  import opened Remote
  import opened Strings
  import opened Markup
  import opened TextView
  import opened DocxExport
  import opened PdfExport
  import opened HistoryLog
  import opened PromptTemplates

  /** `validate_api_key`: a Gemini key is 39 characters long and starts with `AIzaSy`. */
  function ValidateApiKey(key: string): (valid: bool)
    ensures valid ==> |key| == 39 && key[..6] == "AIzaSy"
  {
    key != "" && |key| == 39 && "AIzaSy" <= key
  }

  /**
   * The accepted keys are exactly `AIzaSy` followed by 33 more characters,
   * whatever they are; the separate emptiness test adds nothing.
   */
  lemma ApiKeyAccepted(suffix: string)
    ensures ValidateApiKey("AIzaSy" + suffix) <==> |suffix| == 33
  {
    assert ("AIzaSy" + suffix)[..6] == "AIzaSy";
  }

  /** A key that does not start with `AIzaSy` is refused whatever its length. */
  lemma ApiKeyNeedsPrefix(key: string)
    requires |key| >= 6 && key[..6] != "AIzaSy"
    ensures !ValidateApiKey(key)
  {
  }

  /**
   * `generate_prompt`: the Ideas template exactly when the output type is
   * `"Ideas"`, otherwise the lesson-plan template; the outcomes are joined by
   * `", "` and the time is written in decimal.
   */
  function GeneratePrompt(topic: string, outcomes: seq<string>, ageGroup: string, outputType: string,
                          timeMinutes: int, locationName: string): string
  {
    if outputType == "Ideas" then
      SteamIdeasPrompt(topic, Join(outcomes, ", "), ageGroup, DecimalString(timeMinutes))
    else
      SteamLessonPrompt(topic, Join(outcomes, ", "), ageGroup, DecimalString(timeMinutes), locationName)
  }

  /**
   * The model is asked for ideas exactly when the output type is `"Ideas"`;
   * any other value asks for a lesson plan, whose first line is indented one
   * space less.
   */
  lemma PromptKind(topic: string, outcomes: seq<string>, ageGroup: string, outputType: string,
                   timeMinutes: int, locationName: string)
    ensures SteamIdeasOpening <= GeneratePrompt(topic, outcomes, ageGroup, outputType, timeMinutes, locationName)
        <==> outputType == "Ideas"
  {
    if outputType != "Ideas" {
      LessonPromptNotSteamIdeas(topic, Join(outcomes, ", "), ageGroup, DecimalString(timeMinutes), locationName);
    }
  }

  /** The lesson-plan prompt never opens like the Ideas prompt. */
  lemma LessonPromptNotSteamIdeas(topic: string, outcomes: string, ageGroup: string, timeMinutes: string,
                                  locationName: string)
    ensures !(SteamIdeasOpening <= SteamLessonPrompt(topic, outcomes, ageGroup, timeMinutes, locationName))
  {
    var rest := SteamLesson1 + topic + SteamLesson2 + ageGroup + SteamLesson3 + timeMinutes + SteamLesson4 + outcomes
      + SteamLesson5 + locationName + SteamLesson6;
    NotPrefixOfExtension(SteamIdeasOpening, SteamLessonOpening, rest, 12);
  }

  /** The Ideas prompt does not depend on the location. */
  lemma IdeasIgnoresLocation(topic: string, outcomes: seq<string>, ageGroup: string, timeMinutes: int,
                             location1: string, location2: string)
    ensures GeneratePrompt(topic, outcomes, ageGroup, "Ideas", timeMinutes, location1)
         == GeneratePrompt(topic, outcomes, ageGroup, "Ideas", timeMinutes, location2)
  {
  }

  /** The text shown for an empty reply; written in two parts so that its `Error` prefix is plain to see. */
  const NoOutputMessage := "Error" + ": Could not generate any meaningful output, please try again."

  /** `generate_steam_ideas` once the model has answered: an empty reply and an exception both become error texts. */
  function IdeasText(generation: Reply): string
  {
    match generation
    case Raised(e) => "Error generating STEAM ideas: " + e
    case Replied(text) => if text != "" then text else NoOutputMessage
  }

  /** `translate_text` once the translator has answered. */
  function TranslationText(translation: Reply): string
  {
    match translation
    case Raised(e) => "Error in translation: " + e
    case Replied(text) => text
  }

  /** A result counts as failed when it starts with `Error`, as the caller tests it. */
  predicate IsErrorText(s: string)
  {
    "Error" <= s
  }

  /**
   * The generation result is taken for a failure exactly when the call
   * raised, the reply was empty, or the reply itself happens to begin with
   * `Error`; a successful result is the reply, unchanged.
   */
  lemma IdeasTextFailure(generation: Reply)
    ensures IsErrorText(IdeasText(generation))
        <==> generation.Raised? || generation.text == "" || IsErrorText(generation.text)
    ensures !IsErrorText(IdeasText(generation)) ==> generation == Replied(IdeasText(generation))
  {
    if generation.Raised? {
      assert ("Error generating STEAM ideas: " + generation.message)[..5] == "Error";
    }
  }

  /** The translation is taken for a failure exactly when the translator raised or its text begins with `Error`. */
  lemma TranslationTextFailure(translation: Reply)
    ensures IsErrorText(TranslationText(translation))
        <==> translation.Raised? || IsErrorText(translation.text)
    ensures !IsErrorText(TranslationText(translation)) ==> translation == Replied(TranslationText(translation))
  {
    if translation.Raised? {
      assert ("Error in translation: " + translation.message)[..5] == "Error";
    }
  }

  /** A message box the application shows, or none. */
  datatype Notice =
    | Silent
    | ShowError(title: string, message: string)
    | ShowWarning(title: string, message: string)
    | ShowInfo(title: string, message: string)

  /** How a request for generation ends: refused with an error box, or displayed and recorded under a language label. */
  datatype Outcome = Refused(notice: Notice) | Display(text: string, languageLabel: string)

  /**
   * The checks `generate_and_display` makes before calling the model, in
   * its order: a time value is present, it parses as an integer, and topic,
   * outcomes and age group are filled in.
   */
  function InputCheck(topic: string, outcomesField: string, ageGroup: string, timeField: string,
                      parsedTime: Option<int>): Option<Notice>
  {
    if timeField == "" then Some(ShowError("Error", "Please provide a value for class time."))
    else if parsedTime.None? then Some(ShowError("Error", "Time must be a valid integer number."))
    else if topic == "" || Split(outcomesField, ',') == [] || ageGroup == "" then
      Some(ShowError("Error", "Please fill in all fields."))
    else None
  }

  /**
   * The whole of `generate_and_display` as a decision: the input checks,
   * then the model's result, then, for Nepali, the translator's.
   * `parsedTime` is what `int()` made of the time field.
   */
  function Generation(topic: string, outcomesField: string, ageGroup: string, language: string,
                      timeField: string, parsedTime: Option<int>, generation: Reply, translation: Reply): Outcome
  {
    var check := InputCheck(topic, outcomesField, ageGroup, timeField, parsedTime);
    if check.Some? then Refused(check.value)
    else
      var ideas := IdeasText(generation);
      if IsErrorText(ideas) then Refused(ShowError("Error", ideas))
      else if language == "Nepali" then
        var translated := TranslationText(translation);
        if IsErrorText(translated) then Refused(ShowError("Error", translated))
        else Display(translated, "Nepali")
      else Display(ideas, "English")
  }

  /**
   * The "fill in all fields" refusal happens exactly when the time is
   * valid and the topic or the age group is empty: the outcomes field,
   * even when empty, always splits into at least one outcome.
   */
  lemma FieldsCheck(topic: string, outcomesField: string, ageGroup: string, timeField: string, parsedTime: Option<int>)
    ensures InputCheck(topic, outcomesField, ageGroup, timeField, parsedTime)
         == Some(ShowError("Error", "Please fill in all fields."))
        <==> timeField != "" && parsedTime.Some? && (topic == "" || ageGroup == "")
  {
  }

  /**
   * What gets displayed: only a text that does not start with `Error`;
   * under the Nepali setting the translator's reply and otherwise the
   * model's reply, unchanged; labelled by the setting.
   */
  lemma GenerationDisplays(topic: string, outcomesField: string, ageGroup: string, language: string,
                           timeField: string, parsedTime: Option<int>, generation: Reply, translation: Reply)
    ensures var outcome := Generation(topic, outcomesField, ageGroup, language, timeField, parsedTime, generation, translation);
      outcome.Display? <==>
        InputCheck(topic, outcomesField, ageGroup, timeField, parsedTime).None?
        && generation.Replied? && generation.text != "" && !IsErrorText(generation.text)
        && (language == "Nepali" ==> translation.Replied? && !IsErrorText(translation.text))
    ensures var outcome := Generation(topic, outcomesField, ageGroup, language, timeField, parsedTime, generation, translation);
      outcome.Display? ==>
        !IsErrorText(outcome.text)
        && (outcome.languageLabel == "Nepali" <==> language == "Nepali")
        && (outcome.languageLabel == "Nepali" || outcome.languageLabel == "English")
        && (if language == "Nepali" then translation == Replied(outcome.text) else generation == Replied(outcome.text))
  {
    IdeasTextFailure(generation);
    TranslationTextFailure(translation);
  }

  /** A reply that merely starts with `Error` is shown as an error, never rendered. */
  lemma ErrorLikeReplyRefused(topic: string, outcomesField: string, ageGroup: string, language: string,
                              timeField: string, parsedTime: Option<int>, text: string, translation: Reply)
    requires IsErrorText(text)
    requires InputCheck(topic, outcomesField, ageGroup, timeField, parsedTime).None?
    ensures Generation(topic, outcomesField, ageGroup, language, timeField, parsedTime, Replied(text), translation)
         == Refused(ShowError("Error", text))
  {
  }

  /** What was written by an export: the document's paragraphs or the portable document's story. */
  datatype Export = DocxFile(paragraphs: seq<DocxParagraph>) | PdfFile(story: seq<Flowable>)

  /**
   * `export_to_docx` from the stripped view text on: nothing to export gives
   * a warning; a cancelled file dialog (empty path) does nothing; otherwise
   * the document is built, and either saved with a success message or the
   * exception `save` raised is reported.
   */
  method ExportDocx(steamText: string, path: string, saveError: Option<string>)
    returns (notice: Notice, written: Option<Export>)
    ensures steamText == "" ==> notice == ShowWarning("Warning", "No STEAM ideas to export.") && written == None
    ensures steamText != "" && path == "" ==> notice == Silent && written == None
    ensures steamText != "" && path != "" && saveError.Some? ==>
      notice == ShowError("Error", "Failed to export STEAM ideas: " + saveError.value) && written == None
    ensures steamText != "" && path != "" && saveError.None? ==>
      notice == ShowInfo("Success", "STEAM ideas exported successfully.")
      && written == Some(DocxFile(DocxLayout(steamText)))
  {
    if steamText == "" {
      return ShowWarning("Warning", "No STEAM ideas to export."), None;
    }
    notice, written := Silent, None;
    if path != "" {
      var document := BuildDocx(steamText);
      if saveError.Some? {
        notice := ShowError("Error", "Failed to export STEAM ideas: " + saveError.value);
      } else {
        written := Some(DocxFile(document.paragraphs));
        notice := ShowInfo("Success", "STEAM ideas exported successfully.");
      }
    }
  }

  /**
   * `export_to_pdf` from the stripped view text on, with the same three
   * outcomes as the document export and its own messages; `buildError` is
   * the exception `build` raised, if any.
   */
  method ExportPdf(steamText: string, path: string, buildError: Option<string>)
    returns (notice: Notice, written: Option<Export>)
    ensures steamText == "" ==> notice == ShowWarning("Warning", "No STEAM ideas to export.") && written == None
    ensures steamText != "" && path == "" ==> notice == Silent && written == None
    ensures steamText != "" && path != "" && buildError.Some? ==>
      notice == ShowError("Error", "Failed to export STEAM ideas to PDF: " + buildError.value) && written == None
    ensures steamText != "" && path != "" && buildError.None? ==>
      notice == ShowInfo("Success", "STEAM ideas exported successfully to PDF.")
      && written == Some(PdfFile(Story(Split(steamText, '\n'))))
  {
    if steamText == "" {
      return ShowWarning("Warning", "No STEAM ideas to export."), None;
    }
    notice, written := Silent, None;
    if path != "" {
      var story := BuildStory(steamText);
      if buildError.Some? {
        notice := ShowError("Error", "Failed to export STEAM ideas to PDF: " + buildError.value);
      } else {
        written := Some(PdfFile(story));
        notice := ShowInfo("Success", "STEAM ideas exported successfully to PDF.");
      }
    }
  }

  /** The text the exports start from: the view's content, stripped of surrounding whitespace. */
  function ExportText(view: View): string
    reads view
  {
    Strip(view.Get(), Python)
  }

  /**
   * `export_to_docx` on what a view shows; both applications export their
   * output view through this one operation.
   */
  method ExportViewToDocx(view: View, path: string, saveError: Option<string>) returns (notice: Notice, written: Option<Export>)
    ensures Blank(view.Get(), Python) ==>
      notice == ShowWarning("Warning", "No STEAM ideas to export.") && written == None
    ensures !Blank(view.Get(), Python) && path != "" && saveError.None? ==>
      notice == ShowInfo("Success", "STEAM ideas exported successfully.")
    ensures written.Some? <==> !Blank(view.Get(), Python) && path != "" && saveError.None?
    ensures written.Some? ==> written == Some(DocxFile(DocxLayout(ExportText(view))))
  {
    StripFacts(view.Get(), Python);
    notice, written := ExportDocx(ExportText(view), path, saveError);
  }

  /** `export_to_pdf` on what a view shows. */
  method ExportViewToPdf(view: View, path: string, buildError: Option<string>) returns (notice: Notice, written: Option<Export>)
    ensures Blank(view.Get(), Python) ==>
      notice == ShowWarning("Warning", "No STEAM ideas to export.") && written == None
    ensures !Blank(view.Get(), Python) && path != "" && buildError.None? ==>
      notice == ShowInfo("Success", "STEAM ideas exported successfully to PDF.")
    ensures written.Some? <==> !Blank(view.Get(), Python) && path != "" && buildError.None?
    ensures written.Some? ==> written == Some(PdfFile(Story(Split(ExportText(view), '\n'))))
  {
    StripFacts(view.Get(), Python);
    notice, written := ExportPdf(ExportText(view), path, buildError);
  }

  /** A line with a heading and a plain word, as the model might write it. */
  const HeadingLine := "**A** b"

  /** The line's words: the marked heading and the plain word after it. */
  lemma HeadingLineWords()
    ensures Split(HeadingLine, ' ') == ["**A**", "b"]
  {
    assert HeadingLine == "**A**" + ([' '] + "b");
    SplitPrefix("**A**", [' '] + "b", ' ');
    SingleField("b", ' ');
    assert Split([' '] + "b", ' ') == [""] + Split("b", ' ');
    assert "**A**" + "" == "**A**";
  }

  /** Removing the markers of the heading word leaves its letter. */
  lemma HeadingWordRun()
    ensures WordRun("**A**", 0) == Run("A", Heading)
  {
    var w := "**A**";
    assert "**" <= w;
    assert w[2..] == "A**" && "A**"[1..] == "**" && "**"[2..] == "";
    assert "**"[0] != "A**"[0];
    assert !("**" <= "A**");
    assert ReplaceAll("**", "**", "") == "";
    assert ReplaceAll("A**", "**", "") == "A";
    assert ReplaceAll(w, "**", "") == "A";
  }

  /** The line's runs: the heading without its markers, then the plain word with its space. */
  lemma HeadingLineRuns()
    ensures ParagraphRuns(HeadingLine) == [Run("A", Heading), Run("b ", Plain)]
  {
    HeadingLineWords();
    HeadingWordsRuns();
  }

  /** The runs of the line's two words, each at its own position. */
  lemma HeadingWordsRuns()
    ensures LineRuns(["**A**", "b"]) == [Run("A", Heading), Run("b ", Plain)]
  {
    HeadingWordRun();
    assert WordRun("b", 1) == Run("b ", Plain);
  }

  /** The characters of the view's runs for the line. */
  lemma HeadingLineVisible()
    ensures VisibleText([Run("A", Heading), Run("b ", Plain), LineBreak]) == "Ab \n"
  {
    var runs := [Run("A", Heading), Run("b ", Plain), LineBreak];
    assert runs[..2] == [Run("A", Heading), Run("b ", Plain)];
    assert runs[..2][..1] == [Run("A", Heading)];
    assert [Run("A", Heading)][..0] == [];
    assert VisibleText(runs[..2][..1]) == "A";
    assert VisibleText(runs[..2]) == "Ab ";
  }

  /** The view shows the heading without its markers and without a space before the next word. */
  lemma HeadingLineRendered()
    ensures Rendered(HeadingLine) == [Run("A", Heading), Run("b ", Plain), LineBreak]
    ensures VisibleText(Rendered(HeadingLine)) == "Ab \n"
  {
    SingleField(HeadingLine, '\n');
    HeadingLineRuns();
    assert [HeadingLine][..0] == [];
    assert ViewRuns([HeadingLine]) == [Run("A", Heading), Run("b ", Plain), LineBreak];
    HeadingLineVisible();
  }

  /** What the view holds after the heading line, stripped as the exports strip it. */
  lemma RenderedHeadingLineStripped()
    ensures Strip("Ab \n\n", Python) == "Ab"
  {
    var t := "Ab \n\n";
    assert StripLeft(t, Python) == t;
    assert t[..4] == "Ab \n" && t[4] == '\n';
    assert "Ab \n"[..3] == "Ab " && "Ab \n"[3] == '\n';
    assert "Ab "[..2] == "Ab" && "Ab "[2] == ' ';
    assert StripRight("Ab", Python) == "Ab";
    assert StripRight("Ab ", Python) == "Ab";
    assert StripRight("Ab \n", Python) == "Ab";
  }

  /** Read back, the line is one plain word. */
  lemma StrippedLineParagraph()
    ensures DocxLayout("Ab") == [DocxParagraph([DocxRun("Ab ", false, false, None)], Justify)]
  {
    assert "Ab" == "Ab" + "";
    SingleField("Ab", '\n');
    SingleField("Ab", ' ');
    assert WordRun("Ab", 0) == Run("Ab ", Plain);
    assert LineRuns(["Ab"]) == [Run("Ab ", Plain)];
    assert LineParagraph("Ab") == DocxParagraph([DocxRun("Ab ", false, false, None)], Justify);
  }

  /** Exported directly, the line would keep its bold heading. */
  lemma HeadingLineParagraph()
    ensures DocxLayout(HeadingLine)
         == [DocxParagraph([DocxRun("A", true, false, Some(14)), DocxRun("b ", false, false, None)], Justify)]
  {
    SingleField(HeadingLine, '\n');
    HeadingLineRuns();
    assert DocxRuns([Run("A", Heading), Run("b ", Plain)])
        == [DocxRun("A", true, false, Some(14)), DocxRun("b ", false, false, None)];
    assert DocxParagraphs([HeadingLine]) == [LineParagraph(HeadingLine)];
  }

  /**
   * The exports read the view's text again, not the generated text: once
   * the view shows the heading line, the document gets one plain run,
   * where exporting the line itself would have given a bold heading.
   */
  lemma ExportRereadsView(view: View)
    requires view.runs == Rendered(HeadingLine)
    ensures ExportText(view) == "Ab"
    ensures DocxLayout(ExportText(view)) == [DocxParagraph([DocxRun("Ab ", false, false, None)], Justify)]
    ensures DocxLayout(HeadingLine)
         == [DocxParagraph([DocxRun("A", true, false, Some(14)), DocxRun("b ", false, false, None)], Justify)]
  {
    HeadingLineRendered();
    assert view.Get() == "Ab \n\n";
    RenderedHeadingLineStripped();
    StrippedLineParagraph();
    HeadingLineParagraph();
  }

  /**
   * The application's state: the output view, the history and the selected
   * export format (`"DOCX"` until changed).
   */
  class App {
    const view: View
    const history: History
    var exportFormat: string

    ghost predicate Valid()
      reads this, history
    {
      history.Valid()
    }

    /** `SteamApp()`: an empty, editable view, an empty history, DOCX selected. */
    constructor()
      ensures Valid() && fresh(view) && fresh(history)
      ensures view.runs == [] && view.editable && history.entries == [] && exportFormat == "DOCX"
    {
      view := new View();
      history := new History();
      exportFormat := "DOCX";
    }

    /** `update_history`: one summary line appended to the bounded history. */
    method UpdateHistory(topic: string, outcomes: seq<string>, ageGroup: string, language: string)
      requires Valid()
      modifies history
      ensures Valid()
      ensures history.entries == DequeAppend(old(history.entries), FormatEntry(topic, outcomes, ageGroup, language))
    {
      history.Append(FormatEntry(topic, outcomes, ageGroup, language));
    }

    /**
     * `generate_and_display`, with the worker thread run to completion:
     * `parsedTime` is what `int()` made of the time field, `generation` and
     * `translation` what the model and the translator answered. Returns
     * the message box shown and the prompt sent, if one was. A refusal
     * leaves view and history as they were; a display renders the text
     * into the view and appends one summary line to the history.
     */
    method GenerateAndDisplay(topic: string, outcomesField: string, ageGroup: string, language: string,
                              outputType: string, timeField: string, parsedTime: Option<int>,
                              locationName: string, generation: Reply, translation: Reply)
      returns (notice: Notice, prompt: Option<string>)
      requires Valid()
      modifies view, history
      ensures Valid()
      ensures InputCheck(topic, outcomesField, ageGroup, timeField, parsedTime).None? ==>
        prompt == Some(GeneratePrompt(topic, Split(outcomesField, ','), ageGroup, outputType, parsedTime.value, locationName))
      ensures InputCheck(topic, outcomesField, ageGroup, timeField, parsedTime).Some? ==> prompt == None
      ensures match Generation(topic, outcomesField, ageGroup, language, timeField, parsedTime, generation, translation)
        case Refused(n) =>
          notice == n && view.runs == old(view.runs) && view.editable == old(view.editable)
          && history.entries == old(history.entries)
        case Display(text, languageLabel) =>
          notice == Silent && view.runs == Rendered(text) && !view.editable
          && history.entries
             == DequeAppend(old(history.entries), FormatEntry(topic, Split(outcomesField, ','), ageGroup, languageLabel))
    {
      var learningOutcomes := Split(outcomesField, ',');
      if timeField == "" {
        return ShowError("Error", "Please provide a value for class time."), None;
      }
      if parsedTime.None? {
        return ShowError("Error", "Time must be a valid integer number."), None;
      }
      var timeMinutes := parsedTime.value;
      if topic == "" || learningOutcomes == [] || ageGroup == "" {
        return ShowError("Error", "Please fill in all fields."), None;
      }
      prompt := Some(GeneratePrompt(topic, learningOutcomes, ageGroup, outputType, timeMinutes, locationName));
      notice := Silent;
      var steamIdeas := IdeasText(generation);
      if IsErrorText(steamIdeas) {
        notice := ShowError("Error", steamIdeas);
      } else if language == "Nepali" {
        var translatedIdeas := TranslationText(translation);
        if IsErrorText(translatedIdeas) {
          notice := ShowError("Error", translatedIdeas);
        } else {
          FormatOutputText(view, translatedIdeas);
          UpdateHistory(topic, learningOutcomes, ageGroup, "Nepali");
        }
      } else {
        FormatOutputText(view, steamIdeas);
        UpdateHistory(topic, learningOutcomes, ageGroup, "English");
      }
    }

    /**
     * `export_document`: the document export for `"DOCX"`, the portable one
     * for `"PDF"`, nothing for any other selection. `failure` is the
     * exception the chosen export's writer raised, if any.
     */
    method ExportDocument(path: string, failure: Option<string>) returns (notice: Notice, written: Option<Export>)
      ensures exportFormat == "DOCX" && !Blank(view.Get(), Python) && path != "" && failure.None? ==>
        written == Some(DocxFile(DocxLayout(ExportText(view))))
      ensures exportFormat == "PDF" && !Blank(view.Get(), Python) && path != "" && failure.None? ==>
        written == Some(PdfFile(Story(Split(ExportText(view), '\n'))))
      ensures exportFormat != "DOCX" && exportFormat != "PDF" ==> notice == Silent && written == None
      ensures written.Some? ==> (written.value.DocxFile? <==> exportFormat == "DOCX")
    {
      notice, written := Silent, None;
      if exportFormat == "DOCX" {
        notice, written := ExportViewToDocx(view, path, failure);
      } else if exportFormat == "PDF" {
        notice, written := ExportViewToPdf(view, path, failure);
      }
    }
  }
}
