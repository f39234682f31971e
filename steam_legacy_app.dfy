/**
 * The older desktop application: no time or location fields, one prompt,
 * a synchronous call to the model, and only the document export. Its key
 * check, its rendering routine and its document export are the same as
 * the newer application's and are taken from there.
 */
module SteamLegacyApp {
  import opened Wrappers
  import opened Remote
  import opened Strings
  import opened Markup
  import opened TextView
  import opened DocxExport
  import opened HistoryLog
  import opened PromptTemplates
  import opened SteamApp

  /** The prompt of `generate_steam_ideas`, the outcomes joined by `", "`. */
  function LegacyPrompt(topic: string, outcomes: seq<string>, ageGroup: string): string
  {
    LegacyIdeasPrompt(topic, Join(outcomes, ", "), ageGroup)
  }

  /** `generate_steam_ideas` once the model has answered: only an exception becomes an error text. */
  function LegacyIdeasText(generation: Reply): string
  {
    match generation
    case Raised(e) => "Error generating STEAM ideas: " + e
    case Replied(text) => text
  }

  /** The one check made before calling the model. */
  function LegacyInputCheck(topic: string, outcomesField: string, ageGroup: string): Option<Notice>
  {
    if topic == "" || Split(outcomesField, ',') == [] || ageGroup == "" then
      Some(ShowError("Error", "Please fill in all fields."))
    else None
  }

  /** `generate_and_display` as a decision: the check, the model's result, then, for Nepali, the translator's. */
  function LegacyGeneration(topic: string, outcomesField: string, ageGroup: string, language: string,
                            generation: Reply, translation: Reply): Outcome
  {
    var check := LegacyInputCheck(topic, outcomesField, ageGroup);
    if check.Some? then Refused(check.value)
    else
      var ideas := LegacyIdeasText(generation);
      if IsErrorText(ideas) then Refused(ShowError("Error", ideas))
      else if language == "Nepali" then
        var translated := TranslationText(translation);
        if IsErrorText(translated) then Refused(ShowError("Error", translated))
        else Display(translated, "Nepali")
      else Display(ideas, "English")
  }

  /** Only an empty topic or age group is refused: the outcomes test never fires. */
  lemma LegacyFieldsCheck(topic: string, outcomesField: string, ageGroup: string)
    ensures LegacyInputCheck(topic, outcomesField, ageGroup).Some? <==> topic == "" || ageGroup == ""
  {
  }

  /**
   * What gets displayed: a text not starting with `Error`, the model's
   * reply itself (possibly empty) or, under the Nepali setting, the
   * translator's, labelled by the setting.
   */
  lemma LegacyGenerationDisplays(topic: string, outcomesField: string, ageGroup: string, language: string,
                                 generation: Reply, translation: Reply)
    ensures var outcome := LegacyGeneration(topic, outcomesField, ageGroup, language, generation, translation);
      outcome.Display? <==>
        topic != "" && ageGroup != ""
        && generation.Replied? && !IsErrorText(generation.text)
        && (language == "Nepali" ==> translation.Replied? && !IsErrorText(translation.text))
    ensures var outcome := LegacyGeneration(topic, outcomesField, ageGroup, language, generation, translation);
      outcome.Display? ==>
        !IsErrorText(outcome.text)
        && (outcome.languageLabel == "Nepali" <==> language == "Nepali")
        && (if language == "Nepali" then translation == Replied(outcome.text) else generation == Replied(outcome.text))
  {
    TranslationTextFailure(translation);
    if generation.Raised? {
      assert ("Error generating STEAM ideas: " + generation.message)[..5] == "Error";
    }
  }

  /**
   * Unlike the newer application, an empty reply is displayed as it is: the
   * view then holds one blank line, so the document export afterwards finds
   * nothing to export.
   */
  lemma EmptyReplyDisplayed(topic: string, outcomesField: string, ageGroup: string, translation: Reply)
    requires topic != "" && ageGroup != ""
    ensures LegacyGeneration(topic, outcomesField, ageGroup, "English", Replied(""), translation) == Display("", "English")
    ensures Generation(topic, outcomesField, ageGroup, "English", "10", Some(10), Replied(""), translation)
         == Refused(ShowError("Error", NoOutputMessage))
    ensures Blank(VisibleText(Rendered("")) + "\n", Python)
  {
    EmptyTextRendered();
    assert VisibleText(Rendered("")) == " \n";
    var shown := VisibleText(Rendered("")) + "\n";
    assert shown == " \n\n";
    assert forall k :: 0 <= k < |shown| ==> IsSpace(shown[k], Python);
  }

  /** The older application's state: the output view and the history. */
  class LegacyApp {
    const view: View
    const history: History

    ghost predicate Valid()
      reads this, history
    {
      history.Valid()
    }

    /** `SteamApp()`: an empty view, created disabled, and an empty history. */
    constructor()
      ensures Valid() && fresh(view) && fresh(history)
      ensures view.runs == [] && !view.editable && history.entries == []
    {
      var v := new View();
      v.SetEditable(false);
      view := v;
      history := new History();
    }

    /**
     * `generate_and_display`: `generation` and `translation` are what the
     * model and the translator answered. Returns the message box shown and
     * the prompt sent, if one was. A refusal leaves view and history as
     * they were; a display renders the text and appends one summary line.
     */
    method GenerateAndDisplay(topic: string, outcomesField: string, ageGroup: string, language: string,
                              generation: Reply, translation: Reply)
      returns (notice: Notice, prompt: Option<string>)
      requires Valid()
      modifies view, history
      ensures Valid()
      ensures prompt == if LegacyInputCheck(topic, outcomesField, ageGroup).None?
        then Some(LegacyPrompt(topic, Split(outcomesField, ','), ageGroup)) else None
      ensures match LegacyGeneration(topic, outcomesField, ageGroup, language, generation, translation)
        case Refused(n) =>
          notice == n && view.runs == old(view.runs) && view.editable == old(view.editable)
          && history.entries == old(history.entries)
        case Display(text, languageLabel) =>
          notice == Silent && view.runs == Rendered(text) && !view.editable
          && history.entries
             == DequeAppend(old(history.entries), FormatEntry(topic, Split(outcomesField, ','), ageGroup, languageLabel))
    {
      var learningOutcomes := Split(outcomesField, ',');
      if topic == "" || learningOutcomes == [] || ageGroup == "" {
        return ShowError("Error", "Please fill in all fields."), None;
      }
      prompt := Some(LegacyPrompt(topic, learningOutcomes, ageGroup));
      var steamIdeas := LegacyIdeasText(generation);
      if IsErrorText(steamIdeas) {
        return ShowError("Error", steamIdeas), prompt;
      }
      notice := Silent;
      if language == "Nepali" {
        var translatedIdeas := TranslationText(translation);
        if IsErrorText(translatedIdeas) {
          return ShowError("Error", translatedIdeas), prompt;
        }
        FormatOutputText(view, translatedIdeas);
        history.Append(FormatEntry(topic, learningOutcomes, ageGroup, "Nepali"));
      } else {
        FormatOutputText(view, steamIdeas);
        history.Append(FormatEntry(topic, learningOutcomes, ageGroup, "English"));
      }
    }
  }
}
