# STEAM Integration Generator — a verified model of its markup core

The STEAM Integration Generator asks a language model for STEAM (Science,
Technology, Engineering, Arts, Mathematics) lesson ideas or lesson plans and
shows the answer with light markup. It exists three times:

- `steam.py`, the newer desktop application. It has time and location fields, an Ideas or Lesson Plan choice, an optional Nepali translation, a DOCX or PDF export and a five-entry history.
- `STEAM.py`, the older desktop application. It has one prompt, a Nepali option, the DOCX export and the history.
- `script.js`, the browser client. It parses the form, builds a prompt and turns the model's Markdown into HTML.

This project models the core shared by the three, in Dafny:

- **Word-level tokenizer and renderer** (`Markup`, `TextView`). The output text is split into lines, and each line into words. A word holding `**` becomes a heading if it is among the first two words of its line, and a subheading otherwise. A word holding a lone `*` becomes italic. Any other word is inserted as the word plus one space, and a newline follows every line. The Tk text widget is a `View` object holding runs and an editable flag. `FormatOutputText` fills it in a loop proved against the specification function `Rendered`.
- **DOCX export** (`DocxExport`). The same word rules write runs into a `Document` object, one justified paragraph per line. The headings are bold 14 pt, the subheadings bold 13 pt, the italic words italic, and plain words keep their trailing space. For the same input text, the document is shown to carry exactly the characters the view shows. The application, however, exports what the view holds: it reads the widget's text back, strips it and tokenizes it a second time. Markers the view has already consumed therefore never reach the DOCX or PDF file, and a rendered plain word comes back with its trailing space (`SteamApp.ExportRereadsView` works one line through).
- **PDF export** (`PdfExport`). It classifies per line, not per word. A line with `**` becomes a heading with the `**` removed. A line with `*` becomes a body block in which every `*` turns into `<i>`. The following `.replace("*", "</i>")` never finds a `*`, so no tag is ever closed, and the model keeps that behaviour. A non-blank line becomes a body block and a spacer, and a blank line is dropped.
- **History** (`HistoryLog`). This is the `deque(maxlen=5)` of one-line summaries, as a `History` object whose `Append` keeps only the newest five entries, in order.
- **Pure helpers**:
  - the API-key check (`SteamApp.ValidateApiKey`);
  - the prompt templates (`PromptTemplates`);
  - the input checks and the error-or-display decision of both desktop applications (`SteamApp`, `SteamLegacyApp`);
  - the browser's outcome parsing, prompt assembly and six-step Markdown-to-HTML replacement chain (`WebClient`).
- **Host-language string primitives** (`Strings`):
  - Python/JavaScript `split` on one character, which keeps empty fields, so `"".split(c) == [""]`;
  - non-overlapping left-to-right `replace`;
  - `strip()` and `trim()`, each with its own whitespace set;
  - `join`, `in` and `startswith`;
  - decimal formatting of an `int`.

`STEAM.py` repeats `validate_api_key`, `format_output_text`, the `export_to_docx` word loop and `update_history` of `steam.py` line for line. Each is modelled once and cited for both files.

Three behaviours of the code are kept as written:

- A marked word loses only its own marker. `"***x***"` shows as the heading `*x*`, because removing `**` leaves single stars.
- An empty text is still one line holding one empty word, so rendering it shows a space and a line break (`Markup.EmptyTextRendered`).
- The older application displays an empty model reply, while the newer one refuses it with its "Could not generate any meaningful output" error (`SteamLegacyApp.EmptyReplyDisplayed`).

Answers from the language model and the translator are parameters of type `Remote.Reply`:

- `Replied(text)` is what the call returned;
- `Raised(message)` is the exception it threw.

Other values decided outside the core are parameters too:

- the outcome of `int()` on the time field;
- the outcomes of the browser's `isNaN`/`parseInt` tests;
- the chosen file path;
- a failure while saving or building a file.

## Model

| member | source | states |
|---|---|---|
| Strings.Split | steam.py:167 | `str.split(c)` yields at least one field and no field contains the separator |
| Strings.JoinOfSplit | steam.py:308 | joining the fields of a split on `c` with `sep` replaces every `c` by `sep` |
| Strings.SplitJoinRoundTrip | steam.py:167 | splitting a join of separator-free fields on the separator gives the fields back |
| Strings.JoinSplitRoundTrip | steam.py:167 | joining a split's fields with the separator gives the string back |
| Strings.RemoveDoubleStars | steam.py:173 | after `replace("**", "")` no `**` is left |
| Strings.ReplaceCharRemovesIt | steam.py:181 | replacing a character by a text without it leaves none of it |
| Strings.ReplaceAllAbsent | steam.py:233-234 | `replace` of an absent pattern changes nothing |
| Strings.StripFacts | steam.py:192-193 | `strip()` is empty exactly for all-whitespace text, leaves no whitespace at either end and keeps text already without it |
| Strings.StripKeepsOut | script.js:49 | trimming adds no character |
| Strings.DecimalString | steam.py:44 | the decimal form of an `int`: a `-` exactly for negatives, digits elsewhere |
| Strings.DecimalRoundTrip | steam.py:44 | reading the decimal form back gives the number |
| Markup.WordRun | steam.py:172-185 | a word is Heading iff it holds `**` and its index is below 2, Subheading iff it holds `**` at index 2 or more, Italic iff it holds `*` but no `**`, Plain iff it has no `*`; Plain text is the word plus a space; heading text has no `**`; italic text has no `*` and holds every other character exactly when the word does |
| Markup.LineRunsPrefix | steam.py:169-185 | the counter equals the word's index: each word's run is classified at its own position |
| Markup.PlainLinesVisible | steam.py:167-186 | lines without markers show as each line followed by `" \n"` |
| Markup.StarFreeTextVisible | steam.py:167-186 | for text without `*` the view shows the text with every newline preceded by a space, plus `" \n"` |
| Markup.EmptyTextRendered | steam.py:167-186 | empty text renders one space and one line break |
| TextView.View.constructor | steam.py:565-572 | a new view holds nothing and is editable |
| TextView.View.SetEditable | steam.py:159 | switching the state leaves the content alone |
| TextView.View.DeleteAll | steam.py:160 | deleting empties an editable view and leaves a disabled one as it was |
| TextView.View.Insert | steam.py:173 | inserting appends one run to an editable view and is ignored by a disabled one |
| TextView.FormatOutputText | steam.py:157-188 | whatever the prior content, the view afterwards holds exactly `Rendered(text)` and is disabled |
| TextView.RenderLine | steam.py:168-186 | one line adds exactly its words' runs, each classified by its index, then one line break |
| DocxExport.Document.constructor | steam.py:263 | a new document has no paragraphs and the template's body font |
| DocxExport.Document.SetBodyFont | steam.py:264-266 | the `Normal` style gets the font and size, and the paragraphs are unchanged |
| DocxExport.Document.AddParagraph | steam.py:269 | one empty paragraph is appended |
| DocxExport.Document.AddRun | steam.py:274-288 | the run is appended to the last paragraph only |
| DocxExport.Document.JustifyLast | steam.py:291 | only the last paragraph becomes justified |
| DocxExport.BuildDocx | steam.py:263-291 | the document holds `DocxLayout(text)` in Helvetica 11 |
| DocxExport.AddLine | steam.py:269-291 | one line adds exactly one justified paragraph holding its words' runs |
| DocxExport.DocumentTextOfLines | steam.py:268-291 | the document's text equals the text the view shows for the same lines |
| DocxExport.DocxReadsLikeView | STEAM.py:177-200 | one justified paragraph per line, carrying the characters the view shows for the same input text |
| DocxExport.DocxRunFormatting | steam.py:273-288 | bold 14 pt iff a `**` word among the first two, bold 13 pt iff a later `**` word, italic iff a lone `*`, else the word plus a space in body style; no run keeps `**` |
| PdfExport.BuildStory | steam.py:226-239 | the loop builds `Story` of the lines of `text.split("\n")` |
| PdfExport.LineBlocksCases | steam.py:229-239 | `**` line: one heading with no `**` left; `*` line: one body block with every `*` as `<i>`; other non-blank line: the line and a 1x6 spacer; blank line: nothing |
| PdfExport.ItalicTagsNeverClose | steam.py:234 | the second replace is a no-op, so `</i>` is never written |
| PdfExport.ItalicExample | steam.py:234 | `"*x*"` becomes `"<i>x<i>"` |
| PdfExport.StoryLength | steam.py:227-239 | at most two blocks per line, and an all-blank text yields an empty story |
| HistoryLog.History.constructor | steam.py:90 | the history starts empty |
| HistoryLog.History.Append | steam.py:309 | appending keeps at most five entries: the previous ones plus the new entry, minus the oldest when over five |
| HistoryLog.AppendAllKeepsNewest | STEAM.py:32 | after any number of appends the log holds the newest five entries in append order, never more |
| HistoryLog.SixthAppendEvictsFirst | steam.py:90 | a sixth append evicts the first entry and keeps the other five in order |
| HistoryLog.EntryOfOutcomesField | STEAM.py:117 | the summary shows the outcomes field with a space after every comma |
| SteamApp.ValidateApiKey | steam.py:25-29 | a valid key has 39 characters and starts with `AIzaSy` |
| SteamApp.ApiKeyAccepted | STEAM.py:17-21 | a key starting with `AIzaSy` is accepted iff it has 39 characters |
| SteamApp.ApiKeyNeedsPrefix | steam.py:27 | a key not starting with `AIzaSy` is refused |
| SteamApp.PromptKind | steam.py:41-78 | the Ideas template is used iff the output type is `"Ideas"` |
| SteamApp.LessonPromptNotSteamIdeas | steam.py:55-56 | the lesson-plan prompt never starts like the Ideas prompt |
| SteamApp.IdeasIgnoresLocation | steam.py:42-53 | the Ideas prompt does not depend on the location |
| SteamApp.IdeasTextFailure | steam.py:137-146 | the result starts with `Error` iff the call raised, returned an empty text or returned a text starting with `Error`; otherwise it is the reply unchanged |
| SteamApp.TranslationTextFailure | steam.py:148-155 | the translation starts with `Error` iff the translator raised or returned such a text; otherwise it is the reply |
| SteamApp.FieldsCheck | steam.py:318-334 | the input is refused iff the time is empty or not an integer, or topic or age group is empty; the outcomes test never fires |
| SteamApp.GenerationDisplays | steam.py:311-363 | a display happens iff the input passes and the reply, and the translation under Nepali, do not start with `Error`; what is displayed is that reply, labelled Nepali or English |
| SteamApp.ErrorLikeReplyRefused | steam.py:350-351 | a reply starting with `Error` is shown as an error, never rendered |
| SteamApp.ExportDocx | steam.py:250-296 | empty text: warning and nothing written; no path: nothing; save failure: the failure message; else the layout is written and success reported |
| SteamApp.ExportPdf | steam.py:190-248 | the same four outcomes with the PDF messages and the story of the lines |
| SteamApp.App.constructor | steam.py:82-101 | empty editable view, empty history, DOCX format |
| SteamApp.App.UpdateHistory | steam.py:306-309 | one summary line is appended to the bounded history |
| SteamApp.App.GenerateAndDisplay | steam.py:311-363 | a refusal changes neither view nor history; a display renders the text and appends exactly one entry |
| SteamApp.ExportViewToDocx | steam.py:250-296 | on a blank view it warns and writes nothing; a document of the stripped view text is written iff the view is not blank, a path was chosen and saving succeeded; the export of STEAM.py:159-205 is the same operation on the older application's view |
| SteamApp.ExportViewToPdf | steam.py:190-248 | on a blank view it warns and writes nothing; the story of the stripped view text is written iff the view is not blank, a path was chosen and building succeeded |
| SteamApp.App.ExportDocument | steam.py:298-304 | `DOCX` exports a document, `PDF` a story, any other value nothing |
| SteamApp.ExportRereadsView | steam.py:252-291 | once the view shows `**A** b`, the exported text is `Ab` and the document gets one plain run `Ab `, while the line itself would have given a bold 14 pt heading `A` and a plain `b ` |
| SteamApp.HeadingLineRendered | steam.py:167-186 | the view renders `**A** b` as the heading `A`, the plain `b ` and a line break, showing `Ab \n` |
| SteamLegacyApp.LegacyFieldsCheck | STEAM.py:123-129 | only an empty topic or age group is refused, since a split always has a field |
| SteamLegacyApp.LegacyGenerationDisplays | STEAM.py:131-147 | a display happens iff the input passes and neither the reply nor the translation under Nepali is an error; the reply itself is displayed, labelled by the language |
| SteamLegacyApp.EmptyReplyDisplayed | STEAM.py:69-71 | an empty reply is displayed here, refused by the newer application, and the view it leaves is blank |
| SteamLegacyApp.LegacyApp.constructor | STEAM.py:276-283 | empty disabled view and empty history |
| SteamLegacyApp.LegacyApp.GenerateAndDisplay | STEAM.py:120-147 | an error aborts without touching view or history; otherwise one render and one history append |
| WebClient.TrimAll | script.js:49 | one result per field; each result has no surrounding whitespace, is empty iff its field is blank, equals its field when that had nothing to trim, and holds no character its field lacks |
| WebClient.NonEmpty | script.js:49 | a string is kept iff it is in the input and not empty; a one-element input is kept iff its element is not empty |
| WebClient.NonEmptyAppend | script.js:49 | filtering a concatenation is the concatenation of the filtered parts, so the filter keeps input order |
| WebClient.ParseOutcomes | script.js:49 | every parsed outcome is non-empty, trimmed and comma-free |
| WebClient.ParseOutcomesRoundTrip | script.js:49 | parsing the comma-join of well-formed outcomes gives them back |
| WebClient.ParseEmptyField | script.js:49 | an empty field yields no outcome |
| WebClient.OutcomesListLines | script.js:111 | the bullet list has one `"- " + outcome` line per outcome, in order |
| WebClient.WebPromptKind | script.js:113-174 | the Ideas template is used iff the output type is `'Ideas'` |
| WebClient.LessonPromptNotIdeas | script.js:141-142 | the lesson-plan prompt never starts like the Ideas prompt |
| WebClient.EmptyLocationIsDefault | script.js:147 | an empty location reads as `General Classroom Setting` |
| WebClient.CloseFrom | script.js:96-99 | the group found is the shortest with the closer after it; none is found only if no admissible closer position exists |
| WebClient.ApplyWithoutOpener | script.js:96-99 | a pattern whose opener occurs nowhere in the text changes nothing |
| WebClient.StarFreeUnchanged | script.js:96-97 | text without `*` passes the bold and italic steps unchanged |
| WebClient.ApplyWhole | script.js:96-99 | opener, group and closer become `before` + group + `after` |
| WebClient.BoldAndItalicPairs | script.js:96-97 | `**X**` becomes `<b>X</b>` and `*X*` becomes `<i>X</i>` for a star-free one-line X |
| WebClient.EmptyInlineCodeUntouched | script.js:99 | two adjacent backticks are left as they are |
| WebClient.DashRun | script.js:100 | a run of k dashes becomes ⌊k/3⌋ `<hr>` then k mod 3 dashes |
| WebClient.NoTripleDashAfterRules | script.js:100 | after the rule step no `---` is left |
| WebClient.NoNewlineInHtml | script.js:98-101 | the HTML holds no newline, not even inside code blocks |
| WebClient.OutcomesAlert | script.js:41-64 | the outcomes alert fires iff key and topic are present and no outcome survives parsing, so the `outcomes[0] === ""` test never decides anything |
| WebClient.ShownHtmlHasNoNewline | script.js:82-104 | whatever the model answers, the HTML put on the page holds no newline |

## Left out

- Tk widgets, fonts, window layout, message boxes and file dialogs. The view is a sequence of runs, a message box is a `Notice` value, and the chosen path is a parameter.
- The generative-model client, the translator and `fetch`/`callGeminiAPI`, which are network calls. Their answers are `Reply` parameters.
- python-docx and reportlab. The model records paragraphs, runs and blocks rather than file bytes, and `save`/`build` appear only as an optional failure message.
- The background thread of `generate_and_display` and `async`/`await` in the browser. These concern concurrency and the UI thread. The button and loading-overlay toggling is left out with them.
- The outer `except` of the newer application's worker thread, which catches failures of Tk itself.
- Python's `int()` parsing of the time field, which is an `Option<int>` parameter.
- JavaScript's `isNaN`/`parseInt` tests on age and time, which are boolean parameters. Under those rules an age of `10-12`, the example the alert itself gives, is not a number.
- `clear_all`/`clearAll`, `show_history`, `show_about`/`showAbout`, `change_api_key`/`changeAPIKey`, `api_key_window`, the password toggle, the dark-mode toggle and the Blob download in `exportText`. These are user-interface plumbing with no logic of the core.
- The `None` defaults of `generate_prompt`'s time and location. Both applications always pass values.
- The wording of the browser's alert and field-error messages (script.js:32-70). `WebClient.GenerateSteam` names the failed check as an `Alert` value instead.
- Strings are sequences of Unicode characters. JavaScript's UTF-16 code units and Python's code points are not distinguished.
- WebClient.NoTripleDashAfterRules: states the absence of `---` right after the rule step. The final newline step can create no dash.
