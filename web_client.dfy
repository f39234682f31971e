/**
 * The browser client: how it reads the outcomes field, the prompt it
 * assembles, and the chain of global regular-expression replacements that
 * turns the model's Markdown into the HTML it displays.
 */
module WebClient {
  import opened Wrappers
  import opened Remote
  import opened Strings
  import opened PromptTemplates

  // ---------------------------------------------------------------------
  // Outcomes

  /**
   * `fields.map(o => o.trim())`: each field loses its surrounding
   * whitespace and nothing else; a blank field becomes empty and a field
   * with nothing to trim comes through unchanged.
   */
  function TrimAll(fields: seq<string>): (trimmed: seq<string>)
    ensures |trimmed| == |fields|
    ensures forall i :: 0 <= i < |fields| ==> trimmed[i] == Strip(fields[i], JavaScript)
    ensures forall i :: 0 <= i < |trimmed| ==> Trimmed(trimmed[i], JavaScript)
    ensures forall i :: 0 <= i < |trimmed| ==> (trimmed[i] == "" <==> Blank(fields[i], JavaScript))
    ensures forall i :: 0 <= i < |trimmed| && Trimmed(fields[i], JavaScript) ==> trimmed[i] == fields[i]
    ensures forall i, c :: 0 <= i < |trimmed| && c in trimmed[i] ==> c in fields[i]
  {
    forall i | 0 <= i < |fields|
      ensures Trimmed(Strip(fields[i], JavaScript), JavaScript)
      ensures Strip(fields[i], JavaScript) == "" <==> Blank(fields[i], JavaScript)
      ensures Trimmed(fields[i], JavaScript) ==> Strip(fields[i], JavaScript) == fields[i]
      ensures forall c :: c in Strip(fields[i], JavaScript) ==> c in fields[i]
    {
      StripFacts(fields[i], JavaScript);
      forall c | c !in fields[i]
        ensures c !in Strip(fields[i], JavaScript)
      {
        StripKeepsOut(fields[i], JavaScript, c);
      }
    }
    seq(|fields|, i requires 0 <= i < |fields| => Strip(fields[i], JavaScript))
  }

  /** `items.filter(o => o)`: exactly the non-empty strings, in order. */
  function NonEmpty(items: seq<string>): (kept: seq<string>)
    ensures |kept| <= |items|
    ensures forall x :: x in kept <==> x in items && x != ""
    ensures |items| == 1 ==> kept == if items[0] == "" then [] else items
    decreases |items|
  {
    if items == [] then []
    else
      assert items == [items[0]] + items[1..];
      (if items[0] == "" then [] else [items[0]]) + NonEmpty(items[1..])
  }

  /** Filtering a concatenation filters each part and keeps them in order. */
  lemma {:induction false} NonEmptyAppend(a: seq<string>, b: seq<string>)
    ensures NonEmpty(a + b) == NonEmpty(a) + NonEmpty(b)
    decreases |a|
  {
    if a == [] {
      assert a + b == b;
    } else {
      NonEmptyAppend(a[1..], b);
      assert (a + b)[1..] == a[1..] + b;
    }
  }

  /** Filtering a list without empty strings keeps all of it. */
  lemma {:induction false} NonEmptyKeepsAll(items: seq<string>)
    requires forall i :: 0 <= i < |items| ==> items[i] != ""
    ensures NonEmpty(items) == items
    decreases |items|
  {
    if items != [] {
      NonEmptyKeepsAll(items[1..]);
      assert [items[0]] + items[1..] == items;
    }
  }

  /** A well-formed outcome: not empty, no surrounding whitespace, no comma. */
  predicate IsOutcome(o: string)
  {
    o != "" && Trimmed(o, JavaScript) && ',' !in o
  }

  /**
   * `value.trim().split(',').map(o => o.trim()).filter(o => o)`. Every
   * outcome it yields is well formed, so the first one is never empty and
   * the client's `outcomes[0] === ""` test can never succeed.
   */
  function ParseOutcomes(field: string): (outcomes: seq<string>)
    ensures forall i :: 0 <= i < |outcomes| ==> IsOutcome(outcomes[i])
  {
    var fields := Split(Strip(field, JavaScript), ',');
    KeptFieldsAreOutcomes(fields);
    NonEmpty(TrimAll(fields))
  }

  /** Trimming comma-free fields and dropping the empty ones leaves only well-formed outcomes. */
  lemma KeptFieldsAreOutcomes(fields: seq<string>)
    requires forall i :: 0 <= i < |fields| ==> ',' !in fields[i]
    ensures forall x :: x in NonEmpty(TrimAll(fields)) ==> IsOutcome(x)
  {
    var trimmed := TrimAll(fields);
    forall x | x in NonEmpty(trimmed)
      ensures IsOutcome(x)
    {
      var j :| 0 <= j < |trimmed| && trimmed[j] == x;
      assert ',' !in fields[j];
    }
  }

  /** The first and last characters of a join of non-empty parts are those of its first and last parts. */
  lemma {:induction false} JoinEnds(parts: seq<string>, sep: string)
    requires |parts| > 0 && forall i :: 0 <= i < |parts| ==> parts[i] != ""
    ensures var j := Join(parts, sep);
      |j| > 0 && j[0] == parts[0][0] && j[|j| - 1] == parts[|parts| - 1][|parts[|parts| - 1]| - 1]
    decreases |parts|
  {
    if |parts| > 1 {
      JoinEnds(parts[1..], sep);
    }
  }

  /** Trimming strings that are already trimmed changes none of them. */
  lemma TrimAllTrimmed(items: seq<string>)
    requires forall i :: 0 <= i < |items| ==> Trimmed(items[i], JavaScript)
    ensures TrimAll(items) == items
  {
    forall i | 0 <= i < |items|
      ensures Strip(items[i], JavaScript) == items[i]
    {
      StripFacts(items[i], JavaScript);
    }
  }

  /** A comma-joined field of well-formed outcomes has no whitespace to trim at either end. */
  lemma JoinedOutcomesTrimmed(outcomes: seq<string>)
    requires |outcomes| > 0 && forall i :: 0 <= i < |outcomes| ==> IsOutcome(outcomes[i])
    ensures Trimmed(Join(outcomes, ","), JavaScript)
  {
    JoinEnds(outcomes, ",");
    var last := outcomes[|outcomes| - 1];
    assert Trimmed(outcomes[0], JavaScript) && Trimmed(last, JavaScript);
  }

  /** An empty field yields no outcome. */
  lemma ParseEmptyField()
    ensures ParseOutcomes("") == []
  {
    assert Split(Strip("", JavaScript), ',') == [""];
    assert TrimAll([""]) == [""];
  }

  /** Joining well-formed outcomes with commas and parsing the field again gives them back. */
  lemma ParseOutcomesRoundTrip(outcomes: seq<string>)
    requires forall i :: 0 <= i < |outcomes| ==> IsOutcome(outcomes[i])
    ensures ParseOutcomes(Join(outcomes, ",")) == outcomes
  {
    if outcomes == [] {
      ParseEmptyField();
    } else {
      JoinedFieldSplits(outcomes);
      TrimAllTrimmed(outcomes);
      NonEmptyKeepsAll(outcomes);
    }
  }

  /** A comma-joined field of well-formed outcomes splits back into them, with nothing to trim. */
  lemma JoinedFieldSplits(outcomes: seq<string>)
    requires |outcomes| > 0 && forall i :: 0 <= i < |outcomes| ==> IsOutcome(outcomes[i])
    ensures Split(Strip(Join(outcomes, ","), JavaScript), ',') == outcomes
  {
    var field := Join(outcomes, ",");
    JoinedOutcomesTrimmed(outcomes);
    StripFacts(field, JavaScript);
    assert "," == [','];
    SplitJoinRoundTrip(outcomes, ',');
  }

  // ---------------------------------------------------------------------
  // Prompt

  /** `learningOutcomes.map(outcome => `- ${outcome}`).join('\n')`. */
  function OutcomesList(outcomes: seq<string>): string
  {
    Join(seq(|outcomes|, i requires 0 <= i < |outcomes| => "- " + outcomes[i]), "\n")
  }

  /** With outcomes on one line each, the bullet list has one line per outcome, in order. */
  lemma OutcomesListLines(outcomes: seq<string>)
    requires |outcomes| > 0
    requires forall i :: 0 <= i < |outcomes| ==> '\n' !in outcomes[i]
    ensures var lines := Split(OutcomesList(outcomes), '\n');
      |lines| == |outcomes| && forall i :: 0 <= i < |outcomes| ==> lines[i] == "- " + outcomes[i]
  {
    var bullets := seq(|outcomes|, i requires 0 <= i < |outcomes| => "- " + outcomes[i]);
    forall i | 0 <= i < |bullets|
      ensures '\n' !in bullets[i]
    {
      assert bullets[i] == "- " + outcomes[i];
    }
    assert "\n" == ['\n'];
    SplitJoinRoundTrip(bullets, '\n');
  }

  const DefaultLocation := "General Classroom Setting"

  /**
   * `generatePrompt`: the Ideas template exactly when the output type is
   * `'Ideas'`, otherwise the lesson-plan template, in which an empty
   * location reads as the general classroom setting.
   */
  function WebPrompt(topic: string, outcomes: seq<string>, ageGroup: string, outputType: string,
                     timeMinutes: string, locationName: string): string
  {
    if outputType == "Ideas" then
      WebIdeasPrompt(topic, OutcomesList(outcomes), ageGroup, timeMinutes)
    else
      WebLessonPrompt(topic, OutcomesList(outcomes), ageGroup, timeMinutes,
                      if locationName != "" then locationName else DefaultLocation)
  }

  /** The lesson-plan prompt never opens like the Ideas prompt. */
  lemma LessonPromptNotIdeas(topic: string, list: string, ageGroup: string, timeMinutes: string, location: string)
    ensures !(WebIdeasOpening <= WebLessonPrompt(topic, list, ageGroup, timeMinutes, location))
  {
    var rest := WebLesson1 + topic + WebLesson2 + ageGroup + WebLesson3 + timeMinutes + WebLesson4 + location
      + WebLesson5 + list + WebLesson6 + topic + WebLesson7 + ageGroup + WebLesson8 + topic + WebLesson9
      + topic + WebLesson10;
    NotPrefixOfExtension(WebIdeasOpening, WebLessonOpening, rest, 11);
  }

  /** The model is asked for ideas exactly when the output type is `'Ideas'`. */
  lemma WebPromptKind(topic: string, outcomes: seq<string>, ageGroup: string, outputType: string,
                      timeMinutes: string, locationName: string)
    ensures WebIdeasOpening <= WebPrompt(topic, outcomes, ageGroup, outputType, timeMinutes, locationName)
        <==> outputType == "Ideas"
  {
    var list := OutcomesList(outcomes);
    if outputType != "Ideas" {
      LessonPromptNotIdeas(topic, list, ageGroup, timeMinutes,
                           if locationName != "" then locationName else DefaultLocation);
    }
  }

  /** An empty location and the default one give the same prompt. */
  lemma EmptyLocationIsDefault(topic: string, outcomes: seq<string>, ageGroup: string, outputType: string,
                               timeMinutes: string)
    ensures WebPrompt(topic, outcomes, ageGroup, outputType, timeMinutes, "")
         == WebPrompt(topic, outcomes, ageGroup, outputType, timeMinutes, DefaultLocation)
  {
  }

  // ---------------------------------------------------------------------
  // Markdown to HTML

  /** The characters a pattern's captured group may consist of. */
  datatype CharClass =
    | AnyChar           // `[\s\S]`
    | NoLineTerminator  // `.`
    | NoBacktick        // `[^`]`

  /** ECMAScript's line terminators, the characters `.` does not match. */
  predicate IsLineTerminator(c: char)
  {
    c == '\n' || c == '\r' || c == '\U{2028}' || c == '\U{2029}'
  }

  predicate InClass(c: char, cls: CharClass)
  {
    match cls
    case AnyChar => true
    case NoLineTerminator => !IsLineTerminator(c)
    case NoBacktick => c != '`'
  }

  predicate AllInClass(s: string, from: nat, to: nat, cls: CharClass)
    requires from <= to <= |s|
  {
    forall t :: from <= t < to ==> InClass(s[t], cls)
  }

  /**
   * A pattern `opener (group) closer`, the group being at least
   * `minContent` characters of a class, replaced globally by `before` +
   * group + `after`.
   */
  datatype Rule = Rule(opener: string, cls: CharClass, minContent: nat, closer: string, before: string, after: string)

  predicate WellFormed(r: Rule)
  {
    r.opener != [] && r.closer != []
  }

  /** `/\*\*(.*?)\*\*​/g` → `<b>$1</b>`. */
  const Bold := Rule("**", NoLineTerminator, 0, "**", "<b>", "</b>")
  /** `/\*(.*?)\*​/g` → `<i>$1</i>`. */
  const Italic := Rule("*", NoLineTerminator, 0, "*", "<i>", "</i>")
  /** The fenced code pattern, three backticks around `[\s\S]*?`, → `<pre><code>$1</code></pre>`. */
  const CodeBlock := Rule("```", AnyChar, 0, "```", "<pre><code>", "</code></pre>")
  /** The inline code pattern, one backtick around `[^`]+`, → `<code>$1</code>`. */
  const InlineCode := Rule("`", NoBacktick, 1, "`", "<code>", "</code>")

  /**
   * Where the group of a match starting at `start` ends: the first
   * position from `j` on, with at least `minContent` characters of the
   * class behind it, at which the closer follows. For a lazy `*?` group
   * this is the match the regular expression engine takes; for `[^`]+` it
   * is the only possible one.
   */
  function CloseFrom(s: string, start: nat, j: nat, r: Rule): (k: Option<nat>)
    requires start <= j <= |s| && AllInClass(s, start, j, r.cls)
    ensures k.Some? ==>
      j <= k.value <= |s| && k.value - start >= r.minContent && r.closer <= s[k.value..]
      && AllInClass(s, start, k.value, r.cls)
    ensures k.Some? ==> forall m :: j <= m < k.value && m - start >= r.minContent ==> !(r.closer <= s[m..])
    ensures k.None? ==>
      forall m :: j <= m <= |s| && m - start >= r.minContent && AllInClass(s, start, m, r.cls) ==> !(r.closer <= s[m..])
    decreases |s| - j
  {
    if j - start >= r.minContent && r.closer <= s[j..] then Some(j)
    else if j < |s| && InClass(s[j], r.cls) then CloseFrom(s, start, j + 1, r)
    else None
  }

  /** The end of the group of a match at the start of `s`, if the pattern matches there. */
  function MatchAt(s: string, r: Rule): (k: Option<nat>)
    requires WellFormed(r)
    ensures k.Some? ==> |r.opener| <= k.value && k.value + |r.closer| <= |s|
  {
    if r.opener <= s then CloseFrom(s, |r.opener|, |r.opener|, r) else None
  }

  /** `s.replace(pattern, replacement)` with the global flag: matches are taken left to right, never overlapping. */
  function Apply(s: string, r: Rule): string
    requires WellFormed(r)
    decreases |s|
  {
    if s == [] then []
    else match MatchAt(s, r)
      case Some(k) => r.before + s[|r.opener|..k] + r.after + Apply(s[k + |r.closer|..], r)
      case None => [s[0]] + Apply(s[1..], r)
  }

  /** The conversion of `generateSTEAM`: bold, italic, code blocks, inline code, rules, line breaks. */
  function MarkdownToHtml(generated: string): string
  {
    var bold := Apply(generated, Bold);
    var italic := Apply(bold, Italic);
    var blocks := Apply(italic, CodeBlock);
    var code := Apply(blocks, InlineCode);
    var rules := ReplaceAll(code, "---", "<hr>");
    ReplaceAll(rules, "\n", "<br>")
  }

  /** A pattern whose opener occurs nowhere in the text leaves the text alone. */
  lemma {:induction false} ApplyWithoutOpener(s: string, r: Rule)
    requires WellFormed(r) && !Contains(s, r.opener)
    ensures Apply(s, r) == s
    decreases |s|
  {
    if s != [] {
      assert !(r.opener <= s);
      ApplyWithoutOpener(s[1..], r);
    }
  }

  /** Text without `*` comes through the bold and italic passes unchanged. */
  lemma StarFreeUnchanged(s: string)
    requires '*' !in s
    ensures Apply(s, Bold) == s
    ensures Apply(Apply(s, Bold), Italic) == s
  {
    ContainsChar(s, '*');
    if Contains(s, "**") {
      ContainsDoubleStarHasStar(s);
    }
    ApplyWithoutOpener(s, Bold);
    ApplyWithoutOpener(s, Italic);
  }

  /**
   * A group of the class and long enough, directly followed by the closer
   * and not holding the closer's first character, is the one the match takes.
   */
  lemma {:induction false} CloseFromFirst(s: string, start: nat, j: nat, e: nat, r: Rule)
    requires WellFormed(r) && start <= j <= e <= |s| && e - start >= r.minContent
    requires AllInClass(s, start, e, r.cls) && r.closer <= s[e..]
    requires forall m :: start <= m < e ==> s[m] != r.closer[0]
    ensures CloseFrom(s, start, j, r) == Some(e)
    decreases e - j
  {
    if j < e {
      assert s[j..][0] == s[j];
      CloseFromFirst(s, start, j + 1, e, r);
    }
  }

  /**
   * A text that is exactly opener, group and closer, the group being of the
   * class, long enough and free of the closer's first character, becomes
   * `before` + group + `after`.
   */
  lemma ApplyWhole(x: string, r: Rule)
    requires WellFormed(r)
    requires |x| >= r.minContent && r.closer[0] !in x
    requires forall t :: 0 <= t < |x| ==> InClass(x[t], r.cls)
    ensures Apply(r.opener + x + r.closer, r) == r.before + x + r.after
  {
    var s := r.opener + x + r.closer;
    var start := |r.opener|;
    var e := start + |x|;
    WholeFacts(r.opener, x, r.closer);
    forall m | start <= m < e
      ensures InClass(s[m], r.cls) && s[m] != r.closer[0]
    {
      var c := x[m - start];
      assert c in x;
      assert s[m] == c;
    }
    CloseFromFirst(s, start, start, e, r);
    assert MatchAt(s, r) == Some(e);
    assert Apply(s, r) == r.before + x + r.after + Apply([], r);
  }

  /** Where the three pieces of `a + x + c` sit. */
  lemma WholeFacts(a: string, x: string, c: string)
    ensures var s := a + x + c;
      a <= s && s[|a|..|a| + |x|] == x && s[|a| + |x|..] == c && s[|a| + |x| + |c|..] == []
      && forall t :: |a| <= t < |a| + |x| ==> s[t] == x[t - |a|]
  {
  }

  /** `**X**` becomes `<b>X</b>`, and `*X*` becomes `<i>X</i>`, for X one line without stars. */
  lemma BoldAndItalicPairs(x: string)
    requires '*' !in x
    requires forall t :: 0 <= t < |x| ==> !IsLineTerminator(x[t])
    ensures Apply("**" + x + "**", Bold) == "<b>" + x + "</b>"
    ensures Apply("*" + x + "*", Italic) == "<i>" + x + "</i>"
  {
    ApplyWhole(x, Bold);
    ApplyWhole(x, Italic);
  }

  /** Two adjacent backticks are not inline code: the group must hold at least one character. */
  lemma EmptyInlineCodeUntouched()
    ensures Apply("``", InlineCode) == "``"
  {
    var s := "``";
    assert InlineCode.opener <= s;
    assert CloseFrom(s, 1, 1, InlineCode) == None;
    assert MatchAt(s[1..], InlineCode) == None;
    assert Apply(s[1..], InlineCode) == "`" + Apply([], InlineCode);
  }

  /** The displayed HTML has no newline left: every one, inside code blocks too, became `<br>`. */
  lemma NoNewlineInHtml(generated: string)
    ensures '\n' !in MarkdownToHtml(generated)
  {
    var code := Apply(Apply(Apply(Apply(generated, Bold), Italic), CodeBlock), InlineCode);
    assert "\n" == ['\n'];
    ReplaceCharRemovesIt(ReplaceAll(code, "---", "<hr>"), '\n', "<br>");
  }

  /** `k` dashes. */
  function Dashes(k: nat): string
  {
    seq(k, _ => '-')
  }

  /** `k` copies of `s`. */
  function Repeat(s: string, k: nat): string
  {
    if k == 0 then "" else s + Repeat(s, k - 1)
  }

  /** A run of `k` dashes becomes ⌊k/3⌋ rules followed by the k mod 3 dashes left over. */
  lemma {:induction false} DashRun(k: nat)
    ensures ReplaceAll(Dashes(k), "---", "<hr>") == Repeat("<hr>", k / 3) + Dashes(k % 3)
    decreases k
  {
    if k >= 3 {
      assert "---" <= Dashes(k);
      assert Dashes(k)[3..] == Dashes(k - 3);
      DashRun(k - 3);
    }
  }

  /** A result of the rule pass starts with a dash only where its input did. */
  lemma {:induction false} RuleLeadingDashes(t: string)
    ensures var r := ReplaceAll(t, "---", "<hr>");
      (|r| > 0 && r[0] == '-' ==> |t| > 0 && t[0] == '-')
      && ("--" <= r ==> "--" <= t)
    decreases |t|
  {
    var r := ReplaceAll(t, "---", "<hr>");
    if |t| >= 3 && !("---" <= t) {
      RuleLeadingDashes(t[1..]);
      assert r == [t[0]] + ReplaceAll(t[1..], "---", "<hr>");
    }
  }

  /** An occurrence of a pattern in `x + y` whose first character is not in `x` lies in `y`. */
  lemma {:induction false} ContainsAfter(x: string, y: string, p: string)
    requires p != [] && p[0] !in x && Contains(x + y, p)
    ensures Contains(y, p)
    decreases |x|
  {
    if x != [] {
      assert !(p <= x + y);
      assert (x + y)[1..] == x[1..] + y;
      ContainsAfter(x[1..], y, p);
    } else {
      assert x + y == y;
    }
  }

  /** A string shorter than the pattern does not contain it. */
  lemma {:induction false} ShortContainsNothing(s: string, p: string)
    requires |s| < |p|
    ensures !Contains(s, p)
    decreases |s|
  {
    if |s| > 0 {
      ShortContainsNothing(s[1..], p);
    }
  }

  /** After the rule pass no three dashes are left in a row. */
  lemma {:induction false} NoTripleDashAfterRules(s: string)
    ensures !Contains(ReplaceAll(s, "---", "<hr>"), "---")
    decreases |s|
  {
    var r := ReplaceAll(s, "---", "<hr>");
    if |s| < 3 {
      assert r == s;
      ShortContainsNothing(r, "---");
    } else if "---" <= s {
      NoTripleDashAfterRules(s[3..]);
      if Contains(r, "---") {
        ContainsAfter("<hr>", ReplaceAll(s[3..], "---", "<hr>"), "---");
      }
    } else {
      NoTripleDashAfterRules(s[1..]);
      var rest := ReplaceAll(s[1..], "---", "<hr>");
      assert r == [s[0]] + rest;
      if s[0] == '-' {
        RuleLeadingDashes(s[1..]);
      }
    }
  }

  // ---------------------------------------------------------------------
  // generateSTEAM

  /** The input checks of `generateSTEAM`, in the order they are made. */
  datatype Alert = MissingApiKey | MissingTopic | MissingOutcomes | InvalidAge | InvalidTime

  /** What `generateSTEAM` ends with: an alert, or the HTML put on the page together with the prompt sent. */
  datatype WebResult = Alerted(alert: Alert) | Shown(html: string, prompt: string)

  const NoTextMessage := "Error generating STEAM ideas. Please check the console for details."

  /**
   * `generateSTEAM`, its checks in order and then the conversion of what
   * the model produced. `ageIsNumber` and `timeIsPositive` are the outcomes
   * of the client's numeric tests on the trimmed age and time fields;
   * `reply` is what `callGeminiAPI` returned or threw.
   */
  function GenerateSteam(apiKeyField: string, topicField: string, outcomesField: string, ageField: string,
                         outputType: string, timeField: string, locationField: string,
                         ageIsNumber: bool, timeIsPositive: bool, reply: Reply): WebResult
  {
    var topic := Strip(topicField, JavaScript);
    var outcomes := ParseOutcomes(outcomesField);
    var ageGroup := Strip(ageField, JavaScript);
    var timeMinutes := Strip(timeField, JavaScript);
    match InputAlert(Strip(apiKeyField, JavaScript), topic, outcomes, ageGroup, timeMinutes, ageIsNumber, timeIsPositive)
    case Some(alert) => Alerted(alert)
    case None =>
      Shown(MarkdownToHtml(GeneratedText(reply)),
            WebPrompt(topic, outcomes, ageGroup, outputType, timeMinutes, Strip(locationField, JavaScript)))
  }

  /** The checks of `generateSTEAM` on the trimmed fields: the first that fails, if any. */
  function InputAlert(apiKey: string, topic: string, outcomes: seq<string>, ageGroup: string, timeMinutes: string,
                      ageIsNumber: bool, timeIsPositive: bool): Option<Alert>
  {
    if apiKey == "" then Some(MissingApiKey)
    else if topic == "" then Some(MissingTopic)
    else if |outcomes| == 0 || outcomes[0] == "" then Some(MissingOutcomes)
    else if ageGroup == "" || !ageIsNumber then Some(InvalidAge)
    else if timeMinutes == "" || !timeIsPositive then Some(InvalidTime)
    else None
  }

  /** The text to convert: the model's answer, or the fixed message when the call threw. */
  function GeneratedText(reply: Reply): string
  {
    match reply
    case Replied(text) => text
    case Raised(_) => NoTextMessage
  }

  /**
   * The outcomes alert is raised exactly when, the key and topic being
   * present, no outcome survives parsing: the `outcomes[0] === ""` half of
   * the test never decides anything.
   */
  lemma OutcomesAlert(apiKeyField: string, topicField: string, outcomesField: string, ageField: string,
                      outputType: string, timeField: string, locationField: string,
                      ageIsNumber: bool, timeIsPositive: bool, reply: Reply)
    ensures GenerateSteam(apiKeyField, topicField, outcomesField, ageField, outputType, timeField,
                          locationField, ageIsNumber, timeIsPositive, reply) == Alerted(MissingOutcomes)
      <==> !Blank(apiKeyField, JavaScript) && !Blank(topicField, JavaScript) && ParseOutcomes(outcomesField) == []
  {
    StripFacts(apiKeyField, JavaScript);
    StripFacts(topicField, JavaScript);
  }

  /** Whatever the model answers, the HTML put on the page is its conversion and holds no newline. */
  lemma ShownHtmlHasNoNewline(apiKeyField: string, topicField: string, outcomesField: string, ageField: string,
                              outputType: string, timeField: string, locationField: string,
                              ageIsNumber: bool, timeIsPositive: bool, reply: Reply)
    ensures var result := GenerateSteam(apiKeyField, topicField, outcomesField, ageField, outputType, timeField,
                                        locationField, ageIsNumber, timeIsPositive, reply);
      result.Shown? ==> result.html == MarkdownToHtml(GeneratedText(reply)) && '\n' !in result.html
  {
    NoNewlineInHtml(GeneratedText(reply));
  }
}
