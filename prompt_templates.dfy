/** The prompt templates of the app: twelve fixed instructions, each with
    one `{text}` placeholder that the selected text replaces, and the four
    groups in which the action menu offers them. */
module PromptTemplates {
  import opened KotlinText

  /** The templates, in declaration order. */
  datatype PromptTemplate =
    | Rephrase | FixGrammar | ModifyToneFormal | ModifyToneCasual | ModifyTonePolite
    | SuggestReply | Summarize | Expand | TranslateToHindi | TranslateToEnglish
    | ExplainLikeIm5 | MakeBulletPoints

  /** The enum's entries, as `values()` lists them. */
  function AllTemplates(): (r: seq<PromptTemplate>)
    ensures |r| == 12
    ensures forall i, j :: 0 <= i < j < |r| ==> r[i] != r[j]
  {
    [Rephrase, FixGrammar, ModifyToneFormal, ModifyToneCasual, ModifyTonePolite,
     SuggestReply, Summarize, Expand, TranslateToHindi, TranslateToEnglish,
     ExplainLikeIm5, MakeBulletPoints]
  }

  /** The name shown on the action button. */
  function DisplayName(t: PromptTemplate): string {
    match t
    case Rephrase => "Rephrase"
    case FixGrammar => "Fix Grammar"
    case ModifyToneFormal => "Make Formal"
    case ModifyToneCasual => "Make Casual"
    case ModifyTonePolite => "Make Polite"
    case SuggestReply => "Suggest Reply"
    case Summarize => "Summarize"
    case Expand => "Expand"
    case TranslateToHindi => "Translate to Hindi"
    case TranslateToEnglish => "Translate to English"
    case ExplainLikeIm5 => "Explain Like I'm 5"
    case MakeBulletPoints => "Make Bullet Points"
  }

  /** Every template is listed. */
  lemma EveryTemplateListed(t: PromptTemplate)
    ensures t in AllTemplates()
  {
  }

  /** No two templates share a display name. */
  lemma DisplayNamesAreDistinct(t: PromptTemplate, u: PromptTemplate)
    requires t != u
    ensures DisplayName(t) != DisplayName(u)
  {
  }

  /** The placeholder that `getPrompt` replaces. */
  const Placeholder: string := "{text}"

  /** Every template has the same layout: a request, a blank line, the
      placeholder between double quotes, a blank line, and a closing
      instruction. `Intro` is the request and `Closing` the instruction;
      the literals are split into short pieces, which changes nothing about
      the strings. */
  function Intro(t: PromptTemplate): string {
    match t
    case Rephrase =>
      "Please rephrase the " + "following text " + "while maintaining "
      + "the same meaning " + "but using different " + "words and sentence "
      + "structure:"
    case FixGrammar =>
      "Please correct any " + "grammar, spelling, " + "and punctuation "
      + "errors in the " + "following text:"
    case ModifyToneFormal =>
      "Please rewrite the " + "following text in a " + "formal, "
      + "professional tone:"
    case ModifyToneCasual =>
      "Please rewrite the " + "following text in a " + "casual, friendly "
      + "tone:"
    case ModifyTonePolite =>
      "Please rewrite the " + "following text in a " + "more polite and "
      + "respectful tone:"
    case SuggestReply =>
      "Based on the " + "following message, " + "suggest 3 "
      + "appropriate reply " + "options:"
    case Summarize =>
      "Please provide a " + "concise summary of " + "the following text:"
    case Expand =>
      "Please expand and " + "elaborate on the " + "following text with "
      + "more details and " + "examples:"
    case TranslateToHindi =>
      "Please translate " + "the following text " + "to Hindi:"
    case TranslateToEnglish =>
      "Please translate " + "the following text " + "to English:"
    case ExplainLikeIm5 =>
      "Please explain the " + "following text in " + "very simple terms "
      + "that a 5-year-old " + "could understand:"
    case MakeBulletPoints =>
      "Please convert the " + "following text into " + "clear bullet points:"
  }

  /** The closing instruction of SuggestReply, the longest of them, in two
      halves: what to provide and how the replies should vary. */
  const SuggestReplyRequest: string :=
    "Provide 3 numbered " + "reply suggestions " + "that are " + "contextually "
  const SuggestReplyRange: string :=
    "appropriate and " + "varied in tone " + "(formal, casual, " + "enthusiastic)."

  function Closing(t: PromptTemplate): string {
    match t
    case Rephrase =>
      "Provide only the " + "rephrased text " + "without any " + "additional "
      + "explanation."
    case FixGrammar =>
      "Provide only the " + "corrected text " + "without any " + "additional "
      + "explanation."
    case ModifyToneFormal =>
      "Provide only the " + "rewritten text " + "without any " + "additional "
      + "explanation."
    case ModifyToneCasual =>
      "Provide only the " + "rewritten text " + "without any " + "additional "
      + "explanation."
    case ModifyTonePolite =>
      "Provide only the " + "rewritten text " + "without any " + "additional "
      + "explanation."
    case SuggestReply => SuggestReplyRequest + SuggestReplyRange
    case Summarize =>
      "Provide only the " + "summary without any " + "additional "
      + "explanation."
    case Expand =>
      "Provide only the " + "expanded text " + "without any " + "additional "
      + "explanation."
    case TranslateToHindi =>
      "Provide only the " + "translated text " + "without any "
      + "additional " + "explanation."
    case TranslateToEnglish =>
      "Provide only the " + "translated text " + "without any "
      + "additional " + "explanation."
    case ExplainLikeIm5 =>
      "Use simple words " + "and concepts."
    case MakeBulletPoints =>
      "Provide only the " + "bullet points " + "without any " + "additional "
      + "explanation."
  }

  /** The layout of every template around its request and closing
      instruction. */
  function Layout(intro: string, closing: string): string {
    intro + "\n\n\"" + Placeholder + "\"\n\n" + closing
  }

  /** The template string of the enum entry. */
  function Template(t: PromptTemplate): string {
    Layout(Intro(t), Closing(t))
  }

  /** `getPrompt(text)`: every occurrence of the placeholder in the template,
      found left to right without overlap, is replaced by `text`. */
  function GetPrompt(t: PromptTemplate, text: string): string {
    Replace(Template(t), Placeholder, text)
  }

  /** No character `{` outside the placeholder. */
  predicate BraceFree(t: PromptTemplate) {
    '{' !in Intro(t) && '{' !in Closing(t)
  }

  // One lemma per string: the request and the closing instruction of each
  // template hold no `{`.

  lemma RephraseIntroLacksBrace() ensures '{' !in Intro(Rephrase) {}
  lemma RephraseClosingLacksBrace() ensures '{' !in Closing(Rephrase) {}
  lemma FixGrammarIntroLacksBrace() ensures '{' !in Intro(FixGrammar) {}
  lemma FixGrammarClosingLacksBrace() ensures '{' !in Closing(FixGrammar) {}
  lemma ModifyToneFormalIntroLacksBrace() ensures '{' !in Intro(ModifyToneFormal) {}
  lemma ModifyToneFormalClosingLacksBrace() ensures '{' !in Closing(ModifyToneFormal) {}
  lemma ModifyToneCasualIntroLacksBrace() ensures '{' !in Intro(ModifyToneCasual) {}
  lemma ModifyToneCasualClosingLacksBrace() ensures '{' !in Closing(ModifyToneCasual) {}
  lemma ModifyTonePoliteIntroLacksBrace() ensures '{' !in Intro(ModifyTonePolite) {}
  lemma ModifyTonePoliteClosingLacksBrace() ensures '{' !in Closing(ModifyTonePolite) {}
  lemma SuggestReplyIntroLacksBrace() ensures '{' !in Intro(SuggestReply) {}
  lemma SuggestReplyClosingLacksBrace() ensures '{' !in Closing(SuggestReply) {
    assert '{' !in SuggestReplyRequest;
    assert '{' !in SuggestReplyRange;
  }
  lemma SummarizeIntroLacksBrace() ensures '{' !in Intro(Summarize) {}
  lemma SummarizeClosingLacksBrace() ensures '{' !in Closing(Summarize) {}
  lemma ExpandIntroLacksBrace() ensures '{' !in Intro(Expand) {}
  lemma ExpandClosingLacksBrace() ensures '{' !in Closing(Expand) {}
  lemma TranslateToHindiIntroLacksBrace() ensures '{' !in Intro(TranslateToHindi) {}
  lemma TranslateToHindiClosingLacksBrace() ensures '{' !in Closing(TranslateToHindi) {}
  lemma TranslateToEnglishIntroLacksBrace() ensures '{' !in Intro(TranslateToEnglish) {}
  lemma TranslateToEnglishClosingLacksBrace() ensures '{' !in Closing(TranslateToEnglish) {}
  lemma ExplainLikeIm5IntroLacksBrace() ensures '{' !in Intro(ExplainLikeIm5) {}
  lemma ExplainLikeIm5ClosingLacksBrace() ensures '{' !in Closing(ExplainLikeIm5) {}
  lemma MakeBulletPointsIntroLacksBrace() ensures '{' !in Intro(MakeBulletPoints) {}
  lemma MakeBulletPointsClosingLacksBrace() ensures '{' !in Closing(MakeBulletPoints) {}

  /** No template holds a `{` outside its placeholder. */
  lemma TemplatesAreBraceFree(t: PromptTemplate)
    ensures BraceFree(t)
  {
    match t
    case Rephrase => RephraseIntroLacksBrace(); RephraseClosingLacksBrace();
    case FixGrammar => FixGrammarIntroLacksBrace(); FixGrammarClosingLacksBrace();
    case ModifyToneFormal => ModifyToneFormalIntroLacksBrace(); ModifyToneFormalClosingLacksBrace();
    case ModifyToneCasual => ModifyToneCasualIntroLacksBrace(); ModifyToneCasualClosingLacksBrace();
    case ModifyTonePolite => ModifyTonePoliteIntroLacksBrace(); ModifyTonePoliteClosingLacksBrace();
    case SuggestReply => SuggestReplyIntroLacksBrace(); SuggestReplyClosingLacksBrace();
    case Summarize => SummarizeIntroLacksBrace(); SummarizeClosingLacksBrace();
    case Expand => ExpandIntroLacksBrace(); ExpandClosingLacksBrace();
    case TranslateToHindi => TranslateToHindiIntroLacksBrace(); TranslateToHindiClosingLacksBrace();
    case TranslateToEnglish => TranslateToEnglishIntroLacksBrace(); TranslateToEnglishClosingLacksBrace();
    case ExplainLikeIm5 => ExplainLikeIm5IntroLacksBrace(); ExplainLikeIm5ClosingLacksBrace();
    case MakeBulletPoints => MakeBulletPointsIntroLacksBrace(); MakeBulletPointsClosingLacksBrace();
  }

  /** Replacing the placeholder in a layout whose request and closing hold
      no `{` puts the text where the placeholder was, once. */
  lemma LayoutSubstitutes(intro: string, closing: string, text: string)
    requires '{' !in intro && '{' !in closing
    ensures Replace(Layout(intro, closing), Placeholder, text) == intro + "\n\n\"" + text + "\"\n\n" + closing
    ensures Occurrences(Layout(intro, closing), Placeholder) == 1
  {
    var before := intro + "\n\n\"";
    var after := "\"\n\n" + closing;
    assert Layout(intro, closing) == before + Placeholder + after;
    ReplaceSingle(before, Placeholder, after, text);
    OccurrencesSingle(before, Placeholder, after);
  }

  /** `getPrompt` puts the text, verbatim, where the placeholder was: the
      placeholder is substituted once, and a placeholder inside the text is
      not substituted again. */
  lemma GetPromptSubstitutes(t: PromptTemplate, text: string)
    ensures GetPrompt(t, text) == Intro(t) + "\n\n\"" + text + "\"\n\n" + Closing(t)
  {
    TemplatesAreBraceFree(t);
    LayoutSubstitutes(Intro(t), Closing(t), text);
  }

  /** Every template holds the placeholder exactly once. */
  lemma PlaceholderOccursOnce(t: PromptTemplate)
    ensures Occurrences(Template(t), Placeholder) == 1
  {
    TemplatesAreBraceFree(t);
    LayoutSubstitutes(Intro(t), Closing(t), "");
  }

  /** The prompt is the template with the six placeholder characters
      exchanged for the text. */
  lemma PromptLength(t: PromptTemplate, text: string)
    ensures |GetPrompt(t, text)| == |Template(t)| - |Placeholder| + |text|
  {
    GetPromptSubstitutes(t, text);
  }

  /** In the prompt the text stands between double quotes. */
  lemma PromptQuotesText(t: PromptTemplate, text: string)
    ensures var k := |Intro(t)| + 2;
      k + |text| + 2 <= |GetPrompt(t, text)| && GetPrompt(t, text)[k..k + |text| + 2] == "\"" + text + "\""
  {
    GetPromptSubstitutes(t, text);
    QuotedInFrame(Intro(t), text, Closing(t));
  }

  lemma QuotedInFrame(intro: string, text: string, closing: string)
    ensures var p := intro + "\n\n\"" + text + "\"\n\n" + closing; var k := |intro| + 2;
      k + |text| + 2 <= |p| && p[k..k + |text| + 2] == "\"" + text + "\""
  {
    var p := intro + "\n\n\"" + text + "\"\n\n" + closing;
    assert p == intro + "\n\n" + ("\"" + text + "\"") + "\n\n" + closing;
  }

  // The groups the action menu offers.

  function CommonActions(): seq<PromptTemplate> {
    [Rephrase, FixGrammar, Summarize, Expand]
  }

  function ToneActions(): seq<PromptTemplate> {
    [ModifyToneFormal, ModifyToneCasual, ModifyTonePolite]
  }

  function FormattingActions(): seq<PromptTemplate> {
    [MakeBulletPoints, ExplainLikeIm5]
  }

  function TranslationActions(): seq<PromptTemplate> {
    [TranslateToHindi, TranslateToEnglish]
  }

  /** The four groups one after the other. */
  function GroupedActions(): seq<PromptTemplate> {
    CommonActions() + ToneActions() + FormattingActions() + TranslationActions()
  }

  /** No template is offered twice, within a group or across groups, so the
      groups are pairwise disjoint. */
  lemma GroupsAreDisjoint()
    ensures forall i, j :: 0 <= i < j < |GroupedActions()| ==> GroupedActions()[i] != GroupedActions()[j]
  {
  }

  /** The groups offer eleven of the twelve templates: all but SuggestReply. */
  lemma GroupsMissOnlySuggestReply()
    ensures |GroupedActions()| == 11
    ensures forall t :: t in GroupedActions() <==> t != SuggestReply
  {
  }
}
