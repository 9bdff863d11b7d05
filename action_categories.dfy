/** The four categories of the action menu, each a name, an icon and the
    templates it offers. */
module ActionCategories {
  import opened Wrappers
  import opened PromptTemplates

  /** The category icons, by name; the vector images are not modelled. */
  datatype Icon = Refresh | SentimentSatisfied | FormatListBulleted | Translate

  datatype ActionCategory = ActionCategory(name: string, icon: Icon, templates: seq<PromptTemplate>)

  /** `getActionCategories()` */
  function GetActionCategories(): seq<ActionCategory> {
    [ ActionCategory("Quick Actions", Refresh, CommonActions()),
      ActionCategory("Change tone", SentimentSatisfied, ToneActions()),
      ActionCategory("Format text", FormatListBulleted, FormattingActions()),
      ActionCategory("Translation", Translate, TranslationActions()) ]
  }

  /** The category that offers a template, told apart by its position in the
      menu, written out per template. */
  function CategoryIndex(t: PromptTemplate): Option<nat> {
    match t
    case Rephrase => Some(0)
    case FixGrammar => Some(0)
    case Summarize => Some(0)
    case Expand => Some(0)
    case ModifyToneFormal => Some(1)
    case ModifyToneCasual => Some(1)
    case ModifyTonePolite => Some(1)
    case MakeBulletPoints => Some(2)
    case ExplainLikeIm5 => Some(2)
    case TranslateToHindi => Some(3)
    case TranslateToEnglish => Some(3)
    case SuggestReply => None
  }

  /** Four categories, in menu order, each offering its group of templates;
      they offer 4, 3, 2 and 2 actions. */
  lemma CategoriesAreTheGroups()
    ensures var cs := GetActionCategories();
      && |cs| == 4
      && cs[0].name == "Quick Actions" && cs[0].templates == CommonActions()
      && cs[1].name == "Change tone" && cs[1].templates == ToneActions()
      && cs[2].name == "Format text" && cs[2].templates == FormattingActions()
      && cs[3].name == "Translation" && cs[3].templates == TranslationActions()
      && |cs[0].templates| == 4 && |cs[1].templates| == 3
      && |cs[2].templates| == 2 && |cs[3].templates| == 2
  {
  }

  /** No two categories share a name. */
  lemma CategoryNamesAreDistinct()
    ensures var cs := GetActionCategories();
      forall i, j :: 0 <= i < j < |cs| ==> cs[i].name != cs[j].name
  {
    var cs := GetActionCategories();
    assert cs[0].name[0] == 'Q' && cs[1].name[0] == 'C';
    assert cs[2].name[0] == 'F' && cs[3].name[0] == 'T';
  }

  /** A template is offered by category i exactly when `CategoryIndex` says
      so: every template is in at most one category, and SuggestReply is in
      none. */
  lemma CategoryIndexIsExact(t: PromptTemplate, i: nat)
    requires i < |GetActionCategories()|
    ensures t in GetActionCategories()[i].templates <==> CategoryIndex(t) == Some(i)
  {
  }

  /** Hence no template appears in two categories. */
  lemma CategoriesAreDisjoint(t: PromptTemplate, i: nat, j: nat)
    requires i < j < |GetActionCategories()|
    ensures !(t in GetActionCategories()[i].templates && t in GetActionCategories()[j].templates)
  {
    CategoryIndexIsExact(t, i);
    CategoryIndexIsExact(t, j);
  }
}
