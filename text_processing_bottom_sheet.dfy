/** The bottom sheet in which an action is chosen and its result shown: the
    five state variables and the events that change them, the callbacks
    `handleAction` delivers while it runs an action, the preview of the
    selected text, the buttons under a result and the action descriptions.
    The callbacks, which the app receives asynchronously, are delivered here
    one after the other, in the order `handleAction` makes them. */
module TextProcessingBottomSheet {
  import opened Wrappers
  import opened KotlinText
  import opened GeminiClient
  import opened PromptTemplates
  import opened ActionCategories

  // ---------------------------------------------------------------------
  // handleAction

  /** The callbacks `handleAction` is given. */
  datatype Callback = TextUpdate(text: string) | Complete | Error(message: string)

  const NoActivityMessage: string := "Unable to access activity context"
  const MissingKeyMessage: string := "API key not found. Please configure your Gemini API key."
  const ErrorPrefix: string := "Error: "

  /** One text update per emitted snapshot, in order. */
  function Updates(snapshots: seq<string>): (r: seq<Callback>)
    ensures |r| == |snapshots|
    ensures forall i :: 0 <= i < |r| ==> r[i] == TextUpdate(snapshots[i])
    decreases |snapshots|
  {
    if snapshots == [] then []
    else Updates(snapshots[..|snapshots| - 1]) + [TextUpdate(snapshots[|snapshots| - 1])]
  }

  /** The callbacks of one run of `handleAction`, in order. Without an
      activity, or without a stored key, there is one error and nothing
      else. Otherwise every snapshot of the stream is an update, a failure
      of the stream is an error, and completion follows in every case. */
  function ActionCallbacks(hasActivity: bool, apiKey: Option<string>, body: ResponseBody): seq<Callback> {
    if !hasActivity then [Error(NoActivityMessage)]
    else if apiKey.None? then [Error(MissingKeyMessage)]
    else
      Updates(Snapshots(body.lines))
      + (match StreamError(body)
         case None => []
         case Some(m) => [Error(ErrorPrefix + m)])
      + [Complete]
  }

  /** `handleAction`: looks for the activity and the key, builds the prompt
      and its request, runs the stream and reports through the callbacks.
      `hasActivity` says whether the context leads to an activity, `apiKey`
      is the stored key, and `body` is the response to the request. */
  method HandleAction(template: PromptTemplate, selectedText: string, hasActivity: bool,
                      apiKey: Option<string>, body: ResponseBody)
    returns (request: Option<GeminiRequest>, callbacks: seq<Callback>)
    ensures callbacks == ActionCallbacks(hasActivity, apiKey, body)
    ensures request == if hasActivity && apiKey.Some? then Some(BuildRequest(GetPrompt(template, selectedText))) else None
  {
    if !hasActivity {
      return None, [Error(NoActivityMessage)];
    }
    if apiKey.None? {
      return None, [Error(MissingKeyMessage)];
    }
    var prompt := GetPrompt(template, selectedText);
    request := Some(BuildRequest(prompt));
    var emitted, error := GenerateTextStream(body);
    callbacks := Collect(emitted);
    if error.Some? {
      callbacks := callbacks + [Error(ErrorPrefix + error.value)];
    }
    callbacks := callbacks + [Complete];
  }

  /** The `collect` of the stream: one text update per emitted value, in
      the order of emission. */
  method Collect(emitted: seq<string>) returns (callbacks: seq<Callback>)
    ensures callbacks == Updates(emitted)
  {
    callbacks := [];
    var i := 0;
    while i < |emitted|
      invariant 0 <= i <= |emitted|
      invariant callbacks == Updates(emitted[..i])
    {
      assert emitted[..i + 1][..i] == emitted[..i];
      callbacks := callbacks + [TextUpdate(emitted[i])];
      i := i + 1;
    }
    assert emitted[..i] == emitted;
  }

  /** A missing key yields that one error, and never completion. */
  lemma MissingKeyIsErrorOnly(body: ResponseBody)
    ensures ActionCallbacks(true, None, body) == [Error(MissingKeyMessage)]
    ensures Complete !in ActionCallbacks(true, None, body)
  {
  }

  /** A failed stream: the updates read before the failure, then the error,
      whose message starts with both prefixes, then completion. */
  lemma StreamFailureThenComplete(key: string, body: ResponseBody)
    requires body.failure.Some?
    ensures var cbs := ActionCallbacks(true, Some(key), body); var n := |cbs|;
      && n == |Snapshots(body.lines)| + 2
      && cbs[n - 1] == Complete
      && cbs[n - 2] == Error(ErrorPrefix + FailurePrefix + MessageText(body.failure.value.message))
      && (forall i :: 0 <= i < n - 2 ==> cbs[i] == TextUpdate(Snapshots(body.lines)[i]))
  {
    var cbs := ActionCallbacks(true, Some(key), body);
    var ups := Updates(Snapshots(body.lines));
    var m := ErrorPrefix + (FailurePrefix + MessageText(body.failure.value.message));
    assert cbs == ups + [Error(m)] + [Complete];
    assert ErrorPrefix + FailurePrefix + MessageText(body.failure.value.message) == m;
  }

  /** A stream that yields no chunk and does not fail completes without an
      error and without any update. */
  lemma EmptyResultCompletes(key: string, body: ResponseBody)
    requires body.failure.None? && Chunks(body.lines) == []
    ensures ActionCallbacks(true, Some(key), body) == [Complete]
  {
  }

  /** When the activity and the key are there, the run ends with its only
      completion, and there is at most one error, just before it. */
  lemma CompletionComesLast(key: string, body: ResponseBody)
    ensures var cbs := ActionCallbacks(true, Some(key), body);
      && cbs != [] && cbs[|cbs| - 1] == Complete
      && (forall i :: 0 <= i < |cbs| - 1 ==> cbs[i] != Complete)
      && (forall i :: 0 <= i < |cbs| - 2 ==> !cbs[i].Error?)
  {
  }

  // ---------------------------------------------------------------------
  // The sheet's state

  datatype BottomSheetState = ActionSelection | Processing | Result

  /** The five state variables of the sheet. */
  datatype Sheet = Sheet(
    currentState: BottomSheetState,
    selectedCategory: Option<ActionCategory>,
    processedText: string,
    errorMessage: Option<string>,
    selectedTemplate: Option<PromptTemplate>)

  /** The values the sheet starts with. */
  function InitialSheet(): Sheet {
    Sheet(ActionSelection, None, "", None, None)
  }

  /** The events that change the sheet: the user's choices and buttons, and
      the callbacks of a running action. */
  datatype Event =
    | CategorySelected(category: ActionCategory)
    | CategoryBack
    | ActionSelected(template: PromptTemplate)
    | Deliver(callback: Callback)
    | BackToMain
    | Retry
    | Copy
    | Replace

  /** What one event does to the sheet. */
  function Apply(s: Sheet, e: Event): Sheet {
    match e
    case CategorySelected(c) => s.(selectedCategory := Some(c))
    case CategoryBack => s.(selectedCategory := None)
    case ActionSelected(t) => s.(selectedTemplate := Some(t), currentState := Processing)
    case Deliver(TextUpdate(x)) => s.(processedText := x)
    case Deliver(Complete) => s.(currentState := Result)
    case Deliver(Error(m)) => s.(errorMessage := Some(m), currentState := Result)
    case BackToMain => InitialSheet()
    case Retry =>
      if s.selectedTemplate.None? then s
      else s.(processedText := "", errorMessage := None, currentState := Processing)
    case Copy => s
    case Replace => s
  }

  /** The callbacks delivered one after the other. */
  function DeliverAll(s: Sheet, cbs: seq<Callback>): Sheet
    decreases |cbs|
  {
    if cbs == [] then s
    else Apply(DeliverAll(s, cbs[..|cbs| - 1]), Deliver(cbs[|cbs| - 1]))
  }

  /** Choosing an action: the template is stored, the sheet shows the
      processing view, and the callbacks of the run follow. */
  function RunAction(s: Sheet, t: PromptTemplate, hasActivity: bool, apiKey: Option<string>, body: ResponseBody): Sheet {
    DeliverAll(Apply(s, ActionSelected(t)), ActionCallbacks(hasActivity, apiKey, body))
  }

  /** Retrying: the result and the error are cleared and the stored template
      runs again; without a stored template nothing happens. */
  function RunRetry(s: Sheet, hasActivity: bool, apiKey: Option<string>, body: ResponseBody): Sheet {
    match s.selectedTemplate
    case None => s
    case Some(t) => DeliverAll(Apply(s, Retry), ActionCallbacks(hasActivity, apiKey, body))
  }

  lemma {:induction false} DeliverAllAppend(s: Sheet, a: seq<Callback>, b: seq<Callback>)
    ensures DeliverAll(s, a + b) == DeliverAll(DeliverAll(s, a), b)
    decreases |b|
  {
    if b == [] {
      assert a + b == a;
    } else {
      var n := |b| - 1;
      assert (a + b)[..|a + b| - 1] == a + b[..n];
      assert (a + b)[|a + b| - 1] == b[n];
      DeliverAllAppend(s, a, b[..n]);
    }
  }

  /** Callbacks never change the chosen category or template. */
  lemma {:induction false} DeliverKeepsChoices(s: Sheet, cbs: seq<Callback>)
    ensures DeliverAll(s, cbs).selectedTemplate == s.selectedTemplate
    ensures DeliverAll(s, cbs).selectedCategory == s.selectedCategory
    decreases |cbs|
  {
    if cbs != [] {
      DeliverKeepsChoices(s, cbs[..|cbs| - 1]);
    }
  }

  /** Updates only overwrite the processed text: the last one wins. */
  lemma {:induction false} DeliverUpdates(s: Sheet, snapshots: seq<string>)
    ensures DeliverAll(s, Updates(snapshots))
      == if snapshots == [] then s else s.(processedText := snapshots[|snapshots| - 1])
    decreases |snapshots|
  {
    if snapshots != [] {
      var init := snapshots[..|snapshots| - 1];
      var ups := Updates(snapshots);
      assert ups[..|ups| - 1] == Updates(init);
      DeliverUpdates(s, init);
    }
  }

  /** What a run leaves in the sheet. It always ends in the result view with
      the chosen template. Without an activity or a key, the error is
      recorded and the text is untouched. Otherwise the text is the last
      snapshot (the whole accumulated text) if there was one, and the error
      is the stream's failure if there was one; choosing an action clears
      neither beforehand. */
  lemma RunActionOutcome(s: Sheet, t: PromptTemplate, hasActivity: bool, apiKey: Option<string>, body: ResponseBody)
    ensures var r := RunAction(s, t, hasActivity, apiKey, body);
      && r.currentState == Result
      && r.selectedTemplate == Some(t)
      && r.selectedCategory == s.selectedCategory
      && (!hasActivity ==> r.errorMessage == Some(NoActivityMessage) && r.processedText == s.processedText)
      && (hasActivity && apiKey.None? ==> r.errorMessage == Some(MissingKeyMessage) && r.processedText == s.processedText)
      && (hasActivity && apiKey.Some? ==>
            && r.processedText == (if Chunks(body.lines) == [] then s.processedText else Concat(Chunks(body.lines)))
            && r.errorMessage == (match StreamError(body) case None => s.errorMessage case Some(m) => Some(ErrorPrefix + m)))
  {
    var s1 := Apply(s, ActionSelected(t));
    var cbs := ActionCallbacks(hasActivity, apiKey, body);
    DeliverKeepsChoices(s1, cbs);
    if hasActivity && apiKey.Some? {
      var snaps := Snapshots(body.lines);
      var tail := (match StreamError(body) case None => [] case Some(m) => [Error(ErrorPrefix + m)]) + [Complete];
      assert ActionCallbacks(hasActivity, apiKey, body) == Updates(snaps) + tail;
      DeliverAllAppend(s1, Updates(snaps), tail);
      DeliverUpdates(s1, snaps);
      if snaps != [] {
        LastSnapshotIsAccumulatedText(body.lines);
      }
      var s2 := DeliverAll(s1, Updates(snaps));
      match StreamError(body)
      case None =>
        assert DeliverAll(s2, tail) == Apply(s2, Deliver(Complete));
      case Some(m) =>
        assert tail[..1] == [Error(ErrorPrefix + m)];
        assert DeliverAll(s2, tail) == Apply(Apply(s2, Deliver(Error(ErrorPrefix + m))), Deliver(Complete));
    }
  }

  /** Back-to-main restores every variable to its initial value. */
  lemma BackToMainResets(s: Sheet)
    ensures Apply(s, BackToMain) == InitialSheet()
    ensures InitialSheet().currentState == ActionSelection && InitialSheet().selectedCategory.None?
    ensures InitialSheet().processedText == "" && InitialSheet().errorMessage.None? && InitialSheet().selectedTemplate.None?
  {
  }

  /** A retry without a stored template changes nothing; with one it clears
      the text and the error and runs the same template again. */
  lemma RetryOutcome(s: Sheet, hasActivity: bool, apiKey: Option<string>, body: ResponseBody)
    ensures s.selectedTemplate.None? ==> RunRetry(s, hasActivity, apiKey, body) == s
    ensures s.selectedTemplate.Some? ==>
      RunRetry(s, hasActivity, apiKey, body)
        == RunAction(s.(processedText := "", errorMessage := None), s.selectedTemplate.value, hasActivity, apiKey, body)
  {
  }

  /** Copy and replace leave the sheet as it is. */
  lemma CopyAndReplaceKeepSheet(s: Sheet)
    ensures Apply(s, Copy) == s && Apply(s, Replace) == s
  {
  }

  // ---------------------------------------------------------------------
  // What the sheet offers

  /** The buttons under a result, left to right. */
  datatype Button = BackButton | RetryButton | CopyButton | ReplaceButton

  /** `BottomButtonGroup`: after an error, back and retry; otherwise back,
      retry, copy and replace. */
  function Buttons(errorMessage: Option<string>): seq<Button> {
    if errorMessage.Some? then [BackButton, RetryButton]
    else [BackButton, RetryButton, CopyButton, ReplaceButton]
  }

  /** Back and retry are always offered; copy and replace exactly when there
      is no error. */
  lemma ButtonsOffered(errorMessage: Option<string>)
    ensures Buttons(errorMessage)[0] == BackButton && RetryButton in Buttons(errorMessage)
    ensures CopyButton in Buttons(errorMessage) <==> errorMessage.None?
    ensures ReplaceButton in Buttons(errorMessage) <==> errorMessage.None?
  {
  }

  /** The user's choices, each offered only where the sheet shows it. */
  datatype UserAction =
    | ChooseCategory(category: ActionCategory)
    | LeaveCategory
    | ChooseAction(template: PromptTemplate)
    | Press(button: Button)

  /** What the sheet shows: the category list while no category is chosen,
      a category's actions with a back arrow once one is, and the buttons
      under a result. */
  predicate Offered(s: Sheet, u: UserAction) {
    match u
    case ChooseCategory(c) =>
      s.currentState == ActionSelection && s.selectedCategory.None? && c in GetActionCategories()
    case LeaveCategory =>
      s.currentState == ActionSelection && s.selectedCategory.Some?
    case ChooseAction(t) =>
      s.currentState == ActionSelection && s.selectedCategory.Some? && t in s.selectedCategory.value.templates
    case Press(b) =>
      s.currentState == Result && b in Buttons(s.errorMessage)
  }

  /** A user action with the callbacks it causes; `hasActivity`, `apiKey` and
      `body` describe the run an action or a retry starts. */
  function Step(s: Sheet, u: UserAction, hasActivity: bool, apiKey: Option<string>, body: ResponseBody): Sheet {
    match u
    case ChooseCategory(c) => Apply(s, CategorySelected(c))
    case LeaveCategory => Apply(s, CategoryBack)
    case ChooseAction(t) => RunAction(s, t, hasActivity, apiKey, body)
    case Press(BackButton) => Apply(s, BackToMain)
    case Press(RetryButton) => RunRetry(s, hasActivity, apiKey, body)
    case Press(CopyButton) => Apply(s, Copy)
    case Press(ReplaceButton) => Apply(s, Replace)
  }

  /** Between user actions the sheet is never left processing; the selection
      view holds no text, error or template; a result has its template; and a
      chosen category is one of the menu's. */
  predicate Consistent(s: Sheet) {
    && s.currentState != Processing
    && (s.currentState == ActionSelection ==>
          s.processedText == "" && s.errorMessage.None? && s.selectedTemplate.None?)
    && (s.currentState == Result ==> s.selectedTemplate.Some?)
    && (s.selectedCategory.Some? ==> s.selectedCategory.value in GetActionCategories())
  }

  /** The sheet starts consistent and every offered user action keeps it so;
      in particular a retry always finds its template. */
  lemma StepKeepsConsistent(s: Sheet, u: UserAction, hasActivity: bool, apiKey: Option<string>, body: ResponseBody)
    requires Consistent(s) && Offered(s, u)
    ensures Consistent(Step(s, u, hasActivity, apiKey, body))
    ensures Consistent(InitialSheet())
    ensures u == Press(RetryButton) ==> s.selectedTemplate.Some?
  {
    match u
    case ChooseAction(t) =>
      RunActionOutcome(s, t, hasActivity, apiKey, body);
    case Press(RetryButton) =>
      RetryOutcome(s, hasActivity, apiKey, body);
      RunActionOutcome(s.(processedText := "", errorMessage := None), s.selectedTemplate.value, hasActivity, apiKey, body);
    case _ =>
  }

  /** A completed action without an error offers copy and replace, and the
      text they copy is the accumulated text of the stream. */
  lemma SuccessOffersCopy(s: Sheet, t: PromptTemplate, key: string, body: ResponseBody)
    requires Consistent(s) && Offered(s, ChooseAction(t)) && body.failure.None?
    ensures var r := RunAction(s, t, true, Some(key), body);
      Offered(r, Press(CopyButton)) && Offered(r, Press(ReplaceButton))
      && r.processedText == Concat(Chunks(body.lines))
  {
    RunActionOutcome(s, t, true, Some(key), body);
  }

  // ---------------------------------------------------------------------
  // The sheet as the composable holds it

  /** A clip put on the clipboard: its label and its text. */
  datatype Clip = Clip(clipLabel: string, text: string)

  const ClipLabel: string := "AI Result"

  /** The sheet's remembered variables, updated in place by its handlers,
      together with what its copy and replace buttons leave outside it: the
      last clip set on the clipboard and whether the sheet asked to be
      dismissed. */
  class BottomSheet {
    const selectedText: string
    var currentState: BottomSheetState
    var selectedCategory: Option<ActionCategory>
    var processedText: string
    var errorMessage: Option<string>
    var selectedTemplate: Option<PromptTemplate>
    var clipboard: Option<Clip>
    var dismissed: bool

    function View(): Sheet
      reads this
    {
      Sheet(currentState, selectedCategory, processedText, errorMessage, selectedTemplate)
    }

    constructor(selectedText: string)
      ensures this.selectedText == selectedText
      ensures View() == InitialSheet() && clipboard.None? && !dismissed
    {
      this.selectedText := selectedText;
      currentState := ActionSelection;
      selectedCategory := None;
      processedText := "";
      errorMessage := None;
      selectedTemplate := None;
      clipboard := None;
      dismissed := false;
    }

    /** `onCategorySelected`. */
    method OnCategorySelected(c: ActionCategory)
      modifies this
      ensures View() == Apply(old(View()), CategorySelected(c))
      ensures clipboard == old(clipboard) && dismissed == old(dismissed)
    {
      selectedCategory := Some(c);
    }

    /** `onBackPressed` in the list of a category's actions. */
    method OnBackPressed()
      modifies this
      ensures View() == Apply(old(View()), CategoryBack)
      ensures clipboard == old(clipboard) && dismissed == old(dismissed)
    {
      selectedCategory := None;
    }

    /** One callback of a running action. */
    method Receive(cb: Callback)
      modifies this
      ensures View() == Apply(old(View()), Deliver(cb))
      ensures clipboard == old(clipboard) && dismissed == old(dismissed)
    {
      match cb
      case TextUpdate(x) =>
        processedText := x;
      case Complete =>
        currentState := Result;
      case Error(m) =>
        errorMessage := Some(m);
        currentState := Result;
    }

    /** The callbacks of a run, received one after the other. */
    method ReceiveAll(callbacks: seq<Callback>)
      modifies this
      ensures View() == DeliverAll(old(View()), callbacks)
      ensures clipboard == old(clipboard) && dismissed == old(dismissed)
    {
      var i := 0;
      while i < |callbacks|
        invariant 0 <= i <= |callbacks|
        invariant View() == DeliverAll(old(View()), callbacks[..i])
        invariant clipboard == old(clipboard) && dismissed == old(dismissed)
      {
        assert callbacks[..i + 1][..i] == callbacks[..i];
        Receive(callbacks[i]);
        i := i + 1;
      }
      assert callbacks[..i] == callbacks;
    }

    /** `onActionSelected`: stores the template, shows the processing view
        and runs the action; `hasActivity`, `apiKey` and `body` describe the
        run. */
    method OnActionSelected(t: PromptTemplate, hasActivity: bool, apiKey: Option<string>, body: ResponseBody)
      returns (request: Option<GeminiRequest>)
      modifies this
      ensures View() == RunAction(old(View()), t, hasActivity, apiKey, body)
      ensures request == if hasActivity && apiKey.Some? then Some(BuildRequest(GetPrompt(t, selectedText))) else None
      ensures clipboard == old(clipboard) && dismissed == old(dismissed)
    {
      selectedTemplate := Some(t);
      currentState := Processing;
      var callbacks;
      request, callbacks := HandleAction(t, selectedText, hasActivity, apiKey, body);
      ReceiveAll(callbacks);
    }

    /** `onBackToMain`. */
    method OnBackToMain()
      modifies this
      ensures View() == Apply(old(View()), BackToMain)
      ensures clipboard == old(clipboard) && dismissed == old(dismissed)
    {
      currentState := ActionSelection;
      selectedCategory := None;
      processedText := "";
      errorMessage := None;
      selectedTemplate := None;
    }

    /** `onRetry`: runs the stored template again after clearing the text
        and the error; without a stored template it does nothing. */
    method OnRetry(hasActivity: bool, apiKey: Option<string>, body: ResponseBody)
      returns (request: Option<GeminiRequest>)
      modifies this
      ensures View() == RunRetry(old(View()), hasActivity, apiKey, body)
      ensures request ==
        if old(selectedTemplate).Some? && hasActivity && apiKey.Some?
        then Some(BuildRequest(GetPrompt(old(selectedTemplate).value, selectedText))) else None
      ensures clipboard == old(clipboard) && dismissed == old(dismissed)
    {
      request := None;
      if selectedTemplate.Some? {
        processedText := "";
        errorMessage := None;
        currentState := Processing;
        var callbacks;
        request, callbacks := HandleAction(selectedTemplate.value, selectedText, hasActivity, apiKey, body);
        ReceiveAll(callbacks);
      }
    }

    /** `onCopy`: the processed text goes to the clipboard. */
    method OnCopy()
      modifies this
      ensures View() == old(View())
      ensures clipboard == Some(Clip(ClipLabel, processedText)) && dismissed == old(dismissed)
    {
      clipboard := Some(Clip(ClipLabel, processedText));
    }

    /** `onReplace`: the processed text goes to the clipboard and the sheet
        asks to be dismissed. */
    method OnReplace()
      modifies this
      ensures View() == old(View())
      ensures clipboard == Some(Clip(ClipLabel, processedText)) && dismissed
    {
      clipboard := Some(Clip(ClipLabel, processedText));
      dismissed := true;
    }
  }

  // ---------------------------------------------------------------------
  // Texts shown in the selection view

  /** The maximum length of the preview of the selected text, in UTF-16
      code units as Kotlin counts them. */
  const PreviewLength: nat := 80

  /** The preview card: the first 80 code units of the selected text, an
      ellipsis when it has more, and double quotes around. */
  function Preview(selectedText: string): string {
    "\"" + Take(selectedText, PreviewLength)
    + (if Utf16Length(selectedText) > PreviewLength then "..." else "") + "\""
  }

  /** A text of at most 80 code units is shown whole. A longer one is cut
      to a proper prefix of 80 code units, or 79 when the 80th would split a
      surrogate pair, and marked with the ellipsis. */
  lemma PreviewShape(selectedText: string)
    ensures var p := Preview(selectedText);
      && 2 <= |p| <= PreviewLength + 5
      && (Utf16Length(selectedText) <= PreviewLength ==> p == "\"" + selectedText + "\"")
      && (Utf16Length(selectedText) > PreviewLength ==>
            var t := Take(selectedText, PreviewLength);
            && p == "\"" + t + "...\""
            && |t| < |selectedText| && t == selectedText[..|t|]
            && PreviewLength - 1 <= Utf16Length(t) <= PreviewLength
            && (Utf16Length(t) < PreviewLength ==> Utf16Units(selectedText[|t|]) == 2))
  {
    var t := Take(selectedText, PreviewLength);
    if Utf16Length(selectedText) <= PreviewLength {
      TakeWhole(selectedText, PreviewLength);
    } else {
      TakeCut(selectedText, PreviewLength);
      assert Preview(selectedText) == "\"" + t + "...\"";
    }
  }

  /** For text below U+10000, code units are characters: a text of more
      than 80 characters shows its first 80 and the ellipsis. */
  lemma PreviewOfNarrowText(selectedText: string)
    requires forall i :: 0 <= i < |selectedText| ==> selectedText[i] as int < 0x1_0000
    requires |selectedText| > PreviewLength
    ensures Preview(selectedText) == "\"" + selectedText[..PreviewLength] + "...\""
  {
    var t := Take(selectedText, PreviewLength);
    NarrowLength(selectedText);
    TakeCut(selectedText, PreviewLength);
    NarrowLength(t);
    assert |t| == PreviewLength;
    assert Preview(selectedText) == "\"" + t + "...\"";
  }

  /** Each character beyond U+FFFF, such as an emoji, counts twice: a text
      of 41 or more of them shows only its first 40 and the ellipsis. */
  lemma PreviewOfWideText(selectedText: string)
    requires forall i :: 0 <= i < |selectedText| ==> selectedText[i] as int >= 0x1_0000
    requires |selectedText| > PreviewLength / 2
    ensures Preview(selectedText) == "\"" + selectedText[..PreviewLength / 2] + "...\""
  {
    var t := Take(selectedText, PreviewLength);
    WideLength(selectedText);
    TakeCut(selectedText, PreviewLength);
    WideLength(t);
    assert |t| == PreviewLength / 2;
    assert Preview(selectedText) == "\"" + t + "...\"";
  }

  /** The count shown under a category's name. */
  function ActionCountLabel(c: ActionCategory): string {
    DecimalString(|c.templates|) + " actions available"
  }

  /** The four categories read "4 actions available", "3 actions available",
      "2 actions available" and "2 actions available". */
  lemma ActionCountLabels()
    ensures var cs := GetActionCategories();
      && ActionCountLabel(cs[0]) == "4 actions available"
      && ActionCountLabel(cs[1]) == "3 actions available"
      && ActionCountLabel(cs[2]) == "2 actions available"
      && ActionCountLabel(cs[3]) == "2 actions available"
  {
    var cs := GetActionCategories();
    CategoriesAreTheGroups();
    FourActionsLabel(cs[0]);
    ThreeActionsLabel(cs[1]);
    TwoActionsLabel(cs[2]);
    TwoActionsLabel(cs[3]);
  }

  lemma FourActionsLabel(c: ActionCategory)
    requires |c.templates| == 4
    ensures ActionCountLabel(c) == "4 actions available"
  {
    assert DecimalString(4) == "4";
  }

  lemma ThreeActionsLabel(c: ActionCategory)
    requires |c.templates| == 3
    ensures ActionCountLabel(c) == "3 actions available"
  {
    assert DecimalString(3) == "3";
  }

  lemma TwoActionsLabel(c: ActionCategory)
    requires |c.templates| == 2
    ensures ActionCountLabel(c) == "2 actions available"
  {
    assert DecimalString(2) == "2";
  }

  /** `getDescriptionForTemplate`: the line under each action's name. */
  function Description(t: PromptTemplate): string {
    match t
    case Rephrase => "Rewrite with different words"
    case FixGrammar => "Correct grammar and spelling"
    case ModifyToneFormal => "Make it professional"
    case ModifyToneCasual => "Make it friendly and relaxed"
    case ModifyTonePolite => "Make it more respectful"
    case SuggestReply => "Generate smart responses"
    case Summarize => "Create a brief summary"
    case Expand => "Add more details"
    case TranslateToHindi => "Convert to Hindi"
    case TranslateToEnglish => "Convert to English"
    case ExplainLikeIm5 => "Simplify for easy understanding"
    case MakeBulletPoints => "Convert to bullet format"
  }

  /** No two actions share a description. */
  lemma DescriptionsAreDistinct(t: PromptTemplate, u: PromptTemplate)
    requires t != u
    ensures Description(t) != Description(u)
  {
  }
}
