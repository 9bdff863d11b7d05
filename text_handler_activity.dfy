/** The activity that receives the selected text from the system and the
    screen it shows: which text it works on, the screen's five state
    variables, the callbacks its own `handleAction` delivers and what the
    screen shows for each state. */
module TextHandlerActivity {
  import opened Wrappers
  import opened GeminiClient
  import opened PromptTemplates
  import TextProcessingBottomSheet

  // ---------------------------------------------------------------------
  // onCreate

  /** The text to work on: the "selectedText" extra when the intent has
      one, else the text passed with the process-text action, else the
      empty text. */
  function ResolveSelectedText(selectedTextExtra: Option<string>, processTextExtra: Option<string>): string {
    match selectedTextExtra
    case Some(t) => t
    case None =>
      match processTextExtra
      case Some(t) => t
      case None => ""
  }

  /** What `onCreate` does once past the duplicate-launch test. */
  datatype Launch = Finish | Show(selectedText: string)

  function OnCreate(selectedTextExtra: Option<string>, processTextExtra: Option<string>): Launch {
    var text := ResolveSelectedText(selectedTextExtra, processTextExtra);
    if |text| == 0 then Finish else Show(text)
  }

  /** The activity finishes exactly when there is no text to work on, and
      otherwise shows the screen for the resolved text. */
  lemma OnCreateOutcome(selectedTextExtra: Option<string>, processTextExtra: Option<string>)
    ensures var text := ResolveSelectedText(selectedTextExtra, processTextExtra);
      && (OnCreate(selectedTextExtra, processTextExtra) == Finish <==> text == "")
      && (OnCreate(selectedTextExtra, processTextExtra).Show? ==> OnCreate(selectedTextExtra, processTextExtra).selectedText == text)
    ensures selectedTextExtra.None? && processTextExtra.None? ==> OnCreate(selectedTextExtra, processTextExtra) == Finish
  {
  }

  /** The "selectedText" extra takes precedence even when it is empty: the
      activity then finishes whatever text came with the process-text
      action, since only a missing extra falls through. */
  lemma EmptyExtraShadowsProcessText(processTextExtra: Option<string>)
    ensures OnCreate(Some(""), processTextExtra) == Finish
    ensures forall t :: t != "" ==> OnCreate(None, Some(t)) == Show(t)
  {
  }

  // ---------------------------------------------------------------------
  // handleAction of the screen

  /** The callbacks the screen's `handleAction` is given. */
  datatype ScreenCallback = ProcessingStart | TextUpdate(text: string) | ProcessingComplete | Error(message: string)

  /** One text update per emitted snapshot, in order. */
  function Updates(snapshots: seq<string>): (r: seq<ScreenCallback>)
    ensures |r| == |snapshots|
    ensures forall i :: 0 <= i < |r| ==> r[i] == TextUpdate(snapshots[i])
    decreases |snapshots|
  {
    if snapshots == [] then []
    else Updates(snapshots[..|snapshots| - 1]) + [TextUpdate(snapshots[|snapshots| - 1])]
  }

  /** The callbacks that follow the start: without a stored key only the
      error; otherwise the updates, the stream's failure if there was one,
      and completion. */
  function StreamCallbacks(apiKey: Option<string>, body: ResponseBody): seq<ScreenCallback> {
    if apiKey.None? then [Error(TextProcessingBottomSheet.MissingKeyMessage)]
    else
      Updates(Snapshots(body.lines))
      + (match StreamError(body)
         case None => []
         case Some(m) => [Error(TextProcessingBottomSheet.ErrorPrefix + m)])
      + [ProcessingComplete]
  }

  /** The callbacks of one run, in order: the start, then the rest. */
  function ScreenCallbacks(apiKey: Option<string>, body: ResponseBody): seq<ScreenCallback> {
    [ProcessingStart] + StreamCallbacks(apiKey, body)
  }

  /** `handleAction`: starts, looks for the key, builds the prompt and its
      request, runs the stream and reports through the callbacks. */
  method HandleAction(template: PromptTemplate, selectedText: string, apiKey: Option<string>, body: ResponseBody)
    returns (request: Option<GeminiRequest>, callbacks: seq<ScreenCallback>)
    ensures callbacks == ScreenCallbacks(apiKey, body)
    ensures request == if apiKey.Some? then Some(BuildRequest(GetPrompt(template, selectedText))) else None
  {
    if apiKey.None? {
      return None, [ProcessingStart, Error(TextProcessingBottomSheet.MissingKeyMessage)];
    }
    var prompt := GetPrompt(template, selectedText);
    request := Some(BuildRequest(prompt));
    var emitted, error := GenerateTextStream(body);
    var rest := CollectUpdates(emitted);
    if error.Some? {
      rest := rest + [Error(TextProcessingBottomSheet.ErrorPrefix + error.value)];
    }
    rest := rest + [ProcessingComplete];
    callbacks := [ProcessingStart] + rest;
  }

  /** The `collect` of the stream: one update per emitted text, in order. */
  method CollectUpdates(emitted: seq<string>) returns (updates: seq<ScreenCallback>)
    ensures updates == Updates(emitted)
  {
    updates := [];
    var i := 0;
    while i < |emitted|
      invariant 0 <= i <= |emitted|
      invariant updates == Updates(emitted[..i])
    {
      assert emitted[..i + 1][..i] == emitted[..i];
      updates := updates + [TextUpdate(emitted[i])];
      i := i + 1;
    }
    assert emitted[..i] == emitted;
  }

  /** Every run starts with the start; with a key it ends with its only
      completion, and without one it never completes. */
  lemma StartComesFirst(apiKey: Option<string>, body: ResponseBody)
    ensures var cbs := ScreenCallbacks(apiKey, body);
      && |cbs| >= 2 && cbs[0] == ProcessingStart
      && (forall i :: 0 < i < |cbs| ==> cbs[i] != ProcessingStart)
      && (apiKey.Some? <==> cbs[|cbs| - 1] == ProcessingComplete)
      && (forall i :: 0 <= i < |cbs| - 1 ==> cbs[i] != ProcessingComplete)
  {
    if apiKey.Some? {
      var ups := Updates(Snapshots(body.lines));
      var tail := (match StreamError(body)
                   case None => []
                   case Some(m) => [Error(TextProcessingBottomSheet.ErrorPrefix + m)])
                  + [ProcessingComplete];
      assert ScreenCallbacks(apiKey, body) == [ProcessingStart] + ups + tail;
      RunShape(ups, tail);
    }
  }

  /** The start, updates, at most errors and then completion: the start and
      the completion each come once, first and last. */
  lemma RunShape(ups: seq<ScreenCallback>, tail: seq<ScreenCallback>)
    requires forall i :: 0 <= i < |ups| ==> ups[i].TextUpdate?
    requires |tail| >= 1 && tail[|tail| - 1] == ProcessingComplete
    requires forall i :: 0 <= i < |tail| - 1 ==> tail[i].Error?
    ensures var cbs := [ProcessingStart] + ups + tail;
      && cbs[|cbs| - 1] == ProcessingComplete
      && (forall i :: 0 < i < |cbs| ==> cbs[i] != ProcessingStart)
      && (forall i :: 0 <= i < |cbs| - 1 ==> cbs[i] != ProcessingComplete)
  {
  }

  // ---------------------------------------------------------------------
  // The screen's state

  /** The five state variables of the screen. */
  datatype Screen = Screen(
    showBottomSheet: bool,
    isProcessing: bool,
    processedText: string,
    showResult: bool,
    errorMessage: Option<string>)

  /** The values the screen starts with: the sheet is open, nothing else. */
  function InitialScreen(): Screen {
    Screen(true, false, "", false, None)
  }

  /** What one callback does to the screen. */
  function Receive(s: Screen, cb: ScreenCallback): Screen {
    match cb
    case ProcessingStart => s.(isProcessing := true, showResult := true, errorMessage := None, processedText := "")
    case TextUpdate(x) => s.(processedText := x)
    case ProcessingComplete => s.(isProcessing := false)
    case Error(m) => s.(isProcessing := false, errorMessage := Some(m))
  }

  /** The callbacks delivered one after the other. */
  function ReceiveAll(s: Screen, cbs: seq<ScreenCallback>): Screen
    decreases |cbs|
  {
    if cbs == [] then s
    else Receive(ReceiveAll(s, cbs[..|cbs| - 1]), cbs[|cbs| - 1])
  }

  /** Choosing an action in the sheet: the sheet is closed and the run's
      callbacks follow. */
  function RunAction(s: Screen, apiKey: Option<string>, body: ResponseBody): Screen {
    ReceiveAll(s.(showBottomSheet := false), ScreenCallbacks(apiKey, body))
  }

  lemma {:induction false} ReceiveAllAppend(s: Screen, a: seq<ScreenCallback>, b: seq<ScreenCallback>)
    ensures ReceiveAll(s, a + b) == ReceiveAll(ReceiveAll(s, a), b)
    decreases |b|
  {
    if b == [] {
      assert a + b == a;
    } else {
      var n := |b| - 1;
      assert (a + b)[..|a + b| - 1] == a + b[..n];
      assert (a + b)[|a + b| - 1] == b[n];
      ReceiveAllAppend(s, a, b[..n]);
    }
  }

  /** Updates only overwrite the processed text: the last one wins. */
  lemma {:induction false} ReceiveUpdates(s: Screen, snapshots: seq<string>)
    ensures ReceiveAll(s, Updates(snapshots))
      == if snapshots == [] then s else s.(processedText := snapshots[|snapshots| - 1])
    decreases |snapshots|
  {
    if snapshots != [] {
      var init := snapshots[..|snapshots| - 1];
      var ups := Updates(snapshots);
      assert ups[..|ups| - 1] == Updates(init);
      ReceiveUpdates(s, init);
    }
  }

  /** The accumulated text of a stream, which the last of its snapshots
      shows; the empty text when it yields no chunk. */
  lemma AccumulatedTextIsLastSnapshot(lines: seq<string>)
    ensures var snaps := Snapshots(lines);
      Concat(Chunks(lines)) == if snaps == [] then "" else snaps[|snaps| - 1]
  {
    if Snapshots(lines) != [] {
      LastSnapshotIsAccumulatedText(lines);
    } else {
      SnapshotsArePrefixSums(lines);
    }
  }

  /** What the callbacks after the start leave when there is a key: the
      accumulated text, the stream's failure if any, and processing stopped. */
  lemma StreamOutcome(s: Screen, key: string, body: ResponseBody)
    ensures var r := ReceiveAll(s, StreamCallbacks(Some(key), body));
      && r == s.(isProcessing := false,
                 processedText := if Snapshots(body.lines) == [] then s.processedText else Concat(Chunks(body.lines)),
                 errorMessage := match StreamError(body) case None => s.errorMessage case Some(m) => Some(TextProcessingBottomSheet.ErrorPrefix + m))
  {
    var snaps := Snapshots(body.lines);
    var tail := (match StreamError(body) case None => [] case Some(m) => [Error(TextProcessingBottomSheet.ErrorPrefix + m)]) + [ProcessingComplete];
    assert StreamCallbacks(Some(key), body) == Updates(snaps) + tail;
    ReceiveAllAppend(s, Updates(snaps), tail);
    ReceiveUpdates(s, snaps);
    AccumulatedTextIsLastSnapshot(body.lines);
    var s2 := ReceiveAll(s, Updates(snaps));
    match StreamError(body)
    case None =>
      assert ReceiveAll(s2, tail) == Receive(s2, ProcessingComplete);
    case Some(m) =>
      assert tail[..1] == [Error(TextProcessingBottomSheet.ErrorPrefix + m)];
      assert ReceiveAll(s2, tail) == Receive(Receive(s2, Error(TextProcessingBottomSheet.ErrorPrefix + m)), ProcessingComplete);
  }

  /** What a run leaves on the screen: the sheet is closed, processing has
      stopped, the result card stays open and the text is the whole
      accumulated text (the start cleared the old one). Without a key the
      error is the missing-key message; with one it is the stream's failure,
      if any, and otherwise there is none. */
  lemma RunActionOutcome(s: Screen, apiKey: Option<string>, body: ResponseBody)
    ensures var r := RunAction(s, apiKey, body);
      && !r.showBottomSheet && !r.isProcessing && r.showResult
      && (apiKey.None? ==> r.processedText == "" && r.errorMessage == Some(TextProcessingBottomSheet.MissingKeyMessage))
      && (apiKey.Some? ==>
            && r.processedText == Concat(Chunks(body.lines))
            && r.errorMessage == (match StreamError(body) case None => None case Some(m) => Some(TextProcessingBottomSheet.ErrorPrefix + m)))
  {
    var s0 := s.(showBottomSheet := false);
    var s1 := Receive(s0, ProcessingStart);
    ReceiveAllAppend(s0, [ProcessingStart], StreamCallbacks(apiKey, body));
    assert [ProcessingStart][..0] == [];
    assert RunAction(s, apiKey, body) == ReceiveAll(s1, StreamCallbacks(apiKey, body));
    if apiKey.Some? {
      StreamOutcome(s1, apiKey.value, body);
      AccumulatedTextIsLastSnapshot(body.lines);
    }
  }

  // ---------------------------------------------------------------------
  // What the screen shows

  const ProcessingPlaceholder: string := "Processing..."

  /** The result card, with its title and text, is shown while processing
      and once a result has been asked for. */
  predicate ResultCardVisible(s: Screen) {
    s.isProcessing || s.showResult
  }

  /** The progress indicator beside the title. */
  predicate ProgressShown(s: Screen) {
    s.isProcessing
  }

  /** The text of the result card: a placeholder while processing has
      produced nothing yet. */
  function DisplayedText(s: Screen): string {
    if |s.processedText| == 0 && s.isProcessing then ProcessingPlaceholder else s.processedText
  }

  /** Copy and replace: once a result has been asked for and there is text. */
  predicate ButtonsVisible(s: Screen) {
    s.showResult && |s.processedText| > 0
  }

  predicate ErrorCardVisible(s: Screen) {
    s.errorMessage.Some?
  }

  /** While the stream runs, after the start and `k` updates, the screen is
      processing and shows the placeholder before the first update and the
      `k`-th snapshot after it; copy and replace appear with the first update,
      and no error is shown yet. */
  lemma ProgressWhileStreaming(s: Screen, key: string, body: ResponseBody, k: nat)
    requires k <= |Snapshots(body.lines)|
    ensures var snaps := Snapshots(body.lines);
      var r := ReceiveAll(s.(showBottomSheet := false), ScreenCallbacks(Some(key), body)[..k + 1]);
      && ResultCardVisible(r) && ProgressShown(r) && !ErrorCardVisible(r)
      && DisplayedText(r) == (if k == 0 then ProcessingPlaceholder else snaps[k - 1])
      && (ButtonsVisible(r) <==> k > 0)
  {
    var snaps := Snapshots(body.lines);
    ProgressByText(s, key, body, k);
    if k > 0 {
      SnapshotsNonEmpty(body.lines, k - 1);
      assert |snaps[k - 1]| > 0;
    }
  }

  /** The screen after the start and `k` updates, in terms of the text of
      the last update. */
  lemma ProgressByText(s: Screen, key: string, body: ResponseBody, k: nat)
    requires k <= |Snapshots(body.lines)|
    ensures var snaps := Snapshots(body.lines);
      var r := ReceiveAll(s.(showBottomSheet := false), ScreenCallbacks(Some(key), body)[..k + 1]);
      && ResultCardVisible(r) && ProgressShown(r) && !ErrorCardVisible(r)
      && r.processedText == (if k == 0 then "" else snaps[k - 1])
      && r.isProcessing && r.showResult
  {
    var snaps := Snapshots(body.lines);
    var tail := (match StreamError(body) case None => [] case Some(m) => [Error(TextProcessingBottomSheet.ErrorPrefix + m)]) + [ProcessingComplete];
    assert ScreenCallbacks(Some(key), body) == [ProcessingStart] + Updates(snaps) + tail;
    RunPrefix(snaps, tail, k);
    StartThenUpdates(s.(showBottomSheet := false), snaps, k);
  }

  /** The first `k + 1` callbacks of a run are the start and the first `k`
      updates. */
  lemma RunPrefix(snaps: seq<string>, tail: seq<ScreenCallback>, k: nat)
    requires k <= |snaps|
    ensures ([ProcessingStart] + Updates(snaps) + tail)[..k + 1] == [ProcessingStart] + Updates(snaps[..k])
  {
    var all := Updates(snaps);
    var cbs := [ProcessingStart] + all + tail;
    var ups := Updates(snaps[..k]);
    var lhs := cbs[..k + 1];
    var rhs := [ProcessingStart] + ups;
    assert |lhs| == |rhs|;
    forall i | 0 <= i < k + 1
      ensures lhs[i] == rhs[i]
    {
      if i > 0 {
        assert lhs[i] == all[i - 1] == TextUpdate(snaps[i - 1]);
        assert rhs[i] == ups[i - 1] == TextUpdate(snaps[..k][i - 1]);
      }
    }
  }

  /** The start followed by `k` updates: processing, no error, and the
      `k`-th snapshot as the text. */
  lemma StartThenUpdates(s0: Screen, snaps: seq<string>, k: nat)
    requires k <= |snaps|
    ensures ReceiveAll(s0, [ProcessingStart] + Updates(snaps[..k]))
      == s0.(isProcessing := true, showResult := true, errorMessage := None,
             processedText := if k == 0 then "" else snaps[k - 1])
  {
    var s1 := Receive(s0, ProcessingStart);
    ReceiveAllAppend(s0, [ProcessingStart], Updates(snaps[..k]));
    assert [ProcessingStart][..0] == [];
    ReceiveUpdates(s1, snaps[..k]);
    if k > 0 {
      assert snaps[..k][k - 1] == snaps[k - 1];
    }
  }

  /** After a run the result card stays open. Copy and replace are offered
      exactly when the accumulated text is not empty, even when the stream
      failed, in which case the partial text and the error are shown
      together; a missing key shows only the error. */
  lemma ResultView(s: Screen, apiKey: Option<string>, body: ResponseBody)
    ensures var r := RunAction(s, apiKey, body);
      && ResultCardVisible(r) && !ProgressShown(r)
      && DisplayedText(r) == r.processedText
      && (ButtonsVisible(r) <==> apiKey.Some? && |Concat(Chunks(body.lines))| > 0)
      && (ErrorCardVisible(r) <==> apiKey.None? || body.failure.Some?)
  {
    RunActionOutcome(s, apiKey, body);
  }

  // ---------------------------------------------------------------------
  // The screen as the composable holds it

  /** A clip put on the clipboard: its label and its text. */
  datatype Clip = Clip(clipLabel: string, text: string)

  const ClipLabel: string := "AI Result"

  /** The screen's remembered variables, updated in place by its handlers,
      together with what its buttons leave outside it: the last clip set on
      the clipboard and whether `onFinish` was called. */
  class TextProcessingScreen {
    const selectedText: string
    var showBottomSheet: bool
    var isProcessing: bool
    var processedText: string
    var showResult: bool
    var errorMessage: Option<string>
    var clipboard: Option<Clip>
    var finished: bool

    function View(): Screen
      reads this
    {
      Screen(showBottomSheet, isProcessing, processedText, showResult, errorMessage)
    }

    constructor(selectedText: string)
      ensures this.selectedText == selectedText
      ensures View() == InitialScreen() && clipboard.None? && !finished
    {
      this.selectedText := selectedText;
      showBottomSheet := true;
      isProcessing := false;
      processedText := "";
      showResult := false;
      errorMessage := None;
      clipboard := None;
      finished := false;
    }

    /** One callback of a running action. */
    method OnCallback(cb: ScreenCallback)
      modifies this
      ensures View() == Receive(old(View()), cb)
      ensures clipboard == old(clipboard) && finished == old(finished)
    {
      match cb
      case ProcessingStart =>
        isProcessing := true;
        showResult := true;
        errorMessage := None;
        processedText := "";
      case TextUpdate(x) =>
        processedText := x;
      case ProcessingComplete =>
        isProcessing := false;
      case Error(m) =>
        isProcessing := false;
        errorMessage := Some(m);
    }

    /** The callbacks of a run, received one after the other. */
    method OnCallbacks(callbacks: seq<ScreenCallback>)
      modifies this
      ensures View() == ReceiveAll(old(View()), callbacks)
      ensures clipboard == old(clipboard) && finished == old(finished)
    {
      var i := 0;
      while i < |callbacks|
        invariant 0 <= i <= |callbacks|
        invariant View() == ReceiveAll(old(View()), callbacks[..i])
        invariant clipboard == old(clipboard) && finished == old(finished)
      {
        assert callbacks[..i + 1][..i] == callbacks[..i];
        OnCallback(callbacks[i]);
        i := i + 1;
      }
      assert callbacks[..i] == callbacks;
    }

    /** `onActionSelected`: closes the sheet and runs the action; `apiKey`
        and `body` describe the run. */
    method OnActionSelected(t: PromptTemplate, apiKey: Option<string>, body: ResponseBody)
      returns (request: Option<GeminiRequest>)
      modifies this
      ensures View() == RunAction(old(View()), apiKey, body)
      ensures request == if apiKey.Some? then Some(BuildRequest(GetPrompt(t, selectedText))) else None
      ensures clipboard == old(clipboard) && finished == old(finished)
    {
      showBottomSheet := false;
      var callbacks;
      request, callbacks := HandleAction(t, selectedText, apiKey, body);
      OnCallbacks(callbacks);
    }

    /** `onDismissRequest` of the modal sheet and `onDismiss` of its
        content: the sheet is closed and nothing else changes. */
    method OnDismiss()
      modifies this
      ensures View() == old(View()).(showBottomSheet := false)
      ensures clipboard == old(clipboard) && finished == old(finished)
    {
      showBottomSheet := false;
    }

    /** The copy button: the processed text goes to the clipboard. */
    method OnCopy()
      modifies this
      ensures View() == old(View())
      ensures clipboard == Some(Clip(ClipLabel, processedText)) && finished == old(finished)
    {
      clipboard := Some(Clip(ClipLabel, processedText));
    }

    /** The replace button: the processed text goes to the clipboard and the
        activity finishes. */
    method OnReplace()
      modifies this
      ensures View() == old(View())
      ensures clipboard == Some(Clip(ClipLabel, processedText)) && finished
    {
      clipboard := Some(Clip(ClipLabel, processedText));
      finished := true;
    }
  }
}
