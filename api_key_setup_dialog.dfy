/** The dialog in which the Gemini API key is entered: its three state
    variables, the check the save button applies, and what the dialog shows
    and enables for each state. Storing the submitted key is the caller's
    business and not part of this model. */
module ApiKeySetupDialog {
  import opened Wrappers
  import opened KotlinText

  /** Every accepted key starts with this. */
  const KeyPrefix: string := "AIza"

  const InvalidKeyMessage: string := "Please enter a valid API key"

  /** The save button's test: the trimmed key is not empty and starts with
      the prefix. */
  predicate IsAcceptable(apiKey: string) {
    |Trim(apiKey)| > 0 && StartsWith(Trim(apiKey), KeyPrefix)
  }

  /** What saving hands to `onApiKeySubmit`: the trimmed key when it passes,
      nothing otherwise. */
  function Submission(apiKey: string): (r: Option<string>)
    ensures r.Some? <==> StartsWith(Trim(apiKey), KeyPrefix)
    ensures r.Some? ==> r.value == Trim(apiKey)
  {
    if IsAcceptable(apiKey) then Some(Trim(apiKey)) else None
  }

  /** The non-emptiness half of the test adds nothing: a key that starts
      with the prefix is not empty. */
  lemma PrefixAloneDecides(apiKey: string)
    ensures IsAcceptable(apiKey) <==> StartsWith(Trim(apiKey), KeyPrefix)
    ensures IsAcceptable(apiKey) ==> |Trim(apiKey)| >= |KeyPrefix|
  {
  }

  /** A submitted key has no whitespace at either end, starts with the
      prefix, is what remains of the entered text around its whitespace, and
      is left unchanged by trimming again. */
  lemma SubmittedKeyIsClean(apiKey: string)
    requires Submission(apiKey).Some?
    ensures var k := Submission(apiKey).value;
      && StartsWith(k, KeyPrefix)
      && !IsWhitespace(k[0]) && !IsWhitespace(k[|k| - 1])
      && Trim(k) == k
      && Submission(k) == Some(k)
  {
    var k := Trim(apiKey);
    assert Submission(apiKey).value == k;
    TrimEnds(apiKey);
    assert !IsWhitespace(k[0]) && !IsWhitespace(k[|k| - 1]);
    TrimIdempotent(apiKey);
    assert Trim(k) == k;
    assert IsAcceptable(k);
  }

  /** Whitespace around the key does not change what is submitted. */
  lemma SurroundingWhitespaceIgnored(apiKey: string)
    ensures Submission(Trim(apiKey)) == Submission(apiKey)
  {
    TrimIdempotent(apiKey);
  }

  /** Save is enabled while not loading and once the trimmed key is not
      empty. */
  predicate SaveEnabled(apiKey: string, isLoading: bool) {
    !isLoading && |Trim(apiKey)| > 0
  }

  /** Every acceptable key can be saved when not loading, but save is also
      enabled for keys it then rejects; a key of blanks cannot be saved. */
  lemma SaveEnabledIsWeaker(apiKey: string, isLoading: bool)
    ensures IsAcceptable(apiKey) && !isLoading ==> SaveEnabled(apiKey, isLoading)
    ensures SaveEnabled(apiKey, isLoading) && !StartsWith(Trim(apiKey), KeyPrefix) ==> Submission(apiKey).None?
    ensures (forall i :: 0 <= i < |apiKey| ==> IsWhitespace(apiKey[i])) ==> !SaveEnabled(apiKey, isLoading)
  {
    TrimEmpty(apiKey);
  }

  /** The three state variables of the dialog. */
  datatype Dialog = Dialog(apiKey: string, showApiKey: bool, isValidApiKey: bool)

  function InitialDialog(): Dialog {
    Dialog("", false, true)
  }

  /** The user's inputs: typing in the field, the visibility icon, the save
      and cancel buttons, and a dismissal from outside the dialog (back, or a
      tap beside it). */
  datatype Input = Edit(value: string) | ToggleVisibility | Save | Cancel | DismissRequest

  /** What one delivered input leads to: the new variables, the key handed
      to `onApiKeySubmit` if any, and whether `onDismiss` was called. */
  datatype Outcome = Outcome(dialog: Dialog, submitted: Option<string>, dismissed: bool)

  /** Whether the control an input belongs to accepts it. The field and
      cancel are disabled while loading, and save also while the trimmed key
      is empty. The visibility icon keeps its own default, enabled, and the
      dialog's window always passes a dismissal on to its handler. */
  predicate Enabled(d: Dialog, u: Input, isLoading: bool) {
    match u
    case Edit(_) => !isLoading
    case ToggleVisibility => true
    case Save => SaveEnabled(d.apiKey, isLoading)
    case Cancel => !isLoading
    case DismissRequest => true
  }

  /** The handlers themselves: an edit stores the value and clears the
      invalid mark, the toggle flips the masking, save submits the trimmed
      key when it passes the test and otherwise marks the key invalid, cancel
      dismisses, and a dismissal from outside dismisses only when not
      loading. */
  function Handle(d: Dialog, u: Input, isLoading: bool): Outcome {
    match u
    case Edit(v) => Outcome(d.(apiKey := v, isValidApiKey := true), None, false)
    case ToggleVisibility => Outcome(d.(showApiKey := !d.showApiKey), None, false)
    case Save =>
      if IsAcceptable(d.apiKey) then Outcome(d, Some(Trim(d.apiKey)), false)
      else Outcome(d.(isValidApiKey := false), None, false)
    case Cancel => Outcome(d, None, true)
    case DismissRequest => Outcome(d, None, !isLoading)
  }

  /** One input: handled when its control accepts it, and otherwise without
      any effect. */
  function Step(d: Dialog, u: Input, isLoading: bool): Outcome {
    if Enabled(d, u, isLoading) then Handle(d, u, isLoading) else Outcome(d, None, false)
  }

  /** The key is masked unless it has been toggled visible. */
  predicate Masked(d: Dialog) {
    !d.showApiKey
  }

  /** The text under the field: the error message exactly when the key is
      marked invalid. */
  function SupportingText(d: Dialog): Option<string> {
    if d.isValidApiKey then None else Some(InvalidKeyMessage)
  }

  /** The description of the visibility toggle, naming what it will do. */
  function ToggleDescription(d: Dialog): string {
    if d.showApiKey then "Hide API key" else "Show API key"
  }

  /** Inputs that reach their handler keep the dialog's rules: the key is
      marked invalid only by a rejected save, is left unchanged by a save,
      and is shown only after an odd number of toggles. */
  lemma InputOutcome(d: Dialog, u: Input)
    ensures var r := Step(d, u, false).dialog;
      && (u.Edit? ==> r.apiKey == u.value && r.isValidApiKey && r.showApiKey == d.showApiKey)
      && (u == ToggleVisibility ==> Masked(r) != Masked(d) && r.apiKey == d.apiKey && r.isValidApiKey == d.isValidApiKey)
      && (u == Save ==>
            && r.apiKey == d.apiKey && r.showApiKey == d.showApiKey
            && (SupportingText(r).Some? <==> (!IsAcceptable(d.apiKey) && |Trim(d.apiKey)| > 0) || !d.isValidApiKey))
      && (!r.isValidApiKey ==> (u == Save && !IsAcceptable(d.apiKey)) || (!u.Edit? && !d.isValidApiKey))
  {
  }

  /** While loading, no input changes the key or its invalid mark, nothing
      is submitted and the dialog is not dismissed; only the masking can
      still be toggled. */
  lemma LoadingFreezesDialog(d: Dialog, u: Input)
    ensures var o := Step(d, u, true);
      && o.dialog.apiKey == d.apiKey
      && o.dialog.isValidApiKey == d.isValidApiKey
      && o.submitted.None?
      && !o.dismissed
      && (u != ToggleVisibility ==> o.dialog == d)
  {
  }

  /** Pressing save submits exactly when not loading and the trimmed key
      passes the test, and marks the key invalid exactly when save is enabled
      and the key is rejected; a disabled save changes nothing. */
  lemma SaveDeliveredExactly(d: Dialog, isLoading: bool)
    ensures var o := Step(d, Save, isLoading);
      && (o.submitted.Some? <==> !isLoading && IsAcceptable(d.apiKey))
      && (o.submitted.Some? ==> o.submitted.value == Trim(d.apiKey))
      && (o.dialog.isValidApiKey <==> d.isValidApiKey && !(SaveEnabled(d.apiKey, isLoading) && !IsAcceptable(d.apiKey)))
      && o.dialog.apiKey == d.apiKey && o.dialog.showApiKey == d.showApiKey
      && !o.dismissed
      && (!SaveEnabled(d.apiKey, isLoading) ==> o == Outcome(d, None, false))
  {
  }

  /** The dialog is dismissed exactly by cancel or an outside dismissal
      while not loading, and a dismissal changes none of its variables. */
  lemma DismissedExactly(d: Dialog, u: Input, isLoading: bool)
    ensures var o := Step(d, u, isLoading);
      && (o.dismissed <==> (u == Cancel || u == DismissRequest) && !isLoading)
      && (o.dismissed ==> o.dialog == d && o.submitted.None?)
  {
  }

  /** The dialog holds its remembered variables and is updated in place by
      its handlers; `isLoading` is the parameter it was composed with. Each
      method is one input arriving at its control, which passes it on to the
      handler only when enabled. */
  class ApiKeyDialog {
    const isLoading: bool
    var apiKey: string
    var showApiKey: bool
    var isValidApiKey: bool

    function View(): Dialog
      reads this
    {
      Dialog(apiKey, showApiKey, isValidApiKey)
    }

    constructor(isLoading: bool)
      ensures this.isLoading == isLoading
      ensures View() == InitialDialog()
    {
      this.isLoading := isLoading;
      apiKey := "";
      showApiKey := false;
      isValidApiKey := true;
    }

    /** Typing in the field, whose `onValueChange` runs only while the field
        is enabled. */
    method OnValueChange(value: string)
      modifies this
      ensures View() == Step(old(View()), Edit(value), isLoading).dialog
    {
      if !isLoading {
        apiKey := value;
        isValidApiKey := true;
      }
    }

    /** The visibility icon. */
    method OnToggleVisibility()
      modifies this
      ensures View() == Step(old(View()), ToggleVisibility, isLoading).dialog
    {
      showApiKey := !showApiKey;
    }

    /** The save button: while enabled, submits the trimmed key when it
        passes the test, and otherwise marks the key invalid. */
    method OnSave() returns (submitted: Option<string>)
      modifies this
      ensures View() == Step(old(View()), Save, isLoading).dialog
      ensures submitted == Step(old(View()), Save, isLoading).submitted
    {
      submitted := None;
      var key := apiKey;
      var trimmed := Trim(key);
      if !isLoading && |trimmed| > 0 {
        if StartsWith(trimmed, KeyPrefix) {
          submitted := Some(trimmed);
        } else {
          isValidApiKey := false;
        }
      }
    }

    /** The cancel button: calls `onDismiss` while enabled. */
    method OnCancel() returns (dismiss: bool)
      ensures dismiss == Step(View(), Cancel, isLoading).dismissed
    {
      dismiss := !isLoading;
    }

    /** The dialog's `onDismissRequest`: passed on to `onDismiss` only while
        not loading. */
    method OnDismissRequest() returns (dismiss: bool)
      ensures dismiss == Step(View(), DismissRequest, isLoading).dismissed
    {
      dismiss := !isLoading;
    }
  }
}
