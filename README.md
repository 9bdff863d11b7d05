# Ai-Eze text processing, modelled in Dafny

Ai-Eze is an Android app. You select text in a system text field and choose an AI action
("Rephrase", "Fix Grammar", "Change tone", a translation, …). The app fills the
action's prompt template with the selected text and streams the answer from the Gemini
generative-text API. While the answer streams in, it shows the growing answer. You
can then copy the result or put it in place of the selected text.

This project models the core of that flow and proves properties of the model:

- `GeminiClient` covers the streaming client. It shows how a text chunk is cut out
  of each line of the response body, and how the chunks are accumulated and every
  snapshot of the accumulated text is emitted. It also covers the message a
  failure is rethrown with.
- `PromptTemplates` holds the twelve templates, their display names, the
  substitution of the selected text for the `{text}` placeholder, and the four
  action groups.
- `ActionCategories` holds the four menu categories built from those groups.
- `TextProcessingBottomSheet` models several parts of the bottom sheet:
  - the state machine: its five remembered variables and the handlers that
    update them;
  - its `handleAction`, with the order of its callbacks;
  - the preview of the selected text and the action-count label;
  - the buttons it offers after an action;
  - the descriptions of the templates.
- `MorphingText` is the sequence of texts the morphing animation of the sheet
  displays.
- `TextHandlerActivity` covers the activity that receives the selected text. It
  models which text the activity resolves and when it finishes at once. It also
  models the five variables of its screen, its own `handleAction`, and what the
  screen shows for each state. The activity's `handleAction` is a separate copy
  in the source, with its own callbacks. So its `Updates` and `CollectUpdates`
  have the same shape as the sheet's `Updates` and `Collect`, over a different
  callback type.
- `ApiKeySetupDialog` covers the key dialog: its validation of the entered key,
  its three variables, and what it shows and enables.
- `KotlinText` contains the few Kotlin string functions the code relies on. Each
  one follows the Kotlin semantics the code depends on:
  - `substringAfter` and `substringBefore` return the whole string when the
    delimiter is missing;
  - `replace` works left to right;
  - `split(" ")` keeps empty pieces;
  - `trim` uses `Char.isWhitespace`.
  - `length` and `take` count UTF-16 code units, two for a character beyond
    U+FFFF.
- `Wrappers` contains an `Option` type, which stands for a nullable value.

A few things that are not values in the model become inputs:

- The network response is an input: the lines the client reads, and possibly the
  exception that ended the request or the read.
- The stored API key is an input (`Option<string>`).
- Whether the sheet's context leads to an activity is an input (`hasActivity`).

Screen handlers are classes whose fields are the composables' remembered
variables. Each handler method is proved to move the state exactly as a
transition function on a value (`View()`) says. The lemmas about that function
state what the source promises.

Three behaviours of the code are worth knowing, and the model keeps them as the
code has them:

- The code treats a stream that yields nothing as a success. The sheet just
  completes with the text unchanged.
- A retry does not cancel a request that is still running.
- An HTTP error status is not told apart from a body without chunks.

The activity's call of the sheet (TextHandlerActivity.kt:260) does not match the
sheet's declared signature (TextProcessingBottomSheet.kt:49-53) in two ways. It
passes `onActionSelected`, which the sheet does not declare, and it leaves out
`apiKeyManager`, which the sheet requires. The model takes the intended
composition: choosing an action in the activity's sheet closes the sheet and
runs the activity's own `handleAction`.

## Model

| member | source | states |
|---|---|---|
| GeminiClient.DefaultGenerationConfig | app/src/main/java/in/devh/ai_ze/GeminiClient.kt:36-41 | the default request samples from the 40 likeliest tokens and answers with at most 1024 tokens |
| GeminiClient.BuildRequest | app/src/main/java/in/devh/ai_ze/GeminiClient.kt:88-90 | the request holds exactly one content with exactly one part, the prompt, under the default configuration |
| GeminiClient.FailureMessage | app/src/main/java/in/devh/ai_ze/GeminiClient.kt:120-123 | the rethrown message is the fixed prefix followed by the caught exception's message, "null" when it has none |
| GeminiClient.Chunks | app/src/main/java/in/devh/ai_ze/GeminiClient.kt:101-113 | only non-empty chunks are ever accumulated |
| GeminiClient.GenerateTextStream | app/src/main/java/in/devh/ai_ze/GeminiClient.kt:87-124 | the loop emits one snapshot per non-empty chunk, the k-th being the concatenation of the first k+1 chunks, and ends with the failure message exactly when the body ended in a failure |
| GeminiClient.ReadBody | app/src/main/java/in/devh/ai_ze/GeminiClient.kt:92-118 | reading the lines one by one from an empty accumulator emits exactly the snapshots of the whole body |
| GeminiClient.HandleLine | app/src/main/java/in/devh/ai_ze/GeminiClient.kt:100-113 | a line whose chunk is non-empty extends the accumulated text by that chunk and emits the result; any other line changes neither |
| GeminiClient.ReadLine | app/src/main/java/in/devh/ai_ze/GeminiClient.kt:100-113 | reading one more line adds its chunk and one snapshot when the chunk is non-empty, and changes nothing otherwise |
| GeminiClient.NonMarkerLinesContributeNothing | app/src/main/java/in/devh/ai_ze/GeminiClient.kt:101 | lines without the `"text"` marker add no chunk and no snapshot |
| GeminiClient.SnapshotsArePrefixSums | app/src/main/java/in/devh/ai_ze/GeminiClient.kt:110-112 | every emitted snapshot is the accumulated text of the chunks read so far |
| GeminiClient.SnapshotsGrow | app/src/main/java/in/devh/ai_ze/GeminiClient.kt:110-112 | each snapshot strictly extends the previous one by the next chunk |
| GeminiClient.SnapshotsNonEmpty | app/src/main/java/in/devh/ai_ze/GeminiClient.kt:110-112 | every emitted text is non-empty, as it ends with the non-empty chunk that caused it |
| GeminiClient.LastSnapshotIsAccumulatedText | app/src/main/java/in/devh/ai_ze/GeminiClient.kt:92-112 | the last snapshot is the whole accumulated text |
| GeminiClient.RawChunkHasNoQuote | app/src/main/java/in/devh/ai_ze/GeminiClient.kt:105 | the text cut out of a line never contains a double quote, since it ends at the first one |
| GeminiClient.QuoteUnescapeIsDead | app/src/main/java/in/devh/ai_ze/GeminiClient.kt:105-108 | the quote-unescaping step never changes the chunk, and no chunk holds a double quote |
| GeminiClient.ChunksHaveNoQuote | app/src/main/java/in/devh/ai_ze/GeminiClient.kt:105-111 | no accumulated chunk holds a double quote |
| GeminiClient.SnapshotsHaveNoQuote | app/src/main/java/in/devh/ai_ze/GeminiClient.kt:110-112 | no emitted text holds a double quote, so an escaped quote in the answer cuts the chunk short |
| GeminiClient.MissingOpeningTakesPrefix | app/src/main/java/in/devh/ai_ze/GeminiClient.kt:105 | a marker line without `"text": "` yields the text before its first quote, and that quote exists |
| GeminiClient.MissingOpeningKeepsLeadingText | app/src/main/java/in/devh/ai_ze/GeminiClient.kt:105-108 | on such a line any leading text without quotes or backslashes is emitted as a chunk |
| GeminiClient.MissingOpeningYieldsNothingIffQuoteFirst | app/src/main/java/in/devh/ai_ze/GeminiClient.kt:105-110 | such a line yields no chunk exactly when it starts with a quote |
| GeminiClient.UnescapeNewlinesHead | app/src/main/java/in/devh/ai_ze/GeminiClient.kt:107 | the newline unescape turns a leading `\n` pair into a newline and keeps any other first character |
| GeminiClient.UnescapeNewlinesLength | app/src/main/java/in/devh/ai_ze/GeminiClient.kt:107 | unescaping shortens the text by one character per escaped newline |
| GeminiClient.NoEscapedNewlineRemains | app/src/main/java/in/devh/ai_ze/GeminiClient.kt:107 | after unescaping, no escaped newline pair remains |
| KotlinText.JoinSplit | app/src/main/java/in/devh/ai_ze/TextProcessingBottomSheet.kt:553-554 | joining the space-split words with single spaces gives the text back |
| KotlinText.TrimIdempotent | app/src/main/java/in/devh/ai_ze/ApiKeySetupDialog.kt:105 | trimming twice is trimming once |
| KotlinText.Utf16Length | app/src/main/java/in/devh/ai_ze/TextProcessingBottomSheet.kt:305 | `length` counts UTF-16 code units: between one and two per character |
| KotlinText.Take | app/src/main/java/in/devh/ai_ze/TextProcessingBottomSheet.kt:305 | `take(n)` keeps a prefix of at most n code units that cannot be extended by one more whole character |
| KotlinText.TakeWhole | app/src/main/java/in/devh/ai_ze/TextProcessingBottomSheet.kt:305 | a text that fits in n code units is taken whole |
| KotlinText.TakeCut | app/src/main/java/in/devh/ai_ze/TextProcessingBottomSheet.kt:305 | a longer text is cut short, keeping n code units, or n-1 before a surrogate pair |
| KotlinText.DecimalRoundTrip | app/src/main/java/in/devh/ai_ze/TextProcessingBottomSheet.kt:433 | the decimal rendering of a count reads back as that count |
| PromptTemplates.AllTemplates | app/src/main/java/in/devh/ai_ze/PromptTemplates.kt:3-51 | there are twelve templates, listed without repetition |
| PromptTemplates.DisplayNamesAreDistinct | app/src/main/java/in/devh/ai_ze/PromptTemplates.kt:3-51 | different templates have different display names |
| PromptTemplates.TemplatesAreBraceFree | app/src/main/java/in/devh/ai_ze/PromptTemplates.kt:3-51 | no template has a brace outside its single placeholder |
| PromptTemplates.PlaceholderOccursOnce | app/src/main/java/in/devh/ai_ze/PromptTemplates.kt:3-51 | every template holds the `{text}` placeholder exactly once |
| PromptTemplates.GetPromptSubstitutes | app/src/main/java/in/devh/ai_ze/PromptTemplates.kt:53-55 | the prompt is the template's instructions, the selected text in double quotes on its own paragraph, then the closing instruction, whatever the text holds |
| PromptTemplates.PromptLength | app/src/main/java/in/devh/ai_ze/PromptTemplates.kt:53-55 | the prompt is as long as the template with the placeholder swapped for the text |
| PromptTemplates.PromptQuotesText | app/src/main/java/in/devh/ai_ze/PromptTemplates.kt:53-55 | the selected text appears verbatim in the prompt at a fixed offset, between double quotes |
| PromptTemplates.GroupsAreDisjoint | app/src/main/java/in/devh/ai_ze/PromptTemplates.kt:58-72 | no template is in two of the four action groups |
| PromptTemplates.GroupsMissOnlySuggestReply | app/src/main/java/in/devh/ai_ze/PromptTemplates.kt:58-72 | the groups hold eleven templates: every one but SuggestReply |
| ActionCategories.CategoriesAreTheGroups | app/src/main/java/in/devh/ai_ze/ActionCategories.kt:17-40 | four categories in menu order, named as in the menu, offering the four groups of 4, 3, 2 and 2 actions |
| ActionCategories.CategoryNamesAreDistinct | app/src/main/java/in/devh/ai_ze/ActionCategories.kt:17-40 | no two categories share a name |
| ActionCategories.CategoryIndexIsExact | app/src/main/java/in/devh/ai_ze/ActionCategories.kt:17-40 | each template is offered by exactly the category the per-template table names, and SuggestReply by none |
| ActionCategories.CategoriesAreDisjoint | app/src/main/java/in/devh/ai_ze/ActionCategories.kt:17-40 | no template is offered by two categories |
| TextProcessingBottomSheet.HandleAction | app/src/main/java/in/devh/ai_ze/TextProcessingBottomSheet.kt:893-935 | the callbacks are the activity error, or the missing-key error, or one update per snapshot, the prefixed failure if any, then completion; a request is built only with an activity and a key |
| TextProcessingBottomSheet.MissingKeyIsErrorOnly | app/src/main/java/in/devh/ai_ze/TextProcessingBottomSheet.kt:910-914 | without a key the only callback is the missing-key error, and nothing completes |
| TextProcessingBottomSheet.StreamFailureThenComplete | app/src/main/java/in/devh/ai_ze/TextProcessingBottomSheet.kt:920-928 | a failed stream delivers its updates, then "Error: " plus the client's failure message, then completion |
| TextProcessingBottomSheet.EmptyResultCompletes | app/src/main/java/in/devh/ai_ze/TextProcessingBottomSheet.kt:920-928 | a stream with no chunk and no failure only completes, with no error |
| TextProcessingBottomSheet.CompletionComesLast | app/src/main/java/in/devh/ai_ze/TextProcessingBottomSheet.kt:916-928 | with an activity and a key, completion comes exactly once and last, and any error comes just before it |
| TextProcessingBottomSheet.DeliverKeepsChoices | app/src/main/java/in/devh/ai_ze/TextProcessingBottomSheet.kt:152-157 | the callbacks never change the selected category or template |
| TextProcessingBottomSheet.Collect | app/src/main/java/in/devh/ai_ze/TextProcessingBottomSheet.kt:923-925 | one text update per emitted value, in the order of emission |
| TextProcessingBottomSheet.DeliverUpdates | app/src/main/java/in/devh/ai_ze/TextProcessingBottomSheet.kt:152 | after a run of updates the text is the last one, and it is unchanged when there are none |
| TextProcessingBottomSheet.RunActionOutcome | app/src/main/java/in/devh/ai_ze/TextProcessingBottomSheet.kt:144-159 | choosing an action ends in the result state with that template chosen; the text is the whole accumulated answer and the error is the prefixed failure, and neither is cleared beforehand |
| TextProcessingBottomSheet.BackToMainResets | app/src/main/java/in/devh/ai_ze/TextProcessingBottomSheet.kt:183-189 | back-to-main restores all five variables to their initial values |
| TextProcessingBottomSheet.RetryOutcome | app/src/main/java/in/devh/ai_ze/TextProcessingBottomSheet.kt:190-207 | retry does nothing without a stored template, and otherwise clears the text and the error and runs that template again |
| TextProcessingBottomSheet.CopyAndReplaceKeepSheet | app/src/main/java/in/devh/ai_ze/TextProcessingBottomSheet.kt:209-219 | copy and replace leave the sheet's variables as they are |
| TextProcessingBottomSheet.ButtonsOffered | app/src/main/java/in/devh/ai_ze/TextProcessingBottomSheet.kt:664-757 | back comes first and retry is always offered; copy and replace are offered exactly when there is no error |
| TextProcessingBottomSheet.StepKeepsConsistent | app/src/main/java/in/devh/ai_ze/TextProcessingBottomSheet.kt:136-219 | the sheet starts in, and every input it offers keeps, its invariant: never left processing, no text, error or template in action selection, a template in the result state, a chosen category from the menu; so retry always has a template to run |
| TextProcessingBottomSheet.SuccessOffersCopy | app/src/main/java/in/devh/ai_ze/TextProcessingBottomSheet.kt:144-159 | an action that does not fail ends offering copy and replace of the whole accumulated answer |
| TextProcessingBottomSheet.PreviewShape | app/src/main/java/in/devh/ai_ze/TextProcessingBottomSheet.kt:305 | a text of at most 80 UTF-16 code units is previewed whole in quotes; a longer one is cut to a proper prefix of 80 code units, or 79 when the next character is a surrogate pair, and marked with an ellipsis |
| TextProcessingBottomSheet.PreviewOfNarrowText | app/src/main/java/in/devh/ai_ze/TextProcessingBottomSheet.kt:305 | for text below U+10000 a text of more than 80 characters shows its first 80 and the ellipsis |
| TextProcessingBottomSheet.PreviewOfWideText | app/src/main/java/in/devh/ai_ze/TextProcessingBottomSheet.kt:305 | a text of more than 40 characters beyond U+FFFF, such as emoji, shows only its first 40 and the ellipsis |
| TextProcessingBottomSheet.ActionCountLabels | app/src/main/java/in/devh/ai_ze/TextProcessingBottomSheet.kt:433 | the categories read "4 actions available", "3 actions available", "2 actions available" and "2 actions available" |
| TextProcessingBottomSheet.DescriptionsAreDistinct | app/src/main/java/in/devh/ai_ze/TextProcessingBottomSheet.kt:966-981 | different templates have different descriptions |
| TextProcessingBottomSheet.BottomSheet.constructor | app/src/main/java/in/devh/ai_ze/TextProcessingBottomSheet.kt:54-58 | the sheet starts in action selection with nothing chosen, no text and no error |
| TextProcessingBottomSheet.BottomSheet.OnCategorySelected | app/src/main/java/in/devh/ai_ze/TextProcessingBottomSheet.kt:142 | choosing a category records it and changes nothing else |
| TextProcessingBottomSheet.BottomSheet.OnBackPressed | app/src/main/java/in/devh/ai_ze/TextProcessingBottomSheet.kt:143 | back in the action list forgets the category and changes nothing else |
| TextProcessingBottomSheet.BottomSheet.ReceiveAll | app/src/main/java/in/devh/ai_ze/TextProcessingBottomSheet.kt:152-157 | delivering the callbacks in order moves the sheet as the transition function says |
| TextProcessingBottomSheet.BottomSheet.OnActionSelected | app/src/main/java/in/devh/ai_ze/TextProcessingBottomSheet.kt:144-159 | records the template, enters processing, runs the action and applies its callbacks; returns the request sent |
| TextProcessingBottomSheet.BottomSheet.OnBackToMain | app/src/main/java/in/devh/ai_ze/TextProcessingBottomSheet.kt:183-189 | resets the sheet and leaves the clipboard alone |
| TextProcessingBottomSheet.BottomSheet.OnRetry | app/src/main/java/in/devh/ai_ze/TextProcessingBottomSheet.kt:190-207 | reruns the stored template after clearing text and error, or does nothing |
| TextProcessingBottomSheet.BottomSheet.OnCopy | app/src/main/java/in/devh/ai_ze/TextProcessingBottomSheet.kt:209-213 | puts the processed text on the clipboard under the label "AI Result" |
| TextProcessingBottomSheet.BottomSheet.OnReplace | app/src/main/java/in/devh/ai_ze/TextProcessingBottomSheet.kt:214-219 | copies as copy does, then asks to be dismissed |
| MorphingText.MaxLength | app/src/main/java/in/devh/ai_ze/TextProcessingBottomSheet.kt:555 | the frame width is the larger word count, at least one |
| MorphingText.MorphFrames | app/src/main/java/in/devh/ai_ze/TextProcessingBottomSheet.kt:551-597 | the nested loops display exactly the frames of the frame function, one per position 0..maxLength, or only the original text while the processed text is empty |
| MorphingText.FrameCount | app/src/main/java/in/devh/ai_ze/TextProcessingBottomSheet.kt:557 | there are maxLength+1 frames once the processed text is non-empty, and one before |
| MorphingText.FinalFrame | app/src/main/java/in/devh/ai_ze/TextProcessingBottomSheet.kt:557-594 | the last frame is the processed text, with one trailing space when it has fewer words than the original |
| MorphingText.MorphedWordsLead | app/src/main/java/in/devh/ai_ze/TextProcessingBottomSheet.kt:564-569 | in frame i the first i words are already the processed text's words |
| MorphingText.SteadyWhenUnchanged | app/src/main/java/in/devh/ai_ze/TextProcessingBottomSheet.kt:557-594 | when the processed text equals a text without empty words, every frame shows that text |
| TextHandlerActivity.OnCreateOutcome | app/src/main/java/in/devh/ai_ze/TextHandlerActivity.kt:42-49 | the activity finishes exactly when the resolved text is empty, and otherwise shows that text; with neither extra it finishes |
| TextHandlerActivity.EmptyExtraShadowsProcessText | app/src/main/java/in/devh/ai_ze/TextHandlerActivity.kt:42-44 | an empty "selectedText" extra is not replaced by the process-text extra, so the activity finishes |
| TextHandlerActivity.HandleAction | app/src/main/java/in/devh/ai_ze/TextHandlerActivity.kt:294-335 | the callbacks are the start, then the missing-key error or one update per snapshot, the prefixed failure if any, then completion; a request is built only with a key |
| TextHandlerActivity.StartComesFirst | app/src/main/java/in/devh/ai_ze/TextHandlerActivity.kt:306-328 | the start comes first and once; the run completes, last and once, exactly when there is a key |
| TextHandlerActivity.RunActionOutcome | app/src/main/java/in/devh/ai_ze/TextHandlerActivity.kt:262-286 | choosing an action hides the sheet and ends not processing with the result shown; the text is empty and the error is missing-key without a key, else the text is the accumulated answer and the error the prefixed failure |
| TextHandlerActivity.ProgressWhileStreaming | app/src/main/java/in/devh/ai_ze/TextHandlerActivity.kt:126-185 | after the start and k updates the card and the progress indicator show; the card shows "Processing..." before the first update and the k-th snapshot after it, and the copy and replace buttons appear exactly from the first update on |
| TextHandlerActivity.ResultView | app/src/main/java/in/devh/ai_ze/TextHandlerActivity.kt:126-235 | after a run the card shows the text without progress; the buttons show exactly when there was a key and a non-empty answer, the error card exactly when the key was missing or the stream failed |
| TextHandlerActivity.TextProcessingScreen.constructor | app/src/main/java/in/devh/ai_ze/TextHandlerActivity.kt:76-80 | the screen starts with the sheet shown, not processing, with no text, no result and no error |
| TextHandlerActivity.TextProcessingScreen.OnCallbacks | app/src/main/java/in/devh/ai_ze/TextHandlerActivity.kt:269-284 | delivering callbacks moves the screen as the transition function says |
| TextHandlerActivity.TextProcessingScreen.OnActionSelected | app/src/main/java/in/devh/ai_ze/TextHandlerActivity.kt:262-286 | hides the sheet, runs the action and applies its callbacks; returns the request sent |
| TextHandlerActivity.TextProcessingScreen.OnDismiss | app/src/main/java/in/devh/ai_ze/TextHandlerActivity.kt:287 | dismissing hides the sheet and nothing else |
| TextHandlerActivity.TextProcessingScreen.OnCopy | app/src/main/java/in/devh/ai_ze/TextHandlerActivity.kt:192-197 | puts the processed text on the clipboard under "AI Result" |
| TextHandlerActivity.TextProcessingScreen.OnReplace | app/src/main/java/in/devh/ai_ze/TextHandlerActivity.kt:209-217 | copies, then finishes the activity |
| ApiKeySetupDialog.Submission | app/src/main/java/in/devh/ai_ze/ApiKeySetupDialog.kt:103-109 | a key is submitted exactly when its trimmed form starts with "AIza", and what is submitted is the trimmed form |
| ApiKeySetupDialog.PrefixAloneDecides | app/src/main/java/in/devh/ai_ze/ApiKeySetupDialog.kt:104 | the non-emptiness test adds nothing to the prefix test |
| ApiKeySetupDialog.SubmittedKeyIsClean | app/src/main/java/in/devh/ai_ze/ApiKeySetupDialog.kt:103-109 | a submitted key starts with the prefix, has no whitespace at either end and would be submitted again unchanged |
| ApiKeySetupDialog.SurroundingWhitespaceIgnored | app/src/main/java/in/devh/ai_ze/ApiKeySetupDialog.kt:103-109 | whitespace around a key does not change what is submitted |
| ApiKeySetupDialog.SaveEnabledIsWeaker | app/src/main/java/in/devh/ai_ze/ApiKeySetupDialog.kt:110 | save is enabled for every acceptable key, is also enabled for some keys it then rejects, and is never enabled for a key of blanks |
| ApiKeySetupDialog.InputOutcome | app/src/main/java/in/devh/ai_ze/ApiKeySetupDialog.kt:56-113 | while not loading, an edit stores the value and clears the error, a toggle flips the masking, a save keeps the key and shows the error exactly when a non-blank key is rejected or was already marked, and only a rejected save marks the key invalid |
| ApiKeySetupDialog.LoadingFreezesDialog | app/src/main/java/in/devh/ai_ze/ApiKeySetupDialog.kt:32-113 | while loading, no input changes the key or its invalid mark, submits anything or dismisses the dialog; only the visibility toggle still acts |
| ApiKeySetupDialog.SaveDeliveredExactly | app/src/main/java/in/devh/ai_ze/ApiKeySetupDialog.kt:102-113 | pressing save submits the trimmed key exactly when not loading and the key passes the test, marks the key invalid exactly when save is enabled and the key is rejected, and does nothing while disabled |
| ApiKeySetupDialog.DismissedExactly | app/src/main/java/in/devh/ai_ze/ApiKeySetupDialog.kt:32-100 | the dialog is dismissed exactly by cancel or an outside dismissal while not loading, and dismissal changes none of its variables |
| ApiKeySetupDialog.ApiKeyDialog.constructor | app/src/main/java/in/devh/ai_ze/ApiKeySetupDialog.kt:27-29 | the dialog starts with an empty, masked key not marked invalid |
| ApiKeySetupDialog.ApiKeyDialog.OnValueChange | app/src/main/java/in/devh/ai_ze/ApiKeySetupDialog.kt:56-78 | typing while the field is enabled stores the value and clears the invalid mark, and changes nothing while loading |
| ApiKeySetupDialog.ApiKeyDialog.OnToggleVisibility | app/src/main/java/in/devh/ai_ze/ApiKeySetupDialog.kt:66 | the toggle flips whether the key is shown and nothing else |
| ApiKeySetupDialog.ApiKeyDialog.OnSave | app/src/main/java/in/devh/ai_ze/ApiKeySetupDialog.kt:102-110 | the new variables and the submission are those of a save arriving at the button, so nothing happens while it is disabled |
| ApiKeySetupDialog.ApiKeyDialog.OnCancel | app/src/main/java/in/devh/ai_ze/ApiKeySetupDialog.kt:95-98 | cancel dismisses exactly when not loading |
| ApiKeySetupDialog.ApiKeyDialog.OnDismissRequest | app/src/main/java/in/devh/ai_ze/ApiKeySetupDialog.kt:32 | an outside dismissal is passed on exactly when the dialog is not loading |

## Left out

- The HTTP client, the JSON serialization of the request, logging and `close()` are not modelled. Only the lines of the body and its failure are inputs.
- Coroutines, `lifecycleScope` and the flow's threading are not modelled. A run delivers its callbacks in order, with nothing running in between, and nothing cancels a run.
- GeminiClient.DefaultGenerationConfig: the floating-point parameters (temperature 0.7, topP 0.95) are not modelled. Dafny has no floating point fit for them, and nothing else in the core reads them.
- The per-line `catch` in the stream loop (GeminiClient.kt:114-116) is not modelled. It also guards `emit(accumulatedText)` (GeminiClient.kt:112). The string calls it guards cannot throw. The `emit` throws only when the collector throws or the run is cancelled, and then the catch swallows the exception, logs it and reads on. The model's collectors do not throw and nothing cancels a run, so in the model the catch never fires.
- The outer `catch` of both `handleAction`s (TextProcessingBottomSheet.kt:931-933, TextHandlerActivity.kt:331-333) is not modelled. The model's client cannot fail to construct, and it has none of the three paths that reach that catch:
  - constructing the client throws;
  - `geminiClient.close()` throws after completion (TextProcessingBottomSheet.kt:928-929, TextHandlerActivity.kt:328-329), which would deliver an error after the completion callback;
  - the coroutine is cancelled: a `CancellationException` is an `Exception` and lands in the same catch.
- The activity's cast of its context (TextHandlerActivity.kt:304) is not modelled. It is assumed to succeed; the sheet's `findActivity` (TextProcessingBottomSheet.kt:937-947) becomes the `hasActivity` input.
- `ApiKeyManager` is not part of this model; the stored key is an `Option<string>` input. Storing a submitted key is the caller's business.
- The duplicate-launch check (TextHandlerActivity.kt:37-40) and `onNewIntent` are not modelled. They depend on the Android task stack.
- The clipboard service and the replacement of the text in the source app are not modelled. The model only records the clip that is set and whether the activity finished or the sheet asked to be dismissed.
- Animations and delays are not modelled: timing, the morph progress value and the spring animations. MorphingText models only the sequence of displayed texts. The unused `oldWord` of the morph loop has no effect.
- Icons and their vector images are not modelled, nor `getIconForTemplate` (TextProcessingBottomSheet.kt:949-964), nor the button and card layouts (TextProcessingBottomSheet.kt:759-891). Categories carry their icon by name.
- The link that opens the key page in a browser (ApiKeySetupDialog.kt:116-124) is not modelled. It only leaves the app.
- `MainActivity` and `TextClassifierService` are not part of this model.
- KotlinText.IsWhitespace: `Char.isWhitespace` is written out as a fixed table of the characters the JVM counts as whitespace. It is not derived from Unicode data, so a later Unicode version that adds a space character is not followed.
- KotlinText.Take, KotlinText.TakeCut: when the n-th code unit of `take(n)` is the first half of a surrogate pair, Kotlin keeps n units ending in that lone high surrogate. A Dafny string holds only whole characters, so the model keeps n-1 units. Texts whose cut does not fall inside a pair are taken exactly as Kotlin takes them.
- TextProcessingBottomSheet.PreviewShape: when the 80th code unit is the first half of a surrogate pair, Kotlin's `take(80)` keeps that lone high surrogate. A Dafny string holds whole characters and cannot hold it, so the model stops one unit earlier, and its preview lacks that one unpaired unit.
- ApiKeySetupDialog.Enabled: the visibility icon inside the field is taken to stay clickable while the field is disabled, since its `IconButton` keeps its own default `enabled`. How Compose routes a click on a disabled field's trailing icon is not modelled.
- The prompt templates are written as an instruction text and a closing text around one shared layout, `<intro>\n\n"{text}"\n\n<closing>`. Their full wording is given in pieces, and the proofs reason about the layout.
