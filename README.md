# Polish: a verified model of the text capture, request and replacement logic

Polish lets a user select text in a page or a native macOS application and
press a shortcut. The text is sent with a style prompt to a chat-completion
API, and the result can replace the original text. This project models two
parts of the system in Dafny and proves properties of the model: the Chrome
extension and the macOS companion.

The extension, in five modules:

- `InputFilter` (`inputfilter.dfy`) covers three jobs:
  - the privacy filter that decides which focused element may be read. It
    looks at the element kind, the input `type` and the `autocomplete`
    attribute, whose tokens are autofill field names from section 4.10.18.7
    of the WHATWG HTML Standard;
  - the capture of a selected span, with a snapshot of where it was: offsets
    for a text control, a range for a contenteditable region;
  - the write-back. It either replaces the whole field or splices the stored
    range, as `setRangeText` does (section 4.10.20 of the WHATWG HTML
    Standard). Elements are objects that the writers change in place.
- `ContentSession` (`session.dfy`) is the content script's floating-panel
  session. The module-level variables become the fields of a `Session`
  class, with one method per event:
  - focus, the debounce timer and selection prompt updates;
  - the trigger message from the background worker;
  - the polish request being sent, and its response arriving;
  - accept, close, retry and style change;
  - the deferred continuations of `getDefaultStyle()`.

  Each transition is first a function on a `SessionState` value. Each method
  is proved to move the fields exactly as its function says and to keep an
  invariant. Ghost counters record which continuations are still pending.
- `Background` (`background.dfy`) is the background worker's `polishText`. It
  covers:
  - the guard chain: a missing key first, then blank text;
  - the request body;
  - the mapping of HTTP statuses to messages. Status classes follow section 15
    of RFC 9110, and 429 is from section 4 of RFC 6585;
  - the conversion of anything thrown into the `PolishError` taxonomy;
  - the response sent back to the content script.
- `Storage` (`storage.dfy`) is the settings store over
  `chrome.storage.local`, with getters that fall back to defaults.
- `SharedTypes` (`shared.dfy`) holds the shared types and constants,
  including the partial style catalogue.

The macOS companion, in three modules:

- `MacPolishService` (`macservice.dfy`) covers:
  - the three style presets;
  - `PolishService.polish`: a guard chain (blank text, blank key, an endpoint
    that does not parse), then one request whose outcome is classified;
  - the `URLRequest`, which is built field by field.
- `MacSettings` (`macsettings.dfy`) covers:
  - the settings view model, whose fields load from `UserDefaults` once and
    are written back on every assignment;
  - the preset lookup, which falls back to the first preset.
- `MacApp` (`macapp.dfy`) covers:
  - the hot-key signature packed from "POLI" by `fourCharCodeValue`;
  - the hot-key registration, and its release at termination;
  - the hot-key id dispatch;
  - the ⌘P flow, which reads the selection, polishes it and shows the result
    or the error;
  - the Apply action, which writes the result over the selection.

Two helper modules sit underneath:

- `Text` (`text.dfy`) holds:
  - whitespace trimming, with the two whitespace sets involved. JavaScript's
    `trim` also strips U+FEFF; Swift's `.whitespacesAndNewlines` also strips
    U+0085;
  - `slice` and `setRangeText`;
  - the decimal rendering of a status code.
- `Wrappers` (`wrappers.dfy`) holds `Option` and `Result`.

Browser, network and operating-system calls are parameters of the model:

- whether `execCommand('insertText')` succeeded;
- what `window.getSelection()` holds, and the nodes an element contains after
  a write;
- what `fetch` or `URLSession` produced, and what `JSON.parse` or
  `JSONDecoder` made of it;
- whether `URL(string:)` parsed the endpoint;
- what the accessibility API returned for the selection.

Two behaviours of the content script are worth stating because a reader
might expect otherwise:

- **No stale-response guard.** `triggerPolish` (`src/pages/content/index.tsx`,
  lines 255-262) applies whatever response settles, even one for a request
  made before the panel was closed or another request started.
  `ContentSession.LateResponseReopensPanel` states this: a response that
  arrives after the panel was closed reopens it with a result whose
  original text is gone.
- **No re-request while loading.** `handleStyleChange` (lines 214-222)
  records the new style but re-sends the stored text only when the panel is
  not loading; see `ContentSession.StyleChangeResends`.

## Model

| member | source | states |
|---|---|---|
| SharedTypes.PolishStyles | src/shared/constants.ts:22-41 | The style catalogue is a partial lookup: it is defined exactly for formal, casual and concise, and the entry found carries the requested id |
| SharedTypes.CatalogIsPartial | src/shared/types.ts:4 | `commit`, a declared `PolishStyle`, has no catalogue entry, while the default style has one |
| Text.TrimStart | src/pages/background/index.ts:71 | Dropping leading whitespace gives the suffix that starts at the first non-space character; everything dropped is whitespace |
| Text.TrimEnd | src/pages/background/index.ts:71 | Dropping trailing whitespace gives the prefix that ends at the last non-space character; everything dropped is whitespace |
| Text.TrimEmptyIffBlank | src/pages/background/index.ts:32 | `!s.trim()` (and Swift's `trimmed.isEmpty`) holds exactly when every character is whitespace |
| Text.AllSpaceIffBlank | src/pages/content/index.tsx:234 | The character-by-character blank test agrees with "every character is whitespace" |
| Text.AllSpaceIffTrimEmpty | src/pages/content/index.tsx:234 | The character-by-character blank test agrees with trimming to nothing |
| Text.TrimIsInnerSlice | macos/Sources/PolishMacApp/PolishService.swift:21 | Trimming keeps a contiguous piece of the input with no whitespace at either end |
| Text.Slice | src/pages/content/utils/inputFilter.ts:109 | `value.slice(start, end)`: the substring between in-range ordered offsets, and "" for a reversed pair |
| Text.SpliceRange | src/pages/content/utils/inputFilter.ts:212 | `setRangeText` with offsets clamped to the value: the value before the clamped start is kept, the text follows, then the value after the clamped end; the length changes by the text minus the clamped range |
| Text.SliceSpliceRoundTrip | src/pages/content/utils/inputFilter.ts:212 | Writing back the very text sliced out of a range leaves the value unchanged |
| Text.SpliceThenSlice | src/pages/content/utils/inputFilter.ts:212 | For any ordered offsets, stale ones included: after a splice, the span from the clamped start reads back as the inserted text, and the text before it and after it is what was outside the clamped range |
| Text.NatToDecimal | src/pages/background/index.ts:137 | A status renders as a non-empty string of decimal digits with no leading zero |
| Text.DecimalRoundTrip | src/pages/background/index.ts:137 | Reading the rendered numeral back gives the number |
| InputFilter.IsSafeKind | src/pages/content/utils/inputFilter.ts:32-62 | An unsafe input type or a sensitive autocomplete token rejects an input; a textarea is always accepted; whatever is accepted is a text control or a contenteditable element |
| InputFilter.IsSafeInput | src/pages/content/utils/inputFilter.ts:32-33 | A null element is never safe; otherwise an element is safe exactly when its kind passes the filter |
| InputFilter.InputAcceptance | src/pages/content/utils/inputFilter.ts:36-49 | An input is accepted if and only if its type is not in the unsafe list and its autocomplete attribute is not exactly a sensitive token (a detail list such as "billing cc-number" passes; a password input never does) |
| InputFilter.NonInputAcceptance | src/pages/content/utils/inputFilter.ts:52-61 | A non-input element is accepted if and only if it is a textarea or contenteditable |
| InputFilter.GetInputText | src/pages/content/utils/inputFilter.ts:67-77 | The value of a text control, the rendered text of a contenteditable element, "" otherwise |
| InputFilter.CaptureSelection | src/pages/content/utils/inputFilter.ts:101-152 | For a text control: null if and only if an offset is null, the offsets are equal, or the slice is blank; otherwise the slice, with offsets and a direction defaulting to none. For contenteditable: null if and only if there is no selection or range, the selection is collapsed, anchor or focus is outside the element, or the text is blank; otherwise the text and the first range. Any other element: null |
| InputFilter.CaptureInputSpan | src/pages/content/utils/inputFilter.ts:102-121 | A captured text-control span is non-empty and lies inside the value, and its text is exactly the value between the recorded offsets |
| InputFilter.CaptureIsWellFormed | src/pages/content/utils/inputFilter.ts:114-148 | Every snapshot taken can be replayed: its start does not lie after its end |
| InputFilter.SelectionInfo.constructor | src/pages/content/utils/inputFilter.ts:93-96 | A `SelectionInfo` object holds the captured text and snapshot |
| InputFilter.GetSelectionInfo | src/pages/content/utils/inputFilter.ts:101-152 | Returns null exactly when nothing is captured, and otherwise a fresh object holding the capture |
| InputFilter.WholeFieldWrite | src/pages/content/utils/inputFilter.ts:157-188 | `setInputText`: the field then reads back as the text. In a text control the caret ends after the text when `insertText` succeeded or the assignment changed the value. When the fallback assigns the value the field already holds, the whole value stays selected, as `select()` left it. The fallback adds exactly one synthetic `input` event. Any other element is left alone |
| InputFilter.WholeFieldWriteKeepsValid | src/pages/content/utils/inputFilter.ts:157-188 | A whole-field write keeps the element valid: its selection offsets stay ordered and inside its value, provided the browser left the element its own node |
| InputFilter.SnapshotWrite | src/pages/content/utils/inputFilter.ts:193-244 | `replaceSelectionText`. It throws exactly when offsets are replayed on an input type without the selection API. A snapshot of the wrong kind changes nothing. An offset write splices the range clamped to the current value, puts the caret after the text and adds one `input` event on fallback. A stale or selection-less range degrades to the whole-field write. A live range splices the clamped range of the region's text, keeps the value and offsets, and adds one `input` event on fallback |
| InputFilter.SnapshotWriteKeepsValid | src/pages/content/utils/inputFilter.ts:203-212 | A snapshot write keeps the element valid whatever the stored offsets are, because they are clamped and never re-checked |
| InputFilter.WholeWriteThenRead | src/pages/content/utils/inputFilter.ts:157-188 | After `setInputText`, `getInputText` returns the written text |
| InputFilter.CaptureThenWriteBackIsIdentity | src/pages/content/utils/inputFilter.ts:203-212 | Writing the captured text back over its own snapshot leaves the value unchanged |
| InputFilter.OffsetWriteThenRead | src/pages/content/utils/inputFilter.ts:203-212 | After an offset write, even with offsets left stale by later edits, the span from the clamped start reads back as the text, and the value outside it is what was outside the clamped recorded span |
| InputFilter.SetInputText | src/pages/content/utils/inputFilter.ts:157-188 | Changes the element in place exactly as `WholeFieldWrite` says, and keeps it valid |
| InputFilter.ReplaceSelectionText | src/pages/content/utils/inputFilter.ts:193-244 | Changes the element in place exactly as `SnapshotWrite` says; when it throws, the element is as it was |
| Storage.StoredOr | src/shared/storage.ts:9 | `result[key] \|\| fallback`: the stored string when it is present and non-empty, the fallback otherwise |
| Storage.LocalStore.GetApiKey | src/shared/storage.ts:7-10 | The stored key when present, "" when absent |
| Storage.LocalStore.GetApiEndpoint | src/shared/storage.ts:22-25 | Never empty; the default endpoint when nothing usable is stored |
| Storage.LocalStore.GetDefaultStyle | src/shared/storage.ts:37-40 | Never empty; "formal" when nothing usable is stored; a stored value is returned unvalidated |
| Storage.LocalStore.SaveApiKey | src/shared/storage.ts:15-17 | Writes the API key entry and nothing else |
| Storage.LocalStore.SaveApiEndpoint | src/shared/storage.ts:30-32 | Writes the endpoint entry and nothing else |
| Storage.LocalStore.SaveDefaultStyle | src/shared/storage.ts:45-47 | Writes the default-style entry and nothing else |
| Storage.LocalStore.GetStorageConfig | src/shared/storage.ts:52-59 | The triple of the three getters' answers |
| Storage.LocalStore.HasApiKey | src/shared/storage.ts:64-67 | True if and only if the stored key holds something other than whitespace |
| Storage.SaveThenGet | src/shared/storage.ts:15-47 | Saving a non-empty value makes its getter return it and leaves the other two getters' answers unchanged |
| Storage.SaveEmptyRestoresDefault | src/shared/storage.ts:7-40 | Saving "" makes each getter fall back to its default |
| Storage.WhitespaceKeyIsStoredButNotConfigured | src/shared/storage.ts:64-67 | A key of spaces is returned by `getApiKey` yet does not count for `hasApiKey` |
| Background.IsPolishError | src/pages/background/index.ts:110-117 | Holds exactly for non-null objects that have both `code` and `message` |
| Background.PolishErrorRecognition | src/pages/background/index.ts:110-117 | The structural test recognises exactly the values `createPolishError` made: never an `Error`, never a primitive |
| Background.GetApiErrorMessage | src/pages/background/index.ts:122-140 | Never empty. 401 gives the invalid-key message, 429 the rate-limit message, and 500/502/503 the service-unavailable message. Any other status gives the parsed non-empty `error.message`, or else "API 错误 (status)" |
| Background.FallbackNamesStatus | src/pages/background/index.ts:135-137 | The fallback message contains digits that read back as the status |
| Background.StatusClassesAreDistinguished | src/pages/background/index.ts:123-131 | 401, 429 and 5xx get three different messages |
| Background.LookupStyle | src/pages/background/index.ts:36 | `POLISH_STYLES[style]` finds an own catalogue entry exactly for the catalogue's names, an inherited `Object.prototype` member exactly for the prototype's names, and `undefined` for everything else |
| Background.CatchPolishFailure | src/pages/background/index.ts:78-93 | An abort becomes `TIMEOUT`, a `PolishError` passes through unchanged, and anything else becomes `NETWORK_ERROR` carrying the error's message or "未知错误"; the result is always a `PolishError` |
| Background.ReadResponse | src/pages/background/index.ts:61-77 | A non-ok status is `API_ERROR` with that status. On a 2xx, the result is the trimmed first content if and only if that content exists and is not blank, otherwise `API_ERROR` with no status. A result is never blank |
| Background.PostChat | src/pages/background/index.ts:40-93 | The request goes to the stored endpoint with `Bearer ` and the stored key; its body holds the model, the token limit, the looked-up system prompt (absent when the lookup found no `systemPrompt`) and the untrimmed text. Every later failure is a `PolishError` classified as in the catch block. A 2xx body that is not JSON fails as `NETWORK_ERROR` carrying the parser's message |
| Background.PolishText | src/pages/background/index.ts:22-94 | A storage failure propagates raw. A missing key gives `NO_API_KEY`, checked before blank text gives `EMPTY_TEXT`. A request goes out if and only if the guards pass and the style is a catalogue entry or a name inherited from `Object.prototype`; it goes to the stored endpoint with the raw key. A catalogue style sends its prompt, an inherited name sends a system message without content, and any other style fails as `NETWORK_ERROR`. The response is classified as above, including the non-JSON 2xx body, and a result is never blank |
| Background.HandlePolishRequest | src/pages/background/index.ts:162-184 | `success` holds if and only if `polishText` succeeded, and then carries its non-empty result. Otherwise it carries the `PolishError` thrown, or `UNKNOWN` |
| Background.MissingKeyBeatsBlankText | src/pages/background/index.ts:28-34 | With no key and blank text, the error is `NO_API_KEY` |
| Background.WhitespaceKeyIsSent | src/pages/background/index.ts:28-45 | The key is not trimmed: a non-empty key of spaces passes the guard, and the request goes to the endpoint with that key as it is in the bearer header |
| Background.StyleLookupOutcomes | src/pages/background/index.ts:36-57 | `commit` fails with `NETWORK_ERROR` before anything is sent; `constructor` sends a system message without content; `concise` sends its own prompt |
| ContentSession.PromptTransitionsKeepInv | src/pages/content/index.tsx:103-165 | Scheduling, updating the prompt and clicking it keep the session invariant |
| ContentSession.ReleaseKeepsInv | src/pages/content/index.tsx:142-153 | `releaseSelectionLock` and `prepareForInputPolish` keep the invariant |
| ContentSession.FocusKeepsInv | src/pages/content/index.tsx:279-285 | The `focusin` handler keeps the invariant |
| ContentSession.TriggerMessageKeepsInv | src/pages/content/index.tsx:318-326 | The trigger message keeps the invariant |
| ContentSession.CloseKeepsInv | src/pages/content/index.tsx:193-200 | `handleClose` keeps the invariant |
| ContentSession.StartPolishKeepsInv | src/pages/content/index.tsx:227-246 | `triggerPolish` keeps the invariant: the original text it stores is never blank |
| ContentSession.RespondKeepsInv | src/pages/content/index.tsx:255-270 | Applying a settled message keeps the invariant |
| ContentSession.ScheduleIsIdempotent | src/pages/content/index.tsx:103-112 | At most one debounce timer is pending: after one scheduling a handle exists, and scheduling again changes nothing |
| ContentSession.PromptShowsOnlyWhenIdle | src/pages/content/index.tsx:114-140 | The prompt shows only on an idle panel with an element, an unlocked selection and a fresh capture; a locked selection is kept |
| ContentSession.TriggerWithoutElementIsInert | src/pages/content/index.tsx:228-231 | With no current element, `triggerPolish` changes nothing and sends nothing |
| ContentSession.BlankTextReportsEmpty | src/pages/content/index.tsx:233-239 | Blank text gives state `error` with `EMPTY_TEXT`. No request is sent, and everything else, the original text included, is kept |
| ContentSession.NonBlankTextStartsLoading | src/pages/content/index.tsx:241-253 | Non-blank text becomes the original text. The panel turns to loading with no result, no error and no prompt. The request carries the untrimmed text and the current style |
| ContentSession.ResponseIsShown | src/pages/content/index.tsx:255-270 | A success with a non-empty result shows that result. Any other response shows its error, or `UNKNOWN`. A thrown send shows `NETWORK_ERROR`. Nothing else changes |
| ContentSession.BackgroundResultIsShown | src/pages/content/index.tsx:255-263 | End to end with the background worker: the panel succeeds if and only if `polishText` succeeded, and shows its result or the error it raised |
| ContentSession.CloseResets | src/pages/content/index.tsx:193-200 | Closing gives an idle, empty panel, targets the input and unlocks the selection; the prompt shows again only for a fresh capture |
| ContentSession.LateResponseReopensPanel | src/pages/content/index.tsx:255-262 | There is no staleness guard: a response that arrives after close reopens the panel with its result and no original text |
| ContentSession.AcceptWritesPolishedText | src/pages/content/index.tsx:179-188 | Accept writes if and only if there is an element and a non-empty polished text. It replays the snapshot if and only if the selection is the locked target, and otherwise writes the whole field. A successful panel always writes |
| ContentSession.RetryResendsStoredText | src/pages/content/index.tsx:205-209 | Retry re-sends the stored original text without reading the field again, and does nothing when none is stored |
| ContentSession.StyleChangeResends | src/pages/content/index.tsx:214-222 | The style is always recorded. The stored text is re-sent with the new style exactly when one is stored and no request is loading |
| ContentSession.PromptContinuationGuard | src/pages/content/index.tsx:166-173 | The deferred polish runs only while the target is the selection and the current selection object is the very one captured. Preparing for input polish or closing makes it a no-op |
| ContentSession.PromptClickLocksCapture | src/pages/content/index.tsx:155-173 | Clicking the prompt locks the captured selection, and its continuation then sends that selection's text with the loaded style |
| ContentSession.Session.constructor | src/pages/content/index.tsx:36-45 | The initial values of the module-level variables, which satisfy the invariant |
| ContentSession.Session.ScheduleSelectionPromptUpdate | src/pages/content/index.tsx:103-112 | Arms the timer unless one is pending |
| ContentSession.Session.UpdateSelectionPrompt | src/pages/content/index.tsx:114-140 | Moves the state as `UpdatePrompt` says; when the selection is consulted, the stored object is the fresh result of `getSelectionInfo` |
| ContentSession.Session.OnSelectionTimerFired | src/pages/content/index.tsx:108-111 | Clears the handle, consumes the pending timer, then updates the prompt |
| ContentSession.Session.ReleaseSelectionLock | src/pages/content/index.tsx:142-145 | Unlocks and targets the input |
| ContentSession.Session.PrepareForInputPolish | src/pages/content/index.tsx:147-153 | Targets the input, unlocks, drops the selection and hides the prompt |
| ContentSession.Session.OnFocusIn | src/pages/content/index.tsx:279-285 | A safe target becomes the current element and schedules an update |
| ContentSession.Session.OnTriggerMessage | src/pages/content/index.tsx:318-334 | A safe active element replaces the current one. With an element, the session prepares for input polish and schedules exactly one style-load continuation |
| ContentSession.Session.TriggerPolish | src/pages/content/index.tsx:227-253 | Moves the state as `StartPolish` says on the override or the field's text, and records the request it sends |
| ContentSession.Session.PolishWith | src/pages/content/index.tsx:234-253 | Moves the state as `StartPolish` says for a given text, and records the request it sends |
| ContentSession.Session.ReportEmptyText | src/pages/content/index.tsx:234-238 | Shows the `EMPTY_TEXT` error and changes nothing else |
| ContentSession.Session.BeginLoading | src/pages/content/index.tsx:241-246 | Stores the text, clears result and error, hides the prompt, and shows loading |
| ContentSession.Session.OnTriggerStyleLoaded | src/pages/content/index.tsx:328-331 | Consumes one pending trigger continuation, records the loaded style, then polishes the field |
| ContentSession.Session.OnResponse | src/pages/content/index.tsx:255-270 | Applies the settled message as `Respond` says, whatever happened since it was sent |
| ContentSession.Session.HandleSelectionPrompt | src/pages/content/index.tsx:155-165 | Locks the captured selection, and schedules one continuation remembering that very object |
| ContentSession.Session.OnPromptStyleLoaded | src/pages/content/index.tsx:166-173 | Consumes its continuation and acts as `PromptStyleLoaded` says |
| ContentSession.Session.HandleClose | src/pages/content/index.tsx:193-200 | Moves the state as `Close` says, and re-captures the selection when it is consulted |
| ContentSession.Session.HandleAccept | src/pages/content/index.tsx:179-188 | Writes into the current element exactly as `AcceptPlan` directs, then closes. When the offset replay throws, the panel state is left as it was |
| ContentSession.Session.HandleRetry | src/pages/content/index.tsx:205-209 | Moves the state as `Retry` says, and records the request it sends |
| ContentSession.Session.HandleStyleChange | src/pages/content/index.tsx:214-222 | Moves the state as `StyleChange` says, and records the request it sends |
| MacPolishService.PresetsAreDistinct | macos/Sources/PolishMacApp/PolishService.swift:8-12 | There are exactly three presets, formal, concise and commit, with distinct ids |
| MacPolishService.ClassifyExchange | macos/Sources/PolishMacApp/PolishService.swift:50-65 | A transport error propagates, and a non-HTTP response is code 4. A status outside 200..<300 is that status as the code, with "请求失败：" and the decimal status in the description. A decode error propagates. The trimmed first content is returned if and only if it exists and is not blank, otherwise code 5 |
| MacPolishService.Polish | macos/Sources/PolishMacApp/PolishService.swift:20-66 | Checked in order: blank text is code 1, a blank key code 2, an unparsable endpoint code 3. A request is sent if and only if all three pass. It goes to the endpoint with "Bearer " and the raw key, and its payload is the model, 600 tokens, the system prompt and the trimmed text. A result is never blank |
| MacPolishService.URLRequest.constructor | macos/Sources/PolishMacApp/PolishService.swift:33 | A request for the URL, with method GET, no headers and no body |
| MacPolishService.URLRequest.SetValue | macos/Sources/PolishMacApp/PolishService.swift:35-36 | Sets one header field and leaves the rest |
| MacPolishService.BuildRequest | macos/Sources/PolishMacApp/PolishService.swift:33-48 | A fresh POST request with exactly the two headers and the payload as body |
| MacPolishService.SentRequestHeaders | macos/Sources/PolishMacApp/PolishService.swift:35-36 | The headers of a sent request are the content type and the bearer header of its key |
| MacPolishService.BlankTextBeatsMissingKey | macos/Sources/PolishMacApp/PolishService.swift:21-27 | Blank text is reported even when the key is missing too |
| MacPolishService.BlankKeyIsMissing | macos/Sources/PolishMacApp/PolishService.swift:25-27 | The key is checked trimmed: a key of whitespace fails with code 2 |
| MacPolishService.PaddedKeyIsSentRaw | macos/Sources/PolishMacApp/PolishService.swift:25-36 | A key with surrounding whitespace passes the check and is sent with that whitespace, not trimmed |
| MacPolishService.StatusBecomesErrorCode | macos/Sources/PolishMacApp/PolishService.swift:55-58 | A failing status becomes the error code, and the description after the prefix reads back as that status |
| MacSettings.UserDefaults.StringFor | macos/Sources/PolishMacApp/SettingsView.swift:19-21 | `string(forKey:)` is the stored string, and nil exactly when none is stored |
| MacSettings.UserDefaults.Set | macos/Sources/PolishMacApp/SettingsView.swift:5 | Writes that key and no other |
| MacSettings.LoadSettings | macos/Sources/PolishMacApp/SettingsView.swift:18-22 | Each field is the stored string when there is one, the empty string included. Otherwise the defaults apply: "", the OpenAI endpoint and "formal" |
| MacSettings.FirstWithId | macos/Sources/PolishMacApp/SettingsView.swift:15 | `first(where:)`: the first index with the id, or none if no element has it |
| MacSettings.StyleForId | macos/Sources/PolishMacApp/SettingsView.swift:14-16 | Always a preset. It has the id when some preset does, and is the first preset otherwise |
| MacSettings.StyleLookupByPresetId | macos/Sources/PolishMacApp/SettingsView.swift:14-16 | formal, concise and commit find their own presets; any other id, such as the extension's "casual", finds formal |
| MacSettings.SettingsViewModel.constructor | macos/Sources/PolishMacApp/SettingsView.swift:18-22 | The fields are the loaded settings, and nothing is written back |
| MacSettings.SettingsViewModel.SelectedStyle | macos/Sources/PolishMacApp/SettingsView.swift:14-16 | Always a preset: the one with the selected id whenever a preset has it, the first preset otherwise |
| MacSettings.SettingsViewModel.SetApiKey | macos/Sources/PolishMacApp/SettingsView.swift:4-6 | Sets the field and writes it to "apiKey" only |
| MacSettings.SettingsViewModel.SetEndpoint | macos/Sources/PolishMacApp/SettingsView.swift:7-9 | Sets the field and writes it to "endpoint" only |
| MacSettings.SettingsViewModel.SetSelectedStyleId | macos/Sources/PolishMacApp/SettingsView.swift:10-12 | Sets the field and writes it to "styleID" only |
| MacSettings.SetThenLoad | macos/Sources/PolishMacApp/SettingsView.swift:4-22 | After one field is written, loading gives the value written and the other two fields as before |
| MacSettings.StoredEmptyIsKept | macos/Sources/PolishMacApp/SettingsView.swift:18-22 | Stored empty strings survive loading (`??` replaces only nil), and the empty style id falls back to formal |
| MacApp.Utf16Units | macos/Sources/PolishMacApp/AppDelegate.swift:106 | A Basic Multilingual Plane character is its own single unit; any other character is a high surrogate then a low surrogate, which decode back to it |
| MacApp.Utf16 | macos/Sources/PolishMacApp/AppDelegate.swift:106 | `utf16` has one unit per character plus one per character above the Basic Multilingual Plane; a string inside that plane yields its own code points, in order |
| MacApp.BytesPack | macos/Sources/PolishMacApp/AppDelegate.swift:104-107 | Folding byte-sized units with a truncating shift and a trapping add gives their base-256 value reduced to 32 bits, and never traps |
| MacApp.FourBytesPack | macos/Sources/PolishMacApp/AppDelegate.swift:104-107 | Four byte-sized units give u0·2^24 + u1·2^16 + u2·2^8 + u3 |
| MacApp.PoliSignature | macos/Sources/PolishMacApp/AppDelegate.swift:80 | "POLI" packs to 0x504F4C49 |
| MacApp.WideUnitCanTrap | macos/Sources/PolishMacApp/AppDelegate.swift:106 | The addition is checked: a unit wider than a byte can overflow it, and the fold traps |
| MacApp.PolishShortcut | macos/Sources/PolishMacApp/AppDelegate.swift:84-101 | No polish call is made if and only if the selection is nil or empty, and then the no-selection error shows. Otherwise `polish` gets the selection, the key, the endpoint and the selected style's prompt. A success shows the selection as original and a non-blank result; a failure shows its localized description |
| MacApp.WhitespaceSelectionReachesService | macos/Sources/PolishMacApp/AppDelegate.swift:87-93 | The shortcut's guard is not trimmed: a selection of spaces reaches the service, and its code-1 message shows |
| MacApp.ReplaceCurrentSelection | macos/Sources/PolishMacApp/AccessibilityTextService.swift:19-22 | Sets the selected text of the element focused at that moment; without one, nothing happens |
| MacApp.AppDelegate.constructor | macos/Sources/PolishMacApp/AppDelegate.swift:5-10 | No hot-key references, no registration, no panel |
| MacApp.AppDelegate.RegisterHotKey | macos/Sources/PolishMacApp/AppDelegate.swift:52-82 | Stores the handler and hot-key references, and registers ⌘P (P key 0x23, command only) with id 1 and signature 0x504F4C49 |
| MacApp.AppDelegate.ApplicationWillTerminate | macos/Sources/PolishMacApp/AppDelegate.swift:19-26 | Releases the hot key and the handler, each only if it exists |
| MacApp.AppDelegate.OnHotKeyEvent | macos/Sources/PolishMacApp/AppDelegate.swift:55-74 | Only hot-key id 1 runs the ⌘P flow, which shows what `PolishShortcut` says for the current settings; any other id changes nothing |
| MacApp.AppDelegate.Apply | macos/Sources/PolishMacApp/AppDelegate.swift:94-96 | The shown result replaces the selection of whatever element has the focus when Apply is pressed. The panel's window then closes (`PolishPanelController.swift`, lines 9-11), and the hot-key state is unchanged |

## Left out

- Rendering is left out because it is layout and DOM work, not logic: `renderPanel`, `initShadowContainer`, `getElementPosition`, the React root, `FloatingPanel.tsx`, `FloatingPanelStyles.ts`, `Popup.tsx` and `Options.tsx`. The SwiftUI views, `PolishPanelController.swift` and `PolishMacApp.swift` are left out for the same reason.
- Chrome plumbing is left out because it is I/O. This covers the listener registrations and their `message.type` filters, `sendResponse({ received: true })`, context menus, commands and tab queries. `OnTriggerMessage` is the trigger message's effect on the session.
- `fetch`, `AbortController` and the 15 s timer are left out. The network outcome is a parameter; an expired timer appears as a thrown `AbortError`.
- The sampling temperature, a floating-point constant, is left out of both request payloads.
- `document.execCommand('insertText')` is a boolean parameter. Its undo-stack behaviour and the element's `focus()`/`select()` are not modelled. The document selection left after a write is not modelled either.
- `innerText` and `textContent` are merged into one rendered-text field. The `\|\| ''` chain of `getInputText` reduces to reading that field.
- A DOM `Range` is abstracted to its common ancestor and two offsets into the region's rendered text. Live range tracking across mutations is not modelled.
- The only DOM exception modelled is `InvalidStateError` from `setSelectionRange` on an input type without the selection API. `IndexSizeError` cannot arise because a snapshot's start never lies after its end.
- The `focusout`, `selectionchange`, `mouseup` and `keyup` listeners (`src/pages/content/index.tsx`, lines 287-310) only call `scheduleSelectionPromptUpdate`, so they are that method, `ContentSession.Session.ScheduleSelectionPromptUpdate`.
- The 60 ms debounce, the 100 ms `focusout` delay and promise interleavings are discrete events, not time. A rejected `getDefaultStyle()` is not modelled: its continuation is never delivered.
- Text.Slice and Text.SpliceRange, and the element state of `InputFilter`: strings are sequences of Unicode scalar values, while the DOM counts `selectionStart`, `selectionEnd`, `slice` and `setRangeText` offsets in UTF-16 code units. Offsets that fall between the two halves of a surrogate pair have no counterpart in the model, nor do the lone surrogates a stale replay can leave behind.
- `AccessibilityTextService.currentSelectedText` and `focusedUIElement` are foreign AX calls. Their answers are the `selected` and `focused` parameters.
- Carbon is foreign: `InstallEventHandler`, `GetEventParameter`, `RegisterEventHotKey`, `UnregisterEventHotKey` and `RemoveEventHandler`. The references they return are parameters. The ghost sequences `unregisteredHotKeys` and `removedHandlers` record the release calls.
- `MacApp.AppDelegate.Apply` writes the polished text as shown. Edits the user makes in the panel's editor before pressing Apply are not modelled.
- The `Task { @MainActor }` interleaving in `handlePolishShortcut` is not modelled: the settings are read once, when the shortcut runs. `applicationDidFinishLaunching`, the status item, the settings window and the accessibility permission prompt are UI or system calls and are left out.
- `JSONEncoder().encode` of the payload is assumed to succeed. `String(data:encoding:)` is an optional parameter of the exchange.
- `UserDefaults` is reduced to its string entries, and `chrome.storage.local` to string entries too. Values of other types are not modelled, and a storage rejection appears only as the `settings` error of `Background.PolishText`.
