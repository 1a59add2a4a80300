/**
 * The content script's floating-panel session: module-level state that the
 * page's events change one handler at a time (focus, selection changes and
 * their debounce timer, the trigger message from the background worker, the
 * panel's buttons, and the settling of a polish request).
 *
 * Each asynchronous continuation is an event of its own: the
 * `getDefaultStyle()` continuation after a trigger message, the one after the
 * selection prompt is clicked, the debounce timer, and the settling of
 * `chrome.runtime.sendMessage`. The `Session` class keeps ghost counts of the
 * continuations that are still pending, so a continuation can only be
 * delivered after the event that scheduled it.
 *
 * Every transition is first a function on a `SessionState` value; the
 * handlers of `Session` are proved to move the object's fields exactly as
 * those functions say.
 */
module ContentSession {
  import opened Wrappers
  import opened Text
  import opened SharedTypes
  import opened InputFilter
  import Background

  /** `PolishTarget`: whether the panel works on the whole field or on the
      captured selection. */
  datatype PolishTarget = InputTarget | SelectionTarget

  /** How `chrome.runtime.sendMessage` settled: with a response, or by
      throwing (with the `message` of an `Error`, `None` for anything else). */
  datatype SendOutcome = Delivered(response: PolishResponse) | SendThrew(errorMessage: Option<string>)

  const EmptyTextError: PolishError := PolishError(EmptyText, "请先输入文本", None)
  const UnknownError: PolishError := PolishError(Unknown, "未知错误", None)
  const CommunicationErrorPrefix: string := "通信错误: "

  /** The module-level variables of the content script. */
  datatype SessionState = SessionState(
    element: Element?,
    panelState: PanelState,
    originalText: string,
    polishedText: string,
    currentError: Option<PolishError>,
    currentStyle: string,
    target: PolishTarget,
    selectionInfo: SelectionInfo?,
    promptVisible: bool,
    selectionLocked: bool,
    updateHandle: Option<nat>)

  /** A selection object that can be replayed and that holds text. */
  ghost predicate Replayable(info: SelectionInfo?) {
    info != null ==> info.snapshot.WellFormed() && !AllSpace(Js, info.text)
  }

  /** What every handler keeps true of the session. */
  ghost predicate Inv(st: SessionState) {
    && (st.target == SelectionTarget <==> st.selectionLocked)
    && Replayable(st.selectionInfo)
    && (st.panelState == Idle ==> st.originalText == "" && st.polishedText == "" && st.currentError.None?)
    && (st.panelState == Loading ==> st.originalText != "" && st.polishedText == "" && st.currentError.None?)
    && (st.panelState == Success ==> st.polishedText != "")
    && (st.panelState == Error ==> st.currentError.Some?)
    && (st.originalText != "" ==> !AllSpace(Js, st.originalText))
  }

  // ---- transitions ----

  /** `scheduleSelectionPromptUpdate`: arms the debounce timer unless one is
      already pending. */
  function ScheduleUpdate(st: SessionState, timerId: nat): SessionState {
    if st.updateHandle.Some? then st else st.(updateHandle := Some(timerId))
  }

  /** Whether `updateSelectionPrompt` consults `getSelectionInfo`. */
  predicate ConsultsSelection(st: SessionState) {
    st.panelState == Idle && st.element != null && !st.selectionLocked
  }

  /** `updateSelectionPrompt`; `captured` is what `getSelectionInfo` returned
      for the current element, and is ignored when it is not consulted. A
      locked selection is kept; otherwise the prompt shows exactly when
      something was captured. */
  function UpdatePrompt(st: SessionState, captured: SelectionInfo?): SessionState {
    if st.panelState != Idle then st.(promptVisible := false)
    else if st.element == null || st.selectionLocked then
      st.(selectionInfo := if st.selectionLocked then st.selectionInfo else null, promptVisible := false)
    else if captured != null then st.(selectionInfo := captured, promptVisible := true)
    else st.(selectionInfo := null, promptVisible := false)
  }

  /** `releaseSelectionLock`. */
  function ReleaseLock(st: SessionState): SessionState {
    st.(selectionLocked := false, target := InputTarget)
  }

  /** `prepareForInputPolish`. */
  function PrepareInput(st: SessionState): SessionState {
    st.(target := InputTarget, selectionLocked := false, selectionInfo := null, promptVisible := false)
  }

  /** The `focusin` listener: a safe target becomes the current element. */
  function FocusIn(st: SessionState, target: Element?, timerId: nat): SessionState {
    if IsSafeInput(target) then ScheduleUpdate(st.(element := target), timerId) else st
  }

  /** The `TRIGGER_POLISH` listener, up to the `getDefaultStyle()` call: the
      focused element replaces the current one when it is safe. */
  function TriggerMessage(st: SessionState, active: Element?): SessionState {
    var element := if IsSafeInput(active) then active else st.element;
    if element != null then PrepareInput(st.(element := element)) else st
  }

  /** The state a synchronous step leaves and the request it sends, if any. */
  datatype Started = Started(state: SessionState, request: Option<PolishRequest>)

  function Sent(request: Option<PolishRequest>): seq<PolishRequest> {
    if request.Some? then [request.value] else []
  }

  /** `triggerPolish` up to its `await`, given the text it works on (the
      override, or the current element's text). */
  function StartPolish(st: SessionState, text: string): Started {
    if st.element == null then Started(st, None)
    else if AllSpace(Js, text) then
      Started(st.(panelState := Error, currentError := Some(EmptyTextError)), None)
    else
      Started(st.(originalText := text, panelState := Loading, currentError := None,
                  polishedText := "", promptVisible := false),
              Some(PolishRequest(text, st.currentStyle)))
  }

  /** The rest of `triggerPolish`: the settled message is applied whatever
      has happened since it was sent. */
  function Respond(st: SessionState, outcome: SendOutcome): SessionState {
    match outcome
    case Delivered(response) =>
      if response.success && response.result.Some? && response.result.value != "" then
        st.(panelState := Success, polishedText := response.result.value)
      else
        st.(panelState := Error, currentError := Some(response.error.GetOr(UnknownError)))
    case SendThrew(message) =>
      st.(panelState := Error,
          currentError := Some(PolishError(NetworkError, CommunicationErrorPrefix + message.GetOr(UnknownError.message), None)))
  }

  /** `handleClose` before its call to `updateSelectionPrompt`. */
  function Closed(st: SessionState): SessionState {
    ReleaseLock(st.(panelState := Idle, originalText := "", polishedText := "", currentError := None))
  }

  /** `handleClose`. */
  function Close(st: SessionState, captured: SelectionInfo?): SessionState {
    UpdatePrompt(Closed(st), captured)
  }

  /** What `handleAccept` writes into the current element. */
  datatype AcceptWrite = NoWrite | WriteWhole(text: string) | WriteSnapshot(snapshot: Snapshot, text: string)

  function AcceptPlan(st: SessionState): AcceptWrite {
    if st.element != null && st.polishedText != "" then
      if st.target == SelectionTarget && st.selectionInfo != null then
        WriteSnapshot(st.selectionInfo.snapshot, st.polishedText)
      else WriteWhole(st.polishedText)
    else NoWrite
  }

  /** `handleRetry`: polishes the stored original text again. */
  function Retry(st: SessionState): Started {
    if st.originalText != "" then StartPolish(st, st.originalText) else Started(st, None)
  }

  /** `handleStyleChange`: records the style, and polishes the stored text
      again unless a request is in flight. */
  function StyleChange(st: SessionState, style: string): Started {
    var st1 := st.(currentStyle := style);
    if st1.originalText != "" && st1.panelState != Loading then StartPolish(st1, st1.originalText)
    else Started(st1, None)
  }

  /** `handleSelectionPrompt` before its `getDefaultStyle()` call: locks the
      captured selection as the target. */
  function SelectionPrompt(st: SessionState): SessionState {
    if st.element == null || st.selectionInfo == null then st
    else st.(target := SelectionTarget, selectionLocked := true, promptVisible := false)
  }

  /** The continuation of `handleSelectionPrompt`: it goes ahead only when
      the target is still the selection and the current selection object is
      the very one captured when the prompt was clicked. */
  function PromptStyleLoaded(st: SessionState, captured: SelectionInfo, style: string): Started {
    if st.target != SelectionTarget || st.selectionInfo != captured then Started(st, None)
    else StartPolish(st.(currentStyle := style), captured.text)
  }

  // ---- properties of the transitions ----

  /** The selection-tracking transitions keep the invariant. */
  lemma PromptTransitionsKeepInv(st: SessionState, captured: SelectionInfo?, timerId: nat)
    requires Inv(st) && Replayable(captured)
    ensures Inv(ScheduleUpdate(st, timerId))
    ensures Inv(UpdatePrompt(st, captured))
    ensures Inv(SelectionPrompt(st))
  {
  }

  /** Returning to the whole field keeps the invariant. */
  lemma ReleaseKeepsInv(st: SessionState)
    requires Inv(st)
    ensures Inv(ReleaseLock(st)) && Inv(PrepareInput(st))
  {
  }

  /** Following the focus keeps the invariant. */
  lemma FocusKeepsInv(st: SessionState, target: Element?, timerId: nat)
    requires Inv(st)
    ensures Inv(FocusIn(st, target, timerId))
  {
  }

  /** Receiving the trigger message keeps the invariant. */
  lemma TriggerMessageKeepsInv(st: SessionState, active: Element?)
    requires Inv(st)
    ensures Inv(TriggerMessage(st, active))
  {
  }

  /** Closing the panel keeps the invariant. */
  lemma CloseKeepsInv(st: SessionState, captured: SelectionInfo?)
    requires Inv(st) && Replayable(captured)
    ensures Inv(Close(st, captured))
  {
  }

  /** Starting a polish keeps the invariant: the original text it stores is
      never blank. */
  lemma StartPolishKeepsInv(st: SessionState, text: string)
    requires Inv(st)
    ensures Inv(StartPolish(st, text).state)
  {
  }

  /** The settling of a message keeps the invariant. */
  lemma RespondKeepsInv(st: SessionState, outcome: SendOutcome)
    requires Inv(st)
    ensures Inv(Respond(st, outcome))
  {
  }

  /** At most one debounce timer is pending: scheduling again while one is
      armed changes nothing. */
  lemma ScheduleIsIdempotent(st: SessionState, first: nat, second: nat)
    ensures ScheduleUpdate(st, first).updateHandle.Some?
    ensures ScheduleUpdate(ScheduleUpdate(st, first), second) == ScheduleUpdate(st, first)
  {
  }

  /** The selection prompt shows only on an idle panel with an unlocked
      selection that was just captured. */
  lemma PromptShowsOnlyWhenIdle(st: SessionState, captured: SelectionInfo?)
    ensures UpdatePrompt(st, captured).promptVisible ==>
      st.panelState == Idle && st.element != null && !st.selectionLocked
      && captured != null && UpdatePrompt(st, captured).selectionInfo == captured
    ensures st.selectionLocked ==> UpdatePrompt(st, captured).selectionInfo == st.selectionInfo
  {
  }

  /** Without a current element, `triggerPolish` changes nothing and sends
      nothing. */
  lemma TriggerWithoutElementIsInert(st: SessionState, text: string)
    requires st.element == null
    ensures StartPolish(st, text) == Started(st, None)
  {
  }

  /** Whitespace-only text reports `EMPTY_TEXT`, sends no request, and keeps
      the original text, the polished text and the selection state. */
  lemma BlankTextReportsEmpty(st: SessionState, text: string)
    requires st.element != null && IsBlank(Js, text)
    ensures var s := StartPolish(st, text);
      && s.request.None?
      && s.state.panelState == Error && s.state.currentError == Some(EmptyTextError)
      && s.state == st.(panelState := s.state.panelState, currentError := s.state.currentError)
  {
    AllSpaceIffBlank(Js, text);
  }

  /** Text with something other than whitespace becomes the original text,
      the panel turns to loading with no result, error or prompt, and the
      request carries that text untrimmed with the current style. */
  lemma NonBlankTextStartsLoading(st: SessionState, text: string)
    requires st.element != null && !IsBlank(Js, text)
    ensures var s := StartPolish(st, text);
      && s.request == Some(PolishRequest(text, st.currentStyle))
      && s.state.panelState == Loading && s.state.originalText == text
      && s.state.polishedText == "" && s.state.currentError.None? && !s.state.promptVisible
      && s.state.element == st.element && s.state.target == st.target
      && s.state.selectionInfo == st.selectionInfo && s.state.currentStyle == st.currentStyle
  {
    AllSpaceIffBlank(Js, text);
  }

  /** How a settled message shows: success with a non-empty result shows the
      result; any other response shows its error, or `UNKNOWN`; a throw
      shows `NETWORK_ERROR`. Nothing but the panel state and the result or
      error changes. */
  lemma ResponseIsShown(st: SessionState, outcome: SendOutcome)
    ensures var r := Respond(st, outcome);
      && (r.panelState == Success <==>
            outcome.Delivered? && outcome.response.success
            && outcome.response.result.Some? && outcome.response.result.value != "")
      && (r.panelState == Success ==> Some(r.polishedText) == outcome.response.result)
      && (r.panelState != Success ==> r.panelState == Error && r.polishedText == st.polishedText)
      && (outcome.Delivered? && r.panelState == Error ==>
            r.currentError == Some(if outcome.response.error.Some? then outcome.response.error.value else UnknownError))
      && (outcome.SendThrew? ==> r.currentError.Some? && r.currentError.value.code == NetworkError)
      && (outcome.SendThrew? && outcome.errorMessage.Some? ==>
            r.currentError.value.message == CommunicationErrorPrefix + outcome.errorMessage.value)
      && r.originalText == st.originalText && r.element == st.element && r.target == st.target
      && r.selectionInfo == st.selectionInfo && r.selectionLocked == st.selectionLocked
  {
  }

  /** End to end with the background worker: the panel shows the polished
      text exactly when `polishText` succeeded, and otherwise the error it
      raised (or `UNKNOWN` for a throw that is not a `PolishError`). */
  lemma BackgroundResultIsShown(st: SessionState, request: PolishRequest,
                                settings: Result<(string, string), Background.Thrown>,
                                fetch: Background.FetchOutcome)
    ensures var call := Background.PolishText(request.text, request.style, settings, fetch);
      var r := Respond(st, Delivered(Background.HandlePolishRequest(request, settings, fetch)));
      && (r.panelState == Success <==> call.result.Ok?)
      && (call.result.Ok? ==> r.polishedText == call.result.value)
      && (call.result.Err? && call.result.error.PolishErrorValue? ==> r.currentError == Some(call.result.error.err))
      && (call.result.Err? && !call.result.error.PolishErrorValue? ==> r.currentError == Some(UnknownError))
  {
  }

  /** `handleClose` empties the panel and releases the selection; the
      prompt then shows again only for a fresh capture. */
  lemma CloseResets(st: SessionState, captured: SelectionInfo?)
    ensures var c := Close(st, captured);
      && c.panelState == Idle && c.originalText == "" && c.polishedText == "" && c.currentError.None?
      && c.target == InputTarget && !c.selectionLocked
      && c.element == st.element && c.currentStyle == st.currentStyle
      && (c.promptVisible <==> st.element != null && captured != null)
      && c.selectionInfo == (if st.element != null then captured else null)
  {
  }

  /** No staleness guard: a response that settles after the panel was closed
      is still applied, and reopens the panel with a result whose original
      text is gone. */
  lemma LateResponseReopensPanel(st: SessionState, captured: SelectionInfo?, result: string)
    requires result != ""
    ensures Close(st, captured).panelState == Idle
    ensures var r := Respond(Close(st, captured), Delivered(PolishResponse(true, Some(result), None)));
      r.panelState == Success && r.polishedText == result && r.originalText == ""
  {
  }

  /** `handleAccept` writes only when there is an element and a non-empty
      polished text; it replays the snapshot when the target is the captured
      selection, and writes the whole field otherwise. A successful panel
      always has something to write. */
  lemma AcceptWritesPolishedText(st: SessionState)
    requires Inv(st)
    ensures AcceptPlan(st).NoWrite? <==> st.element == null || st.polishedText == ""
    ensures AcceptPlan(st).WriteSnapshot? <==>
      st.element != null && st.polishedText != "" && st.selectionLocked && st.selectionInfo != null
    ensures AcceptPlan(st).WriteSnapshot? ==>
      AcceptPlan(st).snapshot == st.selectionInfo.snapshot && AcceptPlan(st).snapshot.WellFormed()
    ensures !AcceptPlan(st).NoWrite? ==> AcceptPlan(st).text == st.polishedText
    ensures st.panelState == Success && st.element != null ==> !AcceptPlan(st).NoWrite?
  {
  }

  /** Retry re-sends the stored original text, without reading the field
      again; with nothing stored it does nothing. */
  lemma RetryResendsStoredText(st: SessionState)
    requires Inv(st) && st.element != null
    ensures st.originalText != "" ==>
      && Retry(st).request == Some(PolishRequest(st.originalText, st.currentStyle))
      && Retry(st).state.panelState == Loading && Retry(st).state.originalText == st.originalText
    ensures st.originalText == "" ==> Retry(st) == Started(st, None)
  {
  }

  /** A style change always records the style; it re-sends the stored text
      with the new style only when there is one and no request is in
      flight. */
  lemma StyleChangeResends(st: SessionState, style: string)
    requires Inv(st) && st.element != null
    ensures StyleChange(st, style).state.currentStyle == style
    ensures st.panelState == Loading || st.originalText == "" ==>
      StyleChange(st, style) == Started(st.(currentStyle := style), None)
    ensures st.panelState != Loading && st.originalText != "" ==>
      StyleChange(st, style).request == Some(PolishRequest(st.originalText, style))
  {
  }

  /** The deferred selection polish goes ahead only for the very selection
      object that was captured while the target is still the selection; then
      it sends that selection's text with the loaded style. Returning to the
      whole field (a trigger or a close) makes a pending continuation a
      no-op. */
  lemma PromptContinuationGuard(st: SessionState, captured: SelectionInfo, style: string,
                                newer: SelectionInfo?)
    requires Inv(st)
    ensures st.target != SelectionTarget || st.selectionInfo != captured ==>
      PromptStyleLoaded(st, captured, style) == Started(st, None)
    ensures st.element != null && st.target == SelectionTarget && st.selectionInfo == captured ==>
      PromptStyleLoaded(st, captured, style).request == Some(PolishRequest(captured.text, style))
    ensures PromptStyleLoaded(PrepareInput(st), captured, style).request.None?
    ensures PromptStyleLoaded(Close(st, newer), captured, style).request.None?
  {
  }

  /** Clicking the prompt locks the captured selection as the target; the
      continuation it schedules then finds that same object in place. */
  lemma PromptClickLocksCapture(st: SessionState, style: string)
    requires Inv(st) && st.element != null && st.selectionInfo != null
    ensures SelectionPrompt(st).target == SelectionTarget && SelectionPrompt(st).selectionLocked
    ensures SelectionPrompt(st).selectionInfo == st.selectionInfo
    ensures PromptStyleLoaded(SelectionPrompt(st), st.selectionInfo, style).request ==
      Some(PolishRequest(st.selectionInfo.text, style))
  {
  }

  /** The selection object `getSelectionInfo` returned for `e`. */
  ghost predicate Captures(info: SelectionInfo?, e: Element?, sel: Option<DocSelection>)
    reads e
  {
    && e != null
    && (info == null <==> CaptureSelection(e.kind, e.State(), sel).None?)
    && (info != null ==> CaptureSelection(e.kind, e.State(), sel) == Some(Capture(info.text, info.snapshot)))
  }

  /** A document selection the DOM can produce. */
  predicate SelectionOk(sel: Option<DocSelection>) {
    sel.Some? ==> sel.value.Valid()
  }

  class Session {
    var currentInputElement: Element?
    var panelState: PanelState
    var originalText: string
    var polishedText: string
    var currentError: Option<PolishError>
    var currentStyle: string
    var currentPolishTarget: PolishTarget
    var currentSelectionInfo: SelectionInfo?
    var isSelectionPromptVisible: bool
    var isSelectionLocked: bool
    var selectionUpdateHandle: Option<nat>

    /** Debounce timers armed and not yet fired. */
    ghost var pendingTimers: nat
    /** `getDefaultStyle()` continuations of trigger messages. */
    ghost var pendingTriggerLoads: nat
    /** `getDefaultStyle()` continuations of prompt clicks, with the selection
        object each one captured. */
    ghost var pendingPromptLoads: multiset<SelectionInfo>
    /** Every `POLISH_REQUEST` sent, in order. */
    ghost var sentRequests: seq<PolishRequest>
    /** Messages sent whose settling has not been delivered. */
    ghost var awaitingResponses: nat

    function State(): SessionState
      reads this
    {
      SessionState(currentInputElement, panelState, originalText, polishedText, currentError,
                   currentStyle, currentPolishTarget, currentSelectionInfo, isSelectionPromptVisible,
                   isSelectionLocked, selectionUpdateHandle)
    }

    /** The pending continuations and the messages sent are as they were. */
    twostate predicate SamePending()
      reads this
    {
      && pendingTriggerLoads == old(pendingTriggerLoads)
      && pendingPromptLoads == old(pendingPromptLoads)
      && sentRequests == old(sentRequests)
      && awaitingResponses == old(awaitingResponses)
    }

    ghost predicate Valid()
      reads this
    {
      && Inv(State())
      && pendingTimers == (if selectionUpdateHandle.Some? then 1 else 0)
      && (panelState == Loading ==> awaitingResponses > 0)
    }

    /** The DOM keeps the current element valid. */
    ghost predicate ElementValid()
      reads this, currentInputElement
    {
      currentInputElement != null ==> currentInputElement.Valid()
    }

    /** The text `triggerPolish` works on: the override, or the current
        element's text. */
    function InputTextOr(textOverride: Option<string>): string
      reads this, currentInputElement
    {
      if textOverride.Some? then textOverride.value
      else if currentInputElement == null then ""
      else GetInputText(currentInputElement.kind, currentInputElement.State())
    }

    /** The initial values of the module-level variables. */
    constructor ()
      ensures Valid()
      ensures State() == SessionState(null, Idle, "", "", None, DefaultStyle, InputTarget, null, false, false, None)
      ensures pendingTimers == 0 && pendingTriggerLoads == 0 && pendingPromptLoads == multiset{}
      ensures sentRequests == [] && awaitingResponses == 0
    {
      currentInputElement := null;
      panelState := Idle;
      originalText := "";
      polishedText := "";
      currentError := None;
      currentStyle := DefaultStyle;
      currentPolishTarget := InputTarget;
      currentSelectionInfo := null;
      isSelectionPromptVisible := false;
      isSelectionLocked := false;
      selectionUpdateHandle := None;
      pendingTimers := 0;
      pendingTriggerLoads := 0;
      pendingPromptLoads := multiset{};
      sentRequests := [];
      awaitingResponses := 0;
    }

    /** `scheduleSelectionPromptUpdate`, the handler of `selectionchange`,
        `mouseup`, `keyup` and of the delayed `focusout` callback;
        `timerId` is what `setTimeout` would return. */
    method ScheduleSelectionPromptUpdate(timerId: nat)
      requires Valid()
      modifies this
      ensures Valid()
      ensures State() == ScheduleUpdate(old(State()), timerId)
      ensures SamePending()
    {
      if selectionUpdateHandle.Some? {
        return;
      }
      selectionUpdateHandle := Some(timerId);
      pendingTimers := pendingTimers + 1;
    }

    /** `updateSelectionPrompt`; `sel` is the document selection. */
    method UpdateSelectionPrompt(sel: Option<DocSelection>)
      requires Valid() && SelectionOk(sel)
      requires ElementValid()
      modifies this
      ensures Valid()
      ensures State() == UpdatePrompt(old(State()), currentSelectionInfo)
      ensures ConsultsSelection(old(State())) ==>
        Captures(currentSelectionInfo, currentInputElement, sel)
        && (currentSelectionInfo != null ==> fresh(currentSelectionInfo))
      ensures SamePending()
    {
      if panelState != Idle {
        isSelectionPromptVisible := false;
        return;
      }
      if currentInputElement == null || isSelectionLocked {
        if !isSelectionLocked {
          currentSelectionInfo := null;
        }
        isSelectionPromptVisible := false;
        return;
      }
      var info := GetSelectionInfo(currentInputElement, sel);
      if info != null {
        CaptureIsWellFormed(currentInputElement.kind, currentInputElement.node, currentInputElement.State(), sel);
        AllSpaceIffBlank(Js, info.text);
        currentSelectionInfo := info;
        isSelectionPromptVisible := true;
      } else {
        currentSelectionInfo := null;
        isSelectionPromptVisible := false;
      }
    }

    /** The debounce timer fires: it clears the handle, then updates the
        prompt. */
    method OnSelectionTimerFired(sel: Option<DocSelection>)
      requires Valid() && SelectionOk(sel)
      requires ElementValid()
      requires selectionUpdateHandle.Some?
      modifies this
      ensures Valid()
      ensures pendingTimers == old(pendingTimers) - 1
      ensures State() == UpdatePrompt(old(State()).(updateHandle := None), currentSelectionInfo)
      ensures ConsultsSelection(old(State())) ==>
        Captures(currentSelectionInfo, currentInputElement, sel)
        && (currentSelectionInfo != null ==> fresh(currentSelectionInfo))
      ensures SamePending()
    {
      selectionUpdateHandle := None;
      pendingTimers := pendingTimers - 1;
      UpdateSelectionPrompt(sel);
    }

    /** `releaseSelectionLock`. */
    method ReleaseSelectionLock()
      requires Valid()
      modifies this
      ensures Valid()
      ensures State() == ReleaseLock(old(State()))
      ensures SamePending()
    {
      isSelectionLocked := false;
      currentPolishTarget := InputTarget;
    }

    /** `prepareForInputPolish`. */
    method PrepareForInputPolish()
      requires Valid()
      modifies this
      ensures Valid()
      ensures State() == PrepareInput(old(State()))
      ensures SamePending()
    {
      currentPolishTarget := InputTarget;
      isSelectionLocked := false;
      currentSelectionInfo := null;
      isSelectionPromptVisible := false;
    }

    /** The `focusin` listener. */
    method OnFocusIn(target: Element?, timerId: nat)
      requires Valid()
      modifies this
      ensures Valid()
      ensures State() == FocusIn(old(State()), target, timerId)
      ensures SamePending()
    {
      if IsSafeInput(target) {
        currentInputElement := target;
        ScheduleSelectionPromptUpdate(timerId);
      }
    }

    /** The `TRIGGER_POLISH` listener; `active` is `document.activeElement`.
        When there is an element, a `getDefaultStyle()` continuation is
        scheduled. */
    method OnTriggerMessage(active: Element?)
      requires Valid()
      modifies this
      ensures Valid()
      ensures State() == TriggerMessage(old(State()), active)
      ensures pendingTriggerLoads == old(pendingTriggerLoads) + if currentInputElement != null then 1 else 0
      ensures pendingPromptLoads == old(pendingPromptLoads)
      ensures sentRequests == old(sentRequests) && awaitingResponses == old(awaitingResponses)
    {
      if IsSafeInput(active) {
        currentInputElement := active;
      }
      if currentInputElement != null {
        PrepareForInputPolish();
        pendingTriggerLoads := pendingTriggerLoads + 1;
      }
    }

    /** `triggerPolish` up to its `await`: the request it sends is recorded
        and awaits its settling. */
    method TriggerPolish(textOverride: Option<string>) returns (ghost started: Started)
      requires Valid()
      modifies this
      ensures Valid()
      ensures started == StartPolish(old(State()), old(InputTextOr(textOverride)))
      ensures State() == started.state
      ensures sentRequests == old(sentRequests) + Sent(started.request)
      ensures awaitingResponses == old(awaitingResponses) + |Sent(started.request)|
      ensures pendingTriggerLoads == old(pendingTriggerLoads) && pendingPromptLoads == old(pendingPromptLoads)
    {
      var text := InputTextOr(textOverride);
      started := PolishWith(text);
    }

    /** The part of `triggerPolish` after its text was read: the guards on
        the element and on a blank text, then the switch to `loading`. */
    method PolishWith(text: string) returns (ghost started: Started)
      requires Valid()
      modifies this
      ensures Valid()
      ensures started == StartPolish(old(State()), text)
      ensures State() == started.state
      ensures sentRequests == old(sentRequests) + Sent(started.request)
      ensures awaitingResponses == old(awaitingResponses) + |Sent(started.request)|
      ensures pendingTriggerLoads == old(pendingTriggerLoads) && pendingPromptLoads == old(pendingPromptLoads)
    {
      started := StartPolish(State(), text);
      if currentInputElement == null {
      } else if AllSpace(Js, text) {
        ReportEmptyText();
      } else {
        sentRequests := sentRequests + [PolishRequest(text, currentStyle)];
        awaitingResponses := awaitingResponses + 1;
        BeginLoading(text);
      }
    }

    /** The blank-text branch of `triggerPolish`. */
    method ReportEmptyText()
      requires Valid()
      modifies this
      ensures Valid()
      ensures State() == old(State()).(panelState := Error, currentError := Some(EmptyTextError))
      ensures SamePending()
    {
      panelState := Error;
      currentError := Some(EmptyTextError);
    }

    /** The sending branch of `triggerPolish`, once its request is recorded:
        the panel shows `loading` for the text. */
    method BeginLoading(text: string)
      requires Valid() && awaitingResponses > 0 && !AllSpace(Js, text)
      modifies this
      ensures Valid()
      ensures State() == old(State()).(originalText := text, panelState := Loading, currentError := None,
                                       polishedText := "", promptVisible := false)
      ensures SamePending()
    {
      originalText := text;
      panelState := Loading;
      currentError := None;
      polishedText := "";
      isSelectionPromptVisible := false;
    }

    /** The continuation of a trigger message: the loaded default style
        becomes the current style, then the field is polished. */
    method OnTriggerStyleLoaded(style: string) returns (ghost started: Started)
      requires Valid() && pendingTriggerLoads > 0
      modifies this
      ensures Valid()
      ensures started == StartPolish(old(State()).(currentStyle := style), old(InputTextOr(None)))
      ensures State() == started.state
      ensures sentRequests == old(sentRequests) + Sent(started.request)
      ensures awaitingResponses == old(awaitingResponses) + |Sent(started.request)|
      ensures pendingTriggerLoads == old(pendingTriggerLoads) - 1 && pendingPromptLoads == old(pendingPromptLoads)
    {
      pendingTriggerLoads := pendingTriggerLoads - 1;
      currentStyle := style;
      started := TriggerPolish(None);
    }

    /** The message sent by `triggerPolish` settles; nothing checks that it
        is the latest one. */
    method OnResponse(outcome: SendOutcome)
      requires Valid() && awaitingResponses > 0
      modifies this
      ensures Valid()
      ensures State() == Respond(old(State()), outcome)
      ensures awaitingResponses == old(awaitingResponses) - 1
      ensures pendingTriggerLoads == old(pendingTriggerLoads) && pendingPromptLoads == old(pendingPromptLoads)
      ensures sentRequests == old(sentRequests)
    {
      awaitingResponses := awaitingResponses - 1;
      match outcome
      case Delivered(response) =>
        if response.success && response.result.Some? && response.result.value != "" {
          panelState := Success;
          polishedText := response.result.value;
        } else {
          panelState := Error;
          currentError := Some(if response.error.Some? then response.error.value else UnknownError);
        }
      case SendThrew(message) =>
        panelState := Error;
        var detail := if message.Some? then message.value else UnknownError.message;
        currentError := Some(PolishError(NetworkError, CommunicationErrorPrefix + detail, None));
    }

    /** `handleSelectionPrompt`: locks the captured selection and schedules a
        `getDefaultStyle()` continuation that remembers it. */
    method HandleSelectionPrompt()
      requires Valid()
      modifies this
      ensures Valid()
      ensures State() == SelectionPrompt(old(State()))
      ensures pendingPromptLoads == old(pendingPromptLoads) +
        if old(currentInputElement) != null && old(currentSelectionInfo) != null
        then multiset{old(currentSelectionInfo)} else multiset{}
      ensures pendingTriggerLoads == old(pendingTriggerLoads)
      ensures sentRequests == old(sentRequests) && awaitingResponses == old(awaitingResponses)
    {
      if currentInputElement == null || currentSelectionInfo == null {
        return;
      }
      var selectionSnapshot := currentSelectionInfo;
      currentPolishTarget := SelectionTarget;
      isSelectionLocked := true;
      isSelectionPromptVisible := false;
      pendingPromptLoads := pendingPromptLoads + multiset{selectionSnapshot};
    }

    /** The continuation of a prompt click, with the selection object it
        captured and the loaded style. */
    method OnPromptStyleLoaded(captured: SelectionInfo, style: string) returns (ghost started: Started)
      requires Valid() && captured in pendingPromptLoads
      modifies this
      ensures Valid()
      ensures started == PromptStyleLoaded(old(State()), captured, style)
      ensures State() == started.state
      ensures sentRequests == old(sentRequests) + Sent(started.request)
      ensures awaitingResponses == old(awaitingResponses) + |Sent(started.request)|
      ensures pendingTriggerLoads == old(pendingTriggerLoads)
      ensures pendingPromptLoads == old(pendingPromptLoads) - multiset{captured}
    {
      pendingPromptLoads := pendingPromptLoads - multiset{captured};
      if currentPolishTarget != SelectionTarget || currentSelectionInfo != captured {
        started := Started(State(), None);
        return;
      }
      currentStyle := style;
      started := TriggerPolish(Some(captured.text));
    }

    /** `handleClose`; `sel` is the document selection when the prompt is
        updated. */
    method HandleClose(sel: Option<DocSelection>)
      requires Valid() && SelectionOk(sel)
      requires ElementValid()
      modifies this
      ensures Valid()
      ensures State() == Close(old(State()), currentSelectionInfo)
      ensures ConsultsSelection(Closed(old(State()))) ==>
        Captures(currentSelectionInfo, currentInputElement, sel)
        && (currentSelectionInfo != null ==> fresh(currentSelectionInfo))
      ensures SamePending()
    {
      panelState := Idle;
      originalText := "";
      polishedText := "";
      currentError := None;
      ReleaseSelectionLock();
      UpdateSelectionPrompt(sel);
    }

    /** `handleAccept`: writes the polished text as `AcceptPlan` says, then
        closes the panel. When replaying the offsets throws, the exception
        leaves the handler before the close (`threw`). The browser's answers
        during the write are parameters: whether `insertText` succeeded,
        whether a selection object exists, and the nodes the element
        contains afterwards. */
    method HandleAccept(insertTextSucceeded: bool, selectionExists: bool, nodesAfter: set<NodeId>,
                        sel: Option<DocSelection>)
      returns (threw: bool)
      requires Valid() && SelectionOk(sel)
      requires ElementValid()
      requires currentInputElement != null ==> currentInputElement.node in nodesAfter
      modifies this, currentInputElement
      ensures Valid() && ElementValid()
      ensures currentInputElement == old(currentInputElement)
      ensures var plan := AcceptPlan(old(State()));
        && (plan.NoWrite? ==> !threw && (currentInputElement != null ==>
              currentInputElement.State() == old(currentInputElement.State())))
        && (plan.WriteWhole? ==>
              && !threw
              && currentInputElement.State() ==
                   WholeFieldWrite(currentInputElement.kind, old(currentInputElement.State()), plan.text,
                                   insertTextSucceeded, nodesAfter))
        && (plan.WriteSnapshot? ==>
              var r := SnapshotWrite(currentInputElement.kind, old(currentInputElement.State()), plan.snapshot,
                                     plan.text, insertTextSucceeded, selectionExists, nodesAfter);
              && (threw <==> r.Threw?)
              && (r.Threw? ==> currentInputElement.State() == old(currentInputElement.State()))
              && (r.Wrote? ==> currentInputElement.State() == r.state))
      ensures threw ==> State() == old(State())
      ensures !threw ==> State() == Close(old(State()), currentSelectionInfo)
      ensures !threw && ConsultsSelection(Closed(old(State()))) ==>
        Captures(currentSelectionInfo, currentInputElement, sel)
        && (currentSelectionInfo != null ==> fresh(currentSelectionInfo))
      ensures SamePending()
    {
      threw := false;
      if currentInputElement != null && polishedText != "" {
        if currentPolishTarget == SelectionTarget && currentSelectionInfo != null {
          threw := ReplaceSelectionText(currentInputElement, currentSelectionInfo.snapshot, polishedText,
                                        insertTextSucceeded, selectionExists, nodesAfter);
          if threw {
            return;
          }
        } else {
          SetInputText(currentInputElement, polishedText, insertTextSucceeded, nodesAfter);
        }
      }
      HandleClose(sel);
    }

    /** `handleRetry`. */
    method HandleRetry() returns (ghost started: Started)
      requires Valid()
      modifies this
      ensures Valid()
      ensures started == Retry(old(State()))
      ensures State() == started.state
      ensures sentRequests == old(sentRequests) + Sent(started.request)
      ensures awaitingResponses == old(awaitingResponses) + |Sent(started.request)|
      ensures pendingTriggerLoads == old(pendingTriggerLoads) && pendingPromptLoads == old(pendingPromptLoads)
    {
      started := Started(State(), None);
      if originalText != "" {
        started := TriggerPolish(Some(originalText));
      }
    }

    /** `handleStyleChange`. */
    method HandleStyleChange(style: string) returns (ghost started: Started)
      requires Valid()
      modifies this
      ensures Valid()
      ensures started == StyleChange(old(State()), style)
      ensures State() == started.state
      ensures sentRequests == old(sentRequests) + Sent(started.request)
      ensures awaitingResponses == old(awaitingResponses) + |Sent(started.request)|
      ensures pendingTriggerLoads == old(pendingTriggerLoads) && pendingPromptLoads == old(pendingPromptLoads)
    {
      currentStyle := style;
      started := Started(State(), None);
      if originalText != "" && panelState != Loading {
        started := TriggerPolish(Some(originalText));
      }
    }
  }
}
