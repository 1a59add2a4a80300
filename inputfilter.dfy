/**
 * The content script's input filter: which focused elements may be read
 * (a privacy boundary), how the selected span of a text control or a
 * contenteditable region is captured together with a snapshot of where it
 * was, and how text is written back, either over the whole field or over
 * the captured span.
 *
 * Elements are objects the writers change in place. The browser's own
 * primitives are parameters: whether `document.execCommand('insertText')`
 * succeeded, whether `window.getSelection()` returned an object, what the
 * current document selection is, and which nodes the element contains after
 * a write to a contenteditable region.
 */
module InputFilter {
  import opened Wrappers
  import opened Text

  type NodeId = nat

  datatype Direction = Forward | Backward | NoDirection

  /** The three element shapes the filter tells apart, with the attributes it
      consults. `inputType` is the reflected `type` property (lower-case,
      `"text"` when the attribute is absent or unknown); `autocomplete` is
      the raw attribute, `None` when absent. */
  datatype ElementKind =
    | InputElement(inputType: string, autocomplete: Option<string>)
    | TextAreaElement
    | OtherElement(isContentEditable: bool)

  predicate IsTextControl(k: ElementKind) {
    k.InputElement? || k.TextAreaElement?
  }

  predicate IsContentEditable(k: ElementKind) {
    k.OtherElement? && k.isContentEditable
  }

  /** Input types that are never text surfaces or that hold secrets. */
  const UnsafeInputTypes: seq<string> :=
    ["password", "hidden", "file", "submit", "button", "reset", "image"]

  /** Autofill field names (section 4.10.18.7 of the WHATWG HTML Standard)
      that mark payment-card and password fields. */
  const SensitiveAutocompleteValues: seq<string> :=
    ["cc-name", "cc-number", "cc-exp", "cc-exp-month", "cc-exp-year", "cc-csc", "cc-type",
     "new-password", "current-password"]

  /** Input types to which `selectionStart`/`setSelectionRange` apply
      (section 4.10.20 of the WHATWG HTML Standard); for every other type
      the offsets read `null` and `setSelectionRange` throws. */
  const SelectionApiInputTypes: set<string> := {"text", "search", "url", "tel", "password"}

  predicate HasSelectionApi(k: ElementKind) {
    k.TextAreaElement? || (k.InputElement? && k.inputType in SelectionApiInputTypes)
  }

  /** A DOM Range, abstracted to the node that contains both boundary points
      and the offsets of those points in the region's rendered text. */
  datatype Range = Range(commonAncestorContainer: NodeId, startOffset: nat, endOffset: nat) {
    predicate Valid() { startOffset <= endOffset }
  }

  /** What `window.getSelection()` exposes: its ranges (`rangeCount` is their
      number), whether it is collapsed, its anchor and focus nodes and its
      `toString()`. */
  datatype DocSelection = DocSelection(
    ranges: seq<Range>, isCollapsed: bool,
    anchorNode: Option<NodeId>, focusNode: Option<NodeId>, text: string)
  {
    predicate Valid() { forall i :: 0 <= i < |ranges| ==> ranges[i].Valid() }
  }

  /** `SelectionSnapshot`: offsets and direction for a text control, a cloned
      range for a contenteditable region. */
  datatype Snapshot =
    | InputSnapshot(selectionStart: nat, selectionEnd: nat, selectionDirection: Direction)
    | ContentEditableSnapshot(range: Range)
  {
    /** The snapshot can be replayed: the DOM never produces a selection or a
        range whose start lies after its end. */
    predicate WellFormed() {
      match this
      case InputSnapshot(s, e, _) => s <= e
      case ContentEditableSnapshot(r) => r.Valid()
    }
  }

  /** The value of a `SelectionInfo`: the selected text and its snapshot. */
  datatype Capture = Capture(text: string, snapshot: Snapshot)

  /** The state of an element that the filter reads and the writers change:
      a text control's `value`, `selectionStart`, `selectionEnd` and
      `selectionDirection`; a contenteditable region's rendered text
      (`innerText`, which the model does not distinguish from `textContent`);
      the nodes `element.contains(n)` answers true for (inclusive); and how
      many synthetic `input` events the fallback writers dispatched. */
  datatype ElementState = ElementState(
    value: string,
    selectionStart: Option<nat>, selectionEnd: Option<nat>, selectionDirection: Option<Direction>,
    content: string, nodes: set<NodeId>, syntheticInputEvents: nat)

  /** What the DOM guarantees of every element: it contains itself, the
      selection offsets exist exactly for the types with the selection API,
      and they lie in order inside the value. */
  ghost predicate ValidState(kind: ElementKind, node: NodeId, s: ElementState) {
    && node in s.nodes
    && (s.selectionStart.Some? <==> HasSelectionApi(kind))
    && (s.selectionStart.Some? <==> s.selectionEnd.Some?)
    && (s.selectionStart.Some? ==> s.selectionStart.value <= s.selectionEnd.value <= |s.value|)
  }

  class Element {
    const kind: ElementKind
    /** The element's own node. */
    const node: NodeId
    var value: string
    var selectionStart: Option<nat>
    var selectionEnd: Option<nat>
    var selectionDirection: Option<Direction>
    var content: string
    var nodes: set<NodeId>
    var syntheticInputEvents: nat

    function State(): ElementState
      reads this
    {
      ElementState(value, selectionStart, selectionEnd, selectionDirection, content, nodes, syntheticInputEvents)
    }

    ghost predicate Valid()
      reads this
    {
      ValidState(kind, node, State())
    }

    /** A freshly created element with the caret at the start of its value. */
    constructor (kind: ElementKind, node: NodeId, value: string, content: string)
      ensures Valid()
      ensures this.kind == kind && this.node == node && this.value == value && this.content == content
      ensures nodes == {node} && syntheticInputEvents == 0
    {
      this.kind := kind;
      this.node := node;
      this.value := value;
      this.content := content;
      this.nodes := {node};
      this.syntheticInputEvents := 0;
      if HasSelectionApi(kind) {
        selectionStart, selectionEnd, selectionDirection := Some(0), Some(0), Some(NoDirection);
      } else {
        selectionStart, selectionEnd, selectionDirection := None, None, None;
      }
    }
  }

  /** The privacy filter over an element's shape, `type` and
      `autocomplete`. */
  predicate IsSafeKind(k: ElementKind)
    ensures k.InputElement? && k.inputType in UnsafeInputTypes ==> !IsSafeKind(k)
    ensures k.InputElement? && k.autocomplete.Some? && k.autocomplete.value in SensitiveAutocompleteValues
            ==> !IsSafeKind(k)
    ensures k.TextAreaElement? ==> IsSafeKind(k)
    ensures IsSafeKind(k) ==> IsTextControl(k) || IsContentEditable(k)
  {
    match k
    case InputElement(t, ac) =>
      // An empty attribute is falsy; it is not in the list either.
      && t !in UnsafeInputTypes
      && !(ac.Some? && ac.value != "" && ac.value in SensitiveAutocompleteValues)
    case TextAreaElement => true
    case OtherElement(editable) => editable
  }

  /** `isSafeInput`: a null element is never safe. */
  predicate IsSafeInput(e: Element?)
    ensures e == null ==> !IsSafeInput(e)
    ensures e != null ==> (IsSafeInput(e) <==> IsSafeKind(e.kind))
  {
    e != null && IsSafeKind(e.kind)
  }

  /** An input is accepted exactly when its type is not in the unsafe list
      and its `autocomplete` attribute is not exactly one of the sensitive
      autofill names; the comparison is exact, so a detail token list such
      as `"billing cc-number"` does not match. */
  lemma InputAcceptance(t: string, ac: Option<string>)
    ensures IsSafeKind(InputElement(t, ac))
            <==> t !in UnsafeInputTypes && !(ac.Some? && ac.value in SensitiveAutocompleteValues)
    ensures IsSafeKind(InputElement("text", Some("billing cc-number")))
    ensures !IsSafeKind(InputElement("text", Some("cc-number")))
    ensures forall a :: !IsSafeKind(InputElement("password", a))
  {
    assert "billing cc-number" !in SensitiveAutocompleteValues;
    assert "cc-number" in SensitiveAutocompleteValues;
    assert "password" in UnsafeInputTypes;
  }

  /** Non-input elements: textareas always, contenteditable regions always,
      anything else never. */
  lemma NonInputAcceptance(k: ElementKind)
    requires !k.InputElement?
    ensures IsSafeKind(k) <==> (k.TextAreaElement? || IsContentEditable(k))
  {
  }

  /** `getInputText`: the whole value of a text control, the rendered text of
      a contenteditable region, "" otherwise. */
  function GetInputText(kind: ElementKind, s: ElementState): (r: string)
    ensures IsTextControl(kind) ==> r == s.value
    ensures !IsTextControl(kind) && IsContentEditable(kind) ==> r == s.content
    ensures !IsTextControl(kind) && !IsContentEditable(kind) ==> r == ""
  {
    if IsTextControl(kind) then s.value
    else if IsContentEditable(kind) then s.content
    else ""
  }

  /** `getSelectionInfo`, as the value it computes: the selected span of a
      text control (with its offsets and direction) or of a contenteditable
      region (with its first range), or `None` when there is nothing
      actionable. */
  function CaptureSelection(kind: ElementKind, s: ElementState, sel: Option<DocSelection>): (r: Option<Capture>)
    ensures IsTextControl(kind) ==>
      (r.None? <==> (|| s.selectionStart.None? || s.selectionEnd.None?
                     || s.selectionStart == s.selectionEnd
                     || IsBlank(Js, Slice(s.value, s.selectionStart.value, s.selectionEnd.value))))
    ensures IsTextControl(kind) && r.Some? ==>
      r.value == Capture(Slice(s.value, s.selectionStart.value, s.selectionEnd.value),
                         InputSnapshot(s.selectionStart.value, s.selectionEnd.value,
                                       s.selectionDirection.GetOr(NoDirection)))
    ensures !IsTextControl(kind) && IsContentEditable(kind) ==>
      (r.None? <==> (|| sel.None? || |sel.value.ranges| == 0 || sel.value.isCollapsed
                     || sel.value.anchorNode.None? || sel.value.focusNode.None?
                     || sel.value.anchorNode.value !in s.nodes || sel.value.focusNode.value !in s.nodes
                     || IsBlank(Js, sel.value.text)))
    ensures !IsTextControl(kind) && IsContentEditable(kind) && r.Some? ==>
      r.value == Capture(sel.value.text, ContentEditableSnapshot(sel.value.ranges[0]))
    ensures !IsTextControl(kind) && !IsContentEditable(kind) ==> r.None?
  {
    if IsTextControl(kind) then
      if s.selectionStart.None? || s.selectionEnd.None? || s.selectionStart == s.selectionEnd then None
      else
        var start := s.selectionStart.value;
        var end := s.selectionEnd.value;
        var selected := Slice(s.value, start, end);
        TrimEmptyIffBlank(Js, selected);
        if Trim(Js, selected) == [] then None
        else Some(Capture(selected, InputSnapshot(start, end, s.selectionDirection.GetOr(NoDirection))))
    else if IsContentEditable(kind) then
      if sel.None? || |sel.value.ranges| == 0 || sel.value.isCollapsed then None
      else if || sel.value.anchorNode.None? || sel.value.focusNode.None?
              || sel.value.anchorNode.value !in s.nodes || sel.value.focusNode.value !in s.nodes then None
      else
        TrimEmptyIffBlank(Js, sel.value.text);
        if Trim(Js, sel.value.text) == [] then None
        else Some(Capture(sel.value.text, ContentEditableSnapshot(sel.value.ranges[0])))
    else None
  }

  /** A captured text-control span is non-empty, lies inside the value, and
      its text is exactly the value between the recorded offsets. */
  lemma CaptureInputSpan(kind: ElementKind, node: NodeId, s: ElementState, sel: Option<DocSelection>)
    requires ValidState(kind, node, s) && IsTextControl(kind)
    requires CaptureSelection(kind, s, sel).Some?
    ensures var c := CaptureSelection(kind, s, sel).value;
      && c.snapshot.InputSnapshot?
      && c.snapshot.selectionStart < c.snapshot.selectionEnd <= |s.value|
      && c.text == s.value[c.snapshot.selectionStart..c.snapshot.selectionEnd]
  {
  }

  /** Every capture can be replayed. */
  lemma CaptureIsWellFormed(kind: ElementKind, node: NodeId, s: ElementState, sel: Option<DocSelection>)
    requires ValidState(kind, node, s)
    requires sel.Some? ==> sel.value.Valid()
    requires CaptureSelection(kind, s, sel).Some?
    ensures CaptureSelection(kind, s, sel).value.snapshot.WellFormed()
  {
    if !IsTextControl(kind) {
      assert sel.value.ranges[0].Valid();
    }
  }

  /** A `SelectionInfo` object. Only its identity is ever compared, so it is
      an object with constant fields. */
  class SelectionInfo {
    const text: string
    const snapshot: Snapshot

    constructor (c: Capture)
      ensures text == c.text && snapshot == c.snapshot
    {
      text := c.text;
      snapshot := c.snapshot;
    }
  }

  /** `getSelectionInfo`: a fresh object holding the capture, or null. */
  method GetSelectionInfo(e: Element, sel: Option<DocSelection>) returns (info: SelectionInfo?)
    ensures info == null <==> CaptureSelection(e.kind, e.State(), sel).None?
    ensures info != null ==> fresh(info) && CaptureSelection(e.kind, e.State(), sel) == Some(Capture(info.text, info.snapshot))
  {
    var c := CaptureSelection(e.kind, e.State(), sel);
    if c.None? {
      info := null;
    } else {
      info := new SelectionInfo(c.value);
    }
  }

  /** One more synthetic `input` event when `execCommand` failed. */
  function CountFallback(events: nat, insertTextSucceeded: bool): nat {
    if insertTextSucceeded then events else events + 1
  }

  /** `setInputText`, as the state it leaves: the whole field becomes `text`.
      For a text control `select()` first selects the whole value; the
      `execCommand` path then leaves the caret after the text, and so does
      the fallback (assigning `value`) when the value changes. Assigning the
      value it already has moves nothing, so the whole value stays selected.
      For a contenteditable region the region holds the nodes the browser
      left in it. Only the fallback dispatches a synthetic `input` event.
      Any other element is left alone. */
  function WholeFieldWrite(kind: ElementKind, s: ElementState, text: string,
                           insertTextSucceeded: bool, nodesAfter: set<NodeId>): (r: ElementState)
    ensures IsTextControl(kind) || IsContentEditable(kind) ==>
      GetInputText(kind, r) == text
      && r.syntheticInputEvents == CountFallback(s.syntheticInputEvents, insertTextSucceeded)
    ensures !IsTextControl(kind) && !IsContentEditable(kind) ==> r == s
    ensures IsTextControl(kind) ==> r.content == s.content && r.nodes == s.nodes
    ensures IsTextControl(kind) && HasSelectionApi(kind) && (insertTextSucceeded || text != s.value) ==>
      r.selectionStart == r.selectionEnd == Some(|text|)
    ensures IsTextControl(kind) && HasSelectionApi(kind) && !insertTextSucceeded && text == s.value ==>
      r.selectionStart == Some(0) && r.selectionEnd == Some(|text|)
    ensures !IsTextControl(kind) ==> r.value == s.value && r.selectionStart == s.selectionStart
                                     && r.selectionEnd == s.selectionEnd
  {
    if IsTextControl(kind) then
      var s1 := s.(value := text, syntheticInputEvents := CountFallback(s.syntheticInputEvents, insertTextSucceeded));
      if !HasSelectionApi(kind) then s1
      else if insertTextSucceeded || text != s.value then
        s1.(selectionStart := Some(|text|), selectionEnd := Some(|text|), selectionDirection := Some(NoDirection))
      else
        s1.(selectionStart := Some(0), selectionEnd := Some(|text|), selectionDirection := Some(NoDirection))
    else if IsContentEditable(kind) then
      s.(content := text, nodes := nodesAfter,
         syntheticInputEvents := CountFallback(s.syntheticInputEvents, insertTextSucceeded))
    else s
  }

  /** A whole-field write keeps the element valid, provided the browser left
      the element its own node. */
  lemma WholeFieldWriteKeepsValid(kind: ElementKind, node: NodeId, s: ElementState, text: string,
                                  insertTextSucceeded: bool, nodesAfter: set<NodeId>)
    requires ValidState(kind, node, s) && node in nodesAfter
    ensures ValidState(kind, node, WholeFieldWrite(kind, s, text, insertTextSucceeded, nodesAfter))
  {
  }

  /** What `replaceSelectionText` does: either it leaves a new state, or the
      replay of the offsets throws. */
  datatype WriteOutcome = Wrote(state: ElementState) | Threw

  /** `replaceSelectionText`, as the outcome it produces. An offset snapshot
      is replayed with `setSelectionRange`, then `insertText` or, failing
      that, `setRangeText(text, start, end, 'end')`; the offsets are not
      checked against the current value, only clamped as those DOM calls do,
      and the replay throws `InvalidStateError` on an input type without the
      selection API. A range snapshot is replayed into the region when its
      common ancestor is still inside it and a selection object exists, and
      degrades to a whole-field write otherwise. A snapshot of the wrong
      kind for the element changes nothing. */
  function SnapshotWrite(kind: ElementKind, s: ElementState, snapshot: Snapshot, text: string,
                         insertTextSucceeded: bool, selectionExists: bool,
                         nodesAfter: set<NodeId>): (r: WriteOutcome)
    requires snapshot.WellFormed()
    ensures r.Threw? <==> snapshot.InputSnapshot? && IsTextControl(kind) && !HasSelectionApi(kind)
    ensures snapshot.InputSnapshot? && !IsTextControl(kind) ==> r == Wrote(s)
    ensures snapshot.ContentEditableSnapshot? && !IsContentEditable(kind) ==> r == Wrote(s)
    ensures snapshot.InputSnapshot? && HasSelectionApi(kind) ==>
      var a := Min(snapshot.selectionStart, |s.value|);
      var b := Min(snapshot.selectionEnd, |s.value|);
      && r.state.value == s.value[..a] + text + s.value[b..]
      && r.state.selectionStart == r.state.selectionEnd == Some(a + |text|)
      && r.state.content == s.content && r.state.nodes == s.nodes
      && r.state.syntheticInputEvents == CountFallback(s.syntheticInputEvents, insertTextSucceeded)
    ensures snapshot.ContentEditableSnapshot? && IsContentEditable(kind)
            && (snapshot.range.commonAncestorContainer !in s.nodes || !selectionExists) ==>
      r == Wrote(WholeFieldWrite(kind, s, text, insertTextSucceeded, nodesAfter))
    ensures snapshot.ContentEditableSnapshot? && IsContentEditable(kind)
            && snapshot.range.commonAncestorContainer in s.nodes && selectionExists ==>
      var a := Min(snapshot.range.startOffset, |s.content|);
      var b := Min(snapshot.range.endOffset, |s.content|);
      && r.state.content == s.content[..a] + text + s.content[b..]
      && r.state.value == s.value && r.state.selectionStart == s.selectionStart
      && r.state.selectionEnd == s.selectionEnd && r.state.nodes == nodesAfter
      && r.state.syntheticInputEvents == CountFallback(s.syntheticInputEvents, insertTextSucceeded)
  {
    match snapshot
    case InputSnapshot(start, end, _) =>
      if !IsTextControl(kind) then Wrote(s)
      else if !HasSelectionApi(kind) then Threw
      else
        // `setSelectionRange` then `insertText`, or `setRangeText` with the
        // stored offsets: both clamp the offsets to the value and leave the
        // caret after the inserted text.
        var caret := CaretAfterSplice(s.value, text, start);
        Wrote(s.(value := SpliceRange(s.value, text, start, end),
                 selectionStart := Some(caret), selectionEnd := Some(caret),
                 selectionDirection := Some(NoDirection),
                 syntheticInputEvents := CountFallback(s.syntheticInputEvents, insertTextSucceeded)))
    case ContentEditableSnapshot(range) =>
      if !IsContentEditable(kind) then Wrote(s)
      else if range.commonAncestorContainer !in s.nodes || !selectionExists then
        Wrote(WholeFieldWrite(kind, s, text, insertTextSucceeded, nodesAfter))
      else
        Wrote(s.(content := SpliceRange(s.content, text, range.startOffset, range.endOffset),
                 nodes := nodesAfter,
                 syntheticInputEvents := CountFallback(s.syntheticInputEvents, insertTextSucceeded)))
  }

  /** A snapshot write that does not throw keeps the element valid, whatever
      the offsets were: the clamped caret stays inside the new value. */
  lemma {:induction false} SnapshotWriteKeepsValid(kind: ElementKind, node: NodeId, s: ElementState,
                                                   snapshot: Snapshot, text: string,
                                                   insertTextSucceeded: bool, selectionExists: bool,
                                                   nodesAfter: set<NodeId>)
    requires ValidState(kind, node, s) && snapshot.WellFormed() && node in nodesAfter
    requires SnapshotWrite(kind, s, snapshot, text, insertTextSucceeded, selectionExists, nodesAfter).Wrote?
    ensures ValidState(kind, node, SnapshotWrite(kind, s, snapshot, text, insertTextSucceeded, selectionExists, nodesAfter).state)
  {
    var r := SnapshotWrite(kind, s, snapshot, text, insertTextSucceeded, selectionExists, nodesAfter);
    if snapshot.InputSnapshot? && HasSelectionApi(kind) {
      var start := snapshot.selectionStart;
      var end := snapshot.selectionEnd;
      assert CaretAfterSplice(s.value, text, start) <= |SpliceRange(s.value, text, start, end)| by {
        assert Min(start, |s.value|) <= Min(end, |s.value|);
      }
    } else if snapshot.ContentEditableSnapshot? && IsContentEditable(kind)
              && (snapshot.range.commonAncestorContainer !in s.nodes || !selectionExists) {
      WholeFieldWriteKeepsValid(kind, node, s, text, insertTextSucceeded, nodesAfter);
    }
  }

  /** Reading the whole field back after a whole-field write gives the
      written text. */
  lemma WholeWriteThenRead(kind: ElementKind, s: ElementState, text: string,
                           insertTextSucceeded: bool, nodesAfter: set<NodeId>)
    requires IsTextControl(kind) || IsContentEditable(kind)
    ensures GetInputText(kind, WholeFieldWrite(kind, s, text, insertTextSucceeded, nodesAfter)) == text
  {
  }

  /** Capturing a text-control span and writing the same text back over the
      snapshot leaves the value unchanged. */
  lemma CaptureThenWriteBackIsIdentity(kind: ElementKind, node: NodeId, s: ElementState,
                                       sel: Option<DocSelection>, insertTextSucceeded: bool,
                                       selectionExists: bool, nodesAfter: set<NodeId>)
    requires ValidState(kind, node, s) && HasSelectionApi(kind)
    requires CaptureSelection(kind, s, sel).Some?
    ensures var c := CaptureSelection(kind, s, sel).value;
      && c.snapshot.WellFormed()
      && var r := SnapshotWrite(kind, s, c.snapshot, c.text, insertTextSucceeded, selectionExists, nodesAfter);
         r.Wrote? && r.state.value == s.value
  {
    var c := CaptureSelection(kind, s, sel).value;
    CaptureInputSpan(kind, node, s, sel);
    SliceSpliceRoundTrip(s.value, c.snapshot.selectionStart, c.snapshot.selectionEnd);
  }

  /** After an offset write, the span that starts at the recorded start
      (clamped to the value, as the DOM clamps a stale offset) and is as
      long as the inserted text reads back as that text, and the value
      outside it is what it was outside the clamped recorded span. */
  lemma OffsetWriteThenRead(kind: ElementKind, s: ElementState, start: nat, end: nat, dir: Direction,
                            text: string, insertTextSucceeded: bool, selectionExists: bool,
                            nodesAfter: set<NodeId>)
    requires HasSelectionApi(kind) && start <= end
    ensures var r := SnapshotWrite(kind, s, InputSnapshot(start, end, dir), text,
                                   insertTextSucceeded, selectionExists, nodesAfter);
      var a := Min(start, |s.value|);
      && r.Wrote?
      && Slice(r.state.value, a, a + |text|) == text
      && r.state.value[..a] == s.value[..a]
      && r.state.value[a + |text|..] == s.value[Min(end, |s.value|)..]
  {
    SpliceThenSlice(s.value, text, start, end);
  }

  /** `setInputText` on an element. */
  method SetInputText(e: Element, text: string, insertTextSucceeded: bool, nodesAfter: set<NodeId>)
    requires e.Valid()
    requires e.node in nodesAfter
    modifies e
    ensures e.Valid()
    ensures e.State() == WholeFieldWrite(e.kind, old(e.State()), text, insertTextSucceeded, nodesAfter)
  {
    if IsTextControl(e.kind) {
      // `select()` selects the whole value; `insertText`, or an assignment
      // that changes the value, then leaves the caret at the end.
      var changed := text != e.value;
      if HasSelectionApi(e.kind) {
        e.selectionStart, e.selectionEnd, e.selectionDirection := Some(0), Some(|e.value|), Some(NoDirection);
      }
      e.value := text;
      if HasSelectionApi(e.kind) && (insertTextSucceeded || changed) {
        e.selectionStart, e.selectionEnd := Some(|text|), Some(|text|);
      }
      if !insertTextSucceeded {
        e.syntheticInputEvents := e.syntheticInputEvents + 1;
      }
    } else if IsContentEditable(e.kind) {
      e.content := text;
      e.nodes := nodesAfter;
      if !insertTextSucceeded {
        e.syntheticInputEvents := e.syntheticInputEvents + 1;
      }
    }
  }

  /** `replaceSelectionText` on an element; `threw` reports the exception,
      which leaves the element as it was. */
  method ReplaceSelectionText(e: Element, snapshot: Snapshot, text: string,
                              insertTextSucceeded: bool, selectionExists: bool,
                              nodesAfter: set<NodeId>)
    returns (threw: bool)
    requires e.Valid() && snapshot.WellFormed()
    requires e.node in nodesAfter
    modifies e
    ensures e.Valid()
    ensures var r := SnapshotWrite(e.kind, old(e.State()), snapshot, text, insertTextSucceeded, selectionExists, nodesAfter);
      && (threw <==> r.Threw?)
      && (r.Threw? ==> e.State() == old(e.State()))
      && (r.Wrote? ==> e.State() == r.state)
  {
    threw := false;
    match snapshot
    case InputSnapshot(start, end, _) =>
      if !IsTextControl(e.kind) {
        return;
      }
      if !HasSelectionApi(e.kind) {
        threw := true;
        return;
      }
      var oldValue := e.value;
      e.value := SpliceRange(oldValue, text, start, end);
      var caret := CaretAfterSplice(oldValue, text, start);
      e.selectionStart, e.selectionEnd, e.selectionDirection := Some(caret), Some(caret), Some(NoDirection);
      if !insertTextSucceeded {
        e.syntheticInputEvents := e.syntheticInputEvents + 1;
      }
      assert caret <= |e.value| by {
        assert Min(start, |oldValue|) <= Min(end, |oldValue|);
      }
    case ContentEditableSnapshot(range) =>
      if !IsContentEditable(e.kind) {
        return;
      }
      if range.commonAncestorContainer !in e.nodes || !selectionExists {
        SetInputText(e, text, insertTextSucceeded, nodesAfter);
        return;
      }
      e.content := SpliceRange(e.content, text, range.startOffset, range.endOffset);
      e.nodes := nodesAfter;
      if !insertTextSucceeded {
        e.syntheticInputEvents := e.syntheticInputEvents + 1;
      }
  }
}
