/**
 * The macOS companion's application delegate: the hot-key signature packed
 * from "POLI", the hot-key registration and its release at termination,
 * the dispatch of hot-key events, and the ⌘P flow, which reads the
 * selected text through the accessibility API, polishes it with the
 * settings' key, endpoint and style, and shows the result or the error; the
 * result's Apply button writes the polished text over the selection.
 *
 * The Carbon and accessibility calls are parameters: whether each
 * registration returned a reference, what the focused element's selected
 * text is, and which element has the focus when Apply is pressed.
 */
module MacApp {
  import opened Wrappers
  import opened Text
  import opened MacPolishService
  import opened MacSettings

  /** A UTF-16 code unit and a `UInt32` (`FourCharCode`, `OSType`). */
  type UInt16 = x: int | 0 <= x < 0x1_0000
  type UInt32 = x: int | 0 <= x < 0x1_0000_0000

  const UInt32Modulus: nat := 0x1_0000_0000

  /** The UTF-16 code units of one scalar value: one unit in the Basic
      Multilingual Plane, a surrogate pair above it. */
  function Utf16Units(c: char): (units: seq<UInt16>)
    ensures |units| == 1 <==> (c as int) < 0x1_0000
    ensures (c as int) < 0x1_0000 ==> units == [c as int]
    ensures (c as int) >= 0x1_0000 ==>
      && |units| == 2
      && 0xD800 <= units[0] < 0xDC00 && 0xDC00 <= units[1] < 0xE000
      && (units[0] as int - 0xD800) * 0x400 + (units[1] as int - 0xDC00) + 0x1_0000 == c as int
  {
    var v := c as int;
    if v < 0x1_0000 then [v]
    else [0xD800 + (v - 0x1_0000) / 0x400, 0xDC00 + (v - 0x1_0000) % 0x400]
  }

  /** How many characters of `s` lie above the Basic Multilingual Plane. */
  function SupplementaryCount(s: string): nat {
    if s == [] then 0 else (if (s[0] as int) < 0x1_0000 then 0 else 1) + SupplementaryCount(s[1..])
  }

  /** `String.utf16`: one unit per character, plus one more for each
      character above the Basic Multilingual Plane; a string inside that
      plane is its own sequence of units. */
  function Utf16(s: string): (units: seq<UInt16>)
    ensures |units| == |s| + SupplementaryCount(s)
    ensures (forall i :: 0 <= i < |s| ==> (s[i] as int) < 0x1_0000) ==>
      forall i :: 0 <= i < |s| ==> units[i] == s[i] as int
  {
    if s == [] then [] else Utf16Units(s[0]) + Utf16(s[1..])
  }

  /** One step of the fold `$0 << 8 + FourCharCode($1)`: the shift drops
      the bits pushed out of 32, the addition traps (`None`) on overflow. */
  function PackStep(acc: UInt32, unit: UInt16): Option<UInt32> {
    var shifted := (acc * 256) % UInt32Modulus;
    if shifted + unit < UInt32Modulus then Some(shifted + unit) else None
  }

  /** `fourCharCodeValue`: `utf16.reduce(0) { $0 << 8 + FourCharCode($1) }`,
      `None` when the fold traps. */
  function FourCharCodeValue(units: seq<UInt16>): Option<UInt32> {
    if units == [] then Some(0)
    else match FourCharCodeValue(units[..|units| - 1])
      case None => None
      case Some(acc) => PackStep(acc, units[|units| - 1])
  }

  /** The units read as a big-endian number in base 256. */
  function Base256(units: seq<UInt16>): nat {
    if units == [] then 0 else Base256(units[..|units| - 1]) * 256 + units[|units| - 1]
  }

  predicate AllBytes(units: seq<UInt16>) {
    forall i :: 0 <= i < |units| ==> units[i] < 256
  }

  /** Adding a multiple of 2^32 does not change the low 32 bits. */
  lemma AddMultipleMod(a: nat, k: nat)
    ensures (a + k * 0x1_0000_0000) % 0x1_0000_0000 == a % 0x1_0000_0000
  {
    var q := a / 0x1_0000_0000;
    var r := a % 0x1_0000_0000;
    assert a + k * 0x1_0000_0000 == (q + k) * 0x1_0000_0000 + r;
  }

  /** Shifting a 32-bit value left by 8 reduces like shifting the
      unreduced number. */
  lemma ShiftOfReduced(x: nat)
    ensures ((x % 0x1_0000_0000) * 256) % 0x1_0000_0000 == (x * 256) % 0x1_0000_0000
  {
    var q := x / 0x1_0000_0000;
    var r := x % 0x1_0000_0000;
    assert x * 256 == r * 256 + (q * 256) * 0x1_0000_0000;
    AddMultipleMod(r * 256, q * 256);
  }

  /** A shifted value has a zero low byte, so adding a byte cannot
      overflow, and the sum reduces like the unreduced sum. */
  lemma ShiftThenAddByte(y: nat, u: nat)
    requires u < 256
    ensures (y * 256) % 0x1_0000_0000 + u < 0x1_0000_0000
    ensures (y * 256 + u) % 0x1_0000_0000 == (y * 256) % 0x1_0000_0000 + u
  {
    var q := (y * 256) / 0x1_0000_0000;
    var s := (y * 256) % 0x1_0000_0000;
    assert s == 256 * (y - q * 0x100_0000);
    assert y * 256 + u == q * 0x1_0000_0000 + (s + u);
  }

  /** One fold step over a byte agrees with the base-256 number reduced to
      32 bits. */
  lemma StepOfByte(b: nat, u: UInt16)
    requires u < 256
    ensures PackStep(b % UInt32Modulus, u) == Some((b * 256 + u) % UInt32Modulus)
  {
    ShiftOfReduced(b);
    ShiftThenAddByte(b, u);
  }

  /** Byte-sized units pack as the base-256 number they spell, reduced to
      32 bits: the shift discards what is pushed out, and no addition can
      overflow. */
  lemma {:induction false} BytesPack(units: seq<UInt16>)
    requires AllBytes(units)
    ensures FourCharCodeValue(units) == Some(Base256(units) % UInt32Modulus)
    decreases |units|
  {
    if units != [] {
      var init := units[..|units| - 1];
      assert AllBytes(init) by {
        forall i | 0 <= i < |init| ensures init[i] < 256 {
          assert init[i] == units[i];
        }
      }
      BytesPack(init);
      StepOfByte(Base256(init), units[|units| - 1]);
    }
  }

  /** Four byte-sized units give `u0·2^24 + u1·2^16 + u2·2^8 + u3`. */
  lemma FourBytesPack(u0: UInt16, u1: UInt16, u2: UInt16, u3: UInt16)
    requires u0 < 256 && u1 < 256 && u2 < 256 && u3 < 256
    ensures FourCharCodeValue([u0, u1, u2, u3]) == Some(u0 * 0x100_0000 + u1 * 0x1_0000 + u2 * 0x100 + u3)
  {
    var units := [u0, u1, u2, u3];
    BytesPack(units);
    assert Base256([u0]) == u0 by {
      assert [u0][..0] == [];
    }
    assert Base256([u0, u1]) == u0 * 0x100 + u1 by {
      assert [u0, u1][..1] == [u0];
    }
    assert Base256([u0, u1, u2]) == u0 * 0x1_0000 + u1 * 0x100 + u2 by {
      assert [u0, u1, u2][..2] == [u0, u1];
    }
    assert Base256(units) == u0 * 0x100_0000 + u1 * 0x1_0000 + u2 * 0x100 + u3 by {
      assert units[..3] == [u0, u1, u2];
    }
  }

  const HotKeySignatureText: string := "POLI"

  /** The hot key's signature is the OSType 'POLI'. */
  lemma PoliSignature()
    ensures FourCharCodeValue(Utf16(HotKeySignatureText)) == Some(0x504F4C49)
  {
    assert Utf16(HotKeySignatureText) == [0x50, 0x4F, 0x4C, 0x49];
    FourBytesPack(0x50, 0x4F, 0x4C, 0x49);
  }

  /** The addition is checked: a unit wider than a byte can overflow it,
      which traps. */
  lemma WideUnitCanTrap()
    ensures FourCharCodeValue([0xFF, 0xFF, 0xFF, 0xFF, 0xFFFF]).None?
  {
    var units: seq<UInt16> := [0xFF, 0xFF, 0xFF, 0xFF, 0xFFFF];
    FourBytesPack(0xFF, 0xFF, 0xFF, 0xFF);
    assert units[..4] == [0xFF, 0xFF, 0xFF, 0xFF];
  }

  // ---- the ⌘P flow ----

  const NoSelectionMessage: string := "未检测到选中文本，请先选中文本后再按 ⌘P"

  /** What the panel controller shows. */
  datatype PanelView = Hidden | ShowingError(message: string) | ShowingResult(original: string, polished: string)

  /** One run of `handlePolishShortcut`: the `polish` call it made, if any,
      and what it shows. */
  datatype ShortcutRun = ShortcutRun(polish: Option<PolishRun>, panel: PanelView)

  /** `handlePolishShortcut`, given the selected text the accessibility API
      returned (`None` for `nil`) and the settings at that moment. The guard
      is not trimmed: text of spaces reaches the service. */
  function PolishShortcut(selected: Option<string>, settings: Loaded, urlParses: bool, exchange: Exchange): (run: ShortcutRun)
    ensures selected.None? || selected.value == "" <==> run.polish.None?
    ensures run.polish.None? ==> run.panel == ShowingError(NoSelectionMessage)
    ensures run.polish.Some? ==>
      run.polish.value == Polish(selected.value, settings.apiKey, settings.endpoint, StyleForId(settings.styleId).prompt,
                                 urlParses, exchange)
    ensures run.polish.Some? && run.polish.value.result.Ok? ==>
      run.panel == ShowingResult(selected.value, run.polish.value.result.value)
    ensures run.polish.Some? && run.polish.value.result.Err? ==>
      run.panel == ShowingError(run.polish.value.result.error.LocalizedDescription())
    ensures run.panel.ShowingResult? ==> selected == Some(run.panel.original) && !IsBlank(Swift, run.panel.polished)
  {
    if selected.None? || selected.value == "" then
      ShortcutRun(None, ShowingError(NoSelectionMessage))
    else
      var p := Polish(selected.value, settings.apiKey, settings.endpoint, StyleForId(settings.styleId).prompt,
                      urlParses, exchange);
      match p.result
      case Ok(polished) => ShortcutRun(Some(p), ShowingResult(selected.value, polished))
      case Err(failure) => ShortcutRun(Some(p), ShowingError(failure.LocalizedDescription()))
  }

  /** A selection of whitespace passes the shortcut's guard and is refused by
      the service, whose message is shown. */
  lemma WhitespaceSelectionReachesService(settings: Loaded, urlParses: bool, exchange: Exchange)
    ensures var run := PolishShortcut(Some(" "), settings, urlParses, exchange);
      run.polish.Some? && run.panel == ShowingError(EmptySelectionDescription)
  {
    assert IsBlank(Swift, " ");
    var p := Polish(" ", settings.apiKey, settings.endpoint, StyleForId(settings.styleId).prompt, urlParses, exchange);
    assert p == PolishRun(None, Err(PolishFailure(1, EmptySelectionDescription)));
  }

  /** The hot key's identity: its signature and its id. */
  datatype HotKeyId = HotKeyId(signature: UInt32, id: nat)

  /** What `RegisterEventHotKey` is asked for: the virtual key code of P,
      the command modifier alone, and the identity. */
  datatype HotKeyRegistration = HotKeyRegistration(keyCode: nat, modifiers: nat, hotKey: HotKeyId)

  const AnsiPKeyCode: nat := 0x23
  const CmdKeyModifier: nat := 0x100
  const PolishHotKeyId: nat := 1

  /** The element that has the focus, as far as setting its selected text
      goes. */
  class FocusedElement {
    var selectedText: string

    constructor (selectedText: string)
      ensures this.selectedText == selectedText
    {
      this.selectedText := selectedText;
    }
  }

  /** `AccessibilityTextService.replaceCurrentSelection(with:)`: the focus
      is looked up again, and nothing happens when there is none. */
  method ReplaceCurrentSelection(focused: FocusedElement?, text: string)
    modifies focused
    ensures focused != null ==> focused.selectedText == text
  {
    if focused != null {
      focused.selectedText := text;
    }
  }

  /** `AppDelegate`. */
  class AppDelegate {
    const viewModel: SettingsViewModel
    var hotKeyRef: Option<nat>
    var hotKeyHandler: Option<nat>
    /** The registration `registerHotKey` requested. */
    var registration: Option<HotKeyRegistration>
    /** What the panel controller shows. */
    var panel: PanelView
    /** References released at termination, in order. */
    ghost var unregisteredHotKeys: seq<nat>
    ghost var removedHandlers: seq<nat>

    constructor (viewModel: SettingsViewModel)
      ensures this.viewModel == viewModel
      ensures hotKeyRef == None && hotKeyHandler == None && registration == None && panel == Hidden
      ensures unregisteredHotKeys == [] && removedHandlers == []
    {
      this.viewModel := viewModel;
      hotKeyRef := None;
      hotKeyHandler := None;
      registration := None;
      panel := Hidden;
      unregisteredHotKeys := [];
      removedHandlers := [];
    }

    /** `registerHotKey`: the handler is installed, then ⌘P is registered
        with id 1 and the signature 'POLI'. `installed` and `registered`
        are the references the two Carbon calls wrote, if any. */
    method RegisterHotKey(installed: Option<nat>, registered: Option<nat>)
      modifies this
      ensures hotKeyHandler == installed && hotKeyRef == registered
      ensures registration == Some(HotKeyRegistration(AnsiPKeyCode, CmdKeyModifier, HotKeyId(0x504F4C49, PolishHotKeyId)))
      ensures panel == old(panel)
      ensures unregisteredHotKeys == old(unregisteredHotKeys) && removedHandlers == old(removedHandlers)
    {
      hotKeyHandler := installed;
      var signature := FourCharCodeValue(Utf16(HotKeySignatureText));
      PoliSignature();
      registration := Some(HotKeyRegistration(AnsiPKeyCode, CmdKeyModifier, HotKeyId(signature.value, PolishHotKeyId)));
      hotKeyRef := registered;
    }

    /** `applicationWillTerminate`: releases whichever references exist.
        The fields keep their values. */
    method ApplicationWillTerminate()
      modifies this
      ensures unregisteredHotKeys == old(unregisteredHotKeys) + (if hotKeyRef.Some? then [hotKeyRef.value] else [])
      ensures removedHandlers == old(removedHandlers) + (if hotKeyHandler.Some? then [hotKeyHandler.value] else [])
      ensures hotKeyRef == old(hotKeyRef) && hotKeyHandler == old(hotKeyHandler)
      ensures registration == old(registration) && panel == old(panel)
    {
      if hotKeyRef.Some? {
        unregisteredHotKeys := unregisteredHotKeys + [hotKeyRef.value];
      }
      if hotKeyHandler.Some? {
        removedHandlers := removedHandlers + [hotKeyHandler.value];
      }
    }

    /** The hot-key event callback: only id 1 runs the ⌘P flow.
        `selected` is what the accessibility API returns for the focused
        element; `urlParses` and `exchange` stand for the service's calls. */
    method OnHotKeyEvent(hotKeyId: nat, selected: Option<string>, urlParses: bool, exchange: Exchange)
      modifies this
      ensures hotKeyId == PolishHotKeyId ==>
        panel == PolishShortcut(selected, Loaded(viewModel.apiKey, viewModel.endpoint, viewModel.selectedStyleId),
                                urlParses, exchange).panel
      ensures hotKeyId != PolishHotKeyId ==> panel == old(panel)
      ensures hotKeyRef == old(hotKeyRef) && hotKeyHandler == old(hotKeyHandler) && registration == old(registration)
      ensures unregisteredHotKeys == old(unregisteredHotKeys) && removedHandlers == old(removedHandlers)
    {
      if hotKeyId == PolishHotKeyId {
        var run := PolishShortcut(selected, Loaded(viewModel.apiKey, viewModel.endpoint, viewModel.selectedStyleId),
                                  urlParses, exchange);
        panel := run.panel;
      }
    }

    /** The result panel's Apply button: the polished text replaces the
        selection of whatever element has the focus now, then the panel's
        window closes. */
    method Apply(focused: FocusedElement?)
      requires panel.ShowingResult?
      modifies this, focused
      ensures focused != null ==> focused.selectedText == old(panel).polished
      ensures panel == Hidden
      ensures hotKeyRef == old(hotKeyRef) && hotKeyHandler == old(hotKeyHandler) && registration == old(registration)
      ensures unregisteredHotKeys == old(unregisteredHotKeys) && removedHandlers == old(removedHandlers)
    {
      ReplaceCurrentSelection(focused, panel.polished);
      panel := Hidden;
    }
  }
}
