/**
 * The macOS companion's settings: a view model whose three published
 * fields are read from `UserDefaults` once, at initialisation, and written
 * back to their own key every time they are set, plus the lookup of the
 * selected preset.
 */
module MacSettings {
  import opened Wrappers
  import opened MacPolishService

  const ApiKeyDefaultsKey: string := "apiKey"
  const EndpointDefaultsKey: string := "endpoint"
  const StyleIdDefaultsKey: string := "styleID"
  const OpenAiEndpoint: string := "https://api.openai.com/v1/chat/completions"
  const DefaultStyleId: string := "formal"

  /** `UserDefaults.standard`, reduced to its string entries. */
  class UserDefaults {
    var strings: map<string, string>

    constructor (initial: map<string, string>)
      ensures strings == initial
    {
      strings := initial;
    }

    /** `string(forKey:)`: the stored string, `nil` when there is none. */
    function StringFor(key: string): (r: Option<string>)
      reads this
      ensures r.Some? <==> key in strings
      ensures r.Some? ==> r.value == strings[key]
    {
      if key in strings then Some(strings[key]) else None
    }

    /** `set(_:forKey:)`. */
    method Set(value: string, key: string)
      modifies this
      ensures strings == old(strings)[key := value]
    {
      strings := strings[key := value];
    }
  }

  /** The three values `init` reads, in the order api key, endpoint, style
      id; Swift's `??` replaces only a missing entry, so a stored empty
      string is kept. */
  datatype Loaded = Loaded(apiKey: string, endpoint: string, styleId: string)

  function LoadSettings(strings: map<string, string>): (l: Loaded)
    ensures ApiKeyDefaultsKey in strings ==> l.apiKey == strings[ApiKeyDefaultsKey]
    ensures ApiKeyDefaultsKey !in strings ==> l.apiKey == ""
    ensures EndpointDefaultsKey in strings ==> l.endpoint == strings[EndpointDefaultsKey]
    ensures EndpointDefaultsKey !in strings ==> l.endpoint == OpenAiEndpoint
    ensures StyleIdDefaultsKey in strings ==> l.styleId == strings[StyleIdDefaultsKey]
    ensures StyleIdDefaultsKey !in strings ==> l.styleId == DefaultStyleId
  {
    Loaded(if ApiKeyDefaultsKey in strings then strings[ApiKeyDefaultsKey] else "",
           if EndpointDefaultsKey in strings then strings[EndpointDefaultsKey] else OpenAiEndpoint,
           if StyleIdDefaultsKey in strings then strings[StyleIdDefaultsKey] else DefaultStyleId)
  }

  /** `presets.first(where: { $0.id == id })`. */
  function FirstWithId(styles: seq<PolishStyle>, id: string): (r: Option<nat>)
    ensures r.Some? ==> r.value < |styles| && styles[r.value].id == id
    ensures r.Some? ==> forall i :: 0 <= i < r.value ==> styles[i].id != id
    ensures r.None? ==> forall i :: 0 <= i < |styles| ==> styles[i].id != id
  {
    if styles == [] then None
    else if styles[0].id == id then Some(0)
    else match FirstWithId(styles[1..], id)
      case None => None
      case Some(k) => Some(k + 1)
  }

  /** `selectedStyle`: the preset with the selected id, or the first preset
      when no preset has it. */
  function StyleForId(id: string): (style: PolishStyle)
    ensures style in Presets
    ensures (exists i :: 0 <= i < |Presets| && Presets[i].id == id) ==> style.id == id
    ensures (forall i :: 0 <= i < |Presets| ==> Presets[i].id != id) ==> style == Presets[0]
  {
    match FirstWithId(Presets, id)
    case Some(k) => Presets[k]
    case None => Presets[0]
  }

  /** Each preset is found by its own id; every other id falls back to the
      formal preset. */
  lemma StyleLookupByPresetId()
    ensures StyleForId("formal") == Presets[0]
    ensures StyleForId("concise") == Presets[1]
    ensures StyleForId("commit") == Presets[2]
    ensures StyleForId("casual") == Presets[0]
  {
    PresetsAreDistinct();
    assert Presets[1].id == "concise";
    assert Presets[2].id == "commit";
  }

  /** `SettingsViewModel`. */
  class SettingsViewModel {
    const defaults: UserDefaults
    var apiKey: string
    var endpoint: string
    var selectedStyleId: string

    /** `init()`: each field takes its stored string or its default.
        Property observers do not run during initialisation, so nothing is
        written back. */
    constructor (defaults: UserDefaults)
      ensures this.defaults == defaults
      ensures Loaded(apiKey, endpoint, selectedStyleId) == LoadSettings(defaults.strings)
      ensures unchanged(defaults)
    {
      this.defaults := defaults;
      apiKey := defaults.StringFor(ApiKeyDefaultsKey).GetOr("");
      endpoint := defaults.StringFor(EndpointDefaultsKey).GetOr(OpenAiEndpoint);
      selectedStyleId := defaults.StringFor(StyleIdDefaultsKey).GetOr(DefaultStyleId);
    }

    function SelectedStyle(): (style: PolishStyle)
      reads this
      ensures style in Presets
      ensures (exists i :: 0 <= i < |Presets| && Presets[i].id == selectedStyleId) ==> style.id == selectedStyleId
      ensures (forall i :: 0 <= i < |Presets| ==> Presets[i].id != selectedStyleId) ==> style == Presets[0]
    {
      StyleForId(selectedStyleId)
    }

    /** Assigning `apiKey`, with its `didSet`. */
    method SetApiKey(value: string)
      modifies this, defaults
      ensures apiKey == value && endpoint == old(endpoint) && selectedStyleId == old(selectedStyleId)
      ensures defaults.strings == old(defaults.strings)[ApiKeyDefaultsKey := value]
    {
      apiKey := value;
      defaults.Set(apiKey, ApiKeyDefaultsKey);
    }

    /** Assigning `endpoint`, with its `didSet`. */
    method SetEndpoint(value: string)
      modifies this, defaults
      ensures endpoint == value && apiKey == old(apiKey) && selectedStyleId == old(selectedStyleId)
      ensures defaults.strings == old(defaults.strings)[EndpointDefaultsKey := value]
    {
      endpoint := value;
      defaults.Set(endpoint, EndpointDefaultsKey);
    }

    /** Assigning `selectedStyleID`, with its `didSet`. */
    method SetSelectedStyleId(value: string)
      modifies this, defaults
      ensures selectedStyleId == value && apiKey == old(apiKey) && endpoint == old(endpoint)
      ensures defaults.strings == old(defaults.strings)[StyleIdDefaultsKey := value]
    {
      selectedStyleId := value;
      defaults.Set(selectedStyleId, StyleIdDefaultsKey);
    }
  }

  /** Setting one field then loading again gives back the value set, and
      the other two fields load as before. */
  lemma SetThenLoad(strings: map<string, string>, value: string)
    ensures LoadSettings(strings[ApiKeyDefaultsKey := value])
         == LoadSettings(strings).(apiKey := value)
    ensures LoadSettings(strings[EndpointDefaultsKey := value])
         == LoadSettings(strings).(endpoint := value)
    ensures LoadSettings(strings[StyleIdDefaultsKey := value])
         == LoadSettings(strings).(styleId := value)
  {
  }

  /** A stored empty string survives loading, where the extension's getters
      would replace it with the default. */
  lemma StoredEmptyIsKept(strings: map<string, string>)
    requires strings == map[ApiKeyDefaultsKey := "", EndpointDefaultsKey := "", StyleIdDefaultsKey := ""]
    ensures LoadSettings(strings) == Loaded("", "", "")
    ensures StyleForId(LoadSettings(strings).styleId) == Presets[0]
  {
    assert StyleIdDefaultsKey in strings;
    PresetsAreDistinct();
  }
}
