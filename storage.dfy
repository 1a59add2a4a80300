/**
 * The extension's settings store over `chrome.storage.local`: three string
 * entries with defaulting getters. A getter treats a missing entry and an
 * empty string alike (JavaScript's `||`).
 */
module Storage {
  import opened Text
  import opened SharedTypes

  /** `StorageConfig`. */
  datatype StorageConfig = StorageConfig(apiKey: string, apiEndpoint: string, defaultStyle: string)

  /** `result[key] || fallback` on the stored entries. */
  function StoredOr(data: map<string, string>, key: string, fallback: string): (r: string)
    ensures key in data && data[key] != "" ==> r == data[key]
    ensures key !in data || data[key] == "" ==> r == fallback
  {
    if key in data && data[key] != "" then data[key] else fallback
  }

  function ApiKeyIn(data: map<string, string>): string {
    StoredOr(data, ApiKeyStorageKey, "")
  }

  function ApiEndpointIn(data: map<string, string>): string {
    StoredOr(data, ApiEndpointStorageKey, DefaultApiEndpoint)
  }

  function DefaultStyleIn(data: map<string, string>): string {
    StoredOr(data, DefaultStyleStorageKey, DefaultStyle)
  }

  class LocalStore {
    /** The entries of `chrome.storage.local`. */
    var data: map<string, string>

    constructor (initial: map<string, string>)
      ensures data == initial
    {
      data := initial;
    }

    /** `getApiKey`: the stored key, or "" when it is absent or empty. */
    method GetApiKey() returns (apiKey: string)
      ensures apiKey == ApiKeyIn(data)
      ensures ApiKeyStorageKey in data ==> apiKey == data[ApiKeyStorageKey]
      ensures ApiKeyStorageKey !in data ==> apiKey == ""
    {
      apiKey := StoredOr(data, ApiKeyStorageKey, "");
    }

    /** `getApiEndpoint`: never empty, the default endpoint when nothing
        usable is stored. */
    method GetApiEndpoint() returns (endpoint: string)
      ensures endpoint == ApiEndpointIn(data)
      ensures endpoint != ""
      ensures ApiEndpointStorageKey !in data || data[ApiEndpointStorageKey] == "" ==> endpoint == DefaultApiEndpoint
    {
      endpoint := StoredOr(data, ApiEndpointStorageKey, DefaultApiEndpoint);
    }

    /** `getDefaultStyle`: never empty, `"formal"` when nothing usable is
        stored; a stored value is returned as it is, whether or not the
        style catalogue knows it. */
    method GetDefaultStyle() returns (style: string)
      ensures style == DefaultStyleIn(data)
      ensures style != ""
      ensures DefaultStyleStorageKey !in data || data[DefaultStyleStorageKey] == "" ==> style == "formal"
    {
      style := StoredOr(data, DefaultStyleStorageKey, DefaultStyle);
    }

    method SaveApiKey(apiKey: string)
      modifies this
      ensures data == old(data)[ApiKeyStorageKey := apiKey]
    {
      data := data[ApiKeyStorageKey := apiKey];
    }

    method SaveApiEndpoint(apiEndpoint: string)
      modifies this
      ensures data == old(data)[ApiEndpointStorageKey := apiEndpoint]
    {
      data := data[ApiEndpointStorageKey := apiEndpoint];
    }

    method SaveDefaultStyle(style: string)
      modifies this
      ensures data == old(data)[DefaultStyleStorageKey := style]
    {
      data := data[DefaultStyleStorageKey := style];
    }

    /** `getStorageConfig`: the three getters' answers together. */
    method GetStorageConfig() returns (config: StorageConfig)
      ensures config == StorageConfig(ApiKeyIn(data), ApiEndpointIn(data), DefaultStyleIn(data))
    {
      var apiKey := GetApiKey();
      var apiEndpoint := GetApiEndpoint();
      var defaultStyle := GetDefaultStyle();
      config := StorageConfig(apiKey, apiEndpoint, defaultStyle);
    }

    /** `hasApiKey`: a key counts only when it holds something other than
        whitespace. */
    method HasApiKey() returns (has: bool)
      ensures has <==> !IsBlank(Js, ApiKeyIn(data))
    {
      var apiKey := GetApiKey();
      TrimEmptyIffBlank(Js, apiKey);
      has := |Trim(Js, apiKey)| > 0;
    }
  }

  /** Saving a non-empty value makes the matching getter return it, and
      leaves what the other two getters return unchanged. */
  lemma SaveThenGet(data: map<string, string>, v: string)
    requires v != ""
    ensures ApiKeyIn(data[ApiKeyStorageKey := v]) == v
    ensures ApiEndpointIn(data[ApiKeyStorageKey := v]) == ApiEndpointIn(data)
    ensures DefaultStyleIn(data[ApiKeyStorageKey := v]) == DefaultStyleIn(data)
    ensures ApiEndpointIn(data[ApiEndpointStorageKey := v]) == v
    ensures ApiKeyIn(data[ApiEndpointStorageKey := v]) == ApiKeyIn(data)
    ensures DefaultStyleIn(data[ApiEndpointStorageKey := v]) == DefaultStyleIn(data)
    ensures DefaultStyleIn(data[DefaultStyleStorageKey := v]) == v
    ensures ApiKeyIn(data[DefaultStyleStorageKey := v]) == ApiKeyIn(data)
    ensures ApiEndpointIn(data[DefaultStyleStorageKey := v]) == ApiEndpointIn(data)
  {
  }

  /** Saving an empty string does not store a usable value: the getters fall
      back to their defaults. */
  lemma SaveEmptyRestoresDefault(data: map<string, string>)
    ensures ApiKeyIn(data[ApiKeyStorageKey := ""]) == ""
    ensures ApiEndpointIn(data[ApiEndpointStorageKey := ""]) == DefaultApiEndpoint
    ensures DefaultStyleIn(data[DefaultStyleStorageKey := ""]) == DefaultStyle
  {
  }

  /** A key made of spaces is returned by `getApiKey` but does not count
      for `hasApiKey`. */
  lemma WhitespaceKeyIsStoredButNotConfigured(data: map<string, string>)
    requires data == map[ApiKeyStorageKey := "  "]
    ensures ApiKeyIn(data) == "  "
    ensures IsBlank(Js, ApiKeyIn(data))
  {
  }
}
