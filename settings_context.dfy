/**
 * The settings store (src/contexts/SettingsContext.tsx): two fields, the API key and the system
 * prompt, backed by the browser's key-value storage. The provider starts from an empty key and the
 * default prompt, loads the stored values once on mount, and every update writes the field and
 * its storage entry together. The default prompt (src/config/prompts.ts) is an opaque parameter.
 */
module SettingsContext {
  import opened Types

  const ApiKeyStorageKey: string := "openai_api_key"
  const SystemPromptStorageKey: string := "system_prompt"
  const OutsideProviderMessage: string := "useSettings must be used within a SettingsProvider"

  /** `localStorage`: a map from keys to string values. */
  class LocalStorage {
    var items: map<string, string>

    constructor (items: map<string, string>)
      ensures this.items == items
    {
      this.items := items;
    }

    /** `getItem`: `null` for a missing key. */
    function GetItem(key: string): (value: Option<string>)
      reads this
      ensures value.Some? <==> key in items
      ensures value.Some? ==> value.value == items[key]
    {
      if key in items then Some(items[key]) else None
    }

    method SetItem(key: string, value: string)
      modifies this
      ensures items == old(items)[key := value]
    {
      items := items[key := value];
    }
  }

  /** What the context hands to its consumers. */
  datatype SettingsValue = SettingsValue(apiKey: string, systemPrompt: string)

  /** The state before the mount-time load. */
  function InitialSettings(defaultPrompt: string): SettingsValue {
    SettingsValue("", defaultPrompt)
  }

  /** A stored entry replaces the current value only when it is present and not empty. */
  function StoredOr(items: map<string, string>, key: string, current: string): string {
    if key in items && items[key] != "" then items[key] else current
  }

  /** The state after the mount-time load from `items`. */
  function LoadedSettings(items: map<string, string>, current: SettingsValue): SettingsValue {
    SettingsValue(
      StoredOr(items, ApiKeyStorageKey, current.apiKey),
      StoredOr(items, SystemPromptStorageKey, current.systemPrompt))
  }

  /** A fresh provider after its load: each field is its stored entry when that is non-empty, its default otherwise. */
  lemma FreshLoad(items: map<string, string>, defaultPrompt: string)
    ensures var s := LoadedSettings(items, InitialSettings(defaultPrompt));
      && (ApiKeyStorageKey in items && items[ApiKeyStorageKey] != "" ==> s.apiKey == items[ApiKeyStorageKey])
      && (ApiKeyStorageKey !in items || items[ApiKeyStorageKey] == "" ==> s.apiKey == "")
      && (SystemPromptStorageKey in items && items[SystemPromptStorageKey] != "" ==> s.systemPrompt == items[SystemPromptStorageKey])
      && (SystemPromptStorageKey !in items || items[SystemPromptStorageKey] == "" ==> s.systemPrompt == defaultPrompt)
  {
  }

  /** Loading twice from the same storage gives what loading once gave. */
  lemma LoadIdempotent(items: map<string, string>, current: SettingsValue)
    ensures LoadedSettings(items, LoadedSettings(items, current)) == LoadedSettings(items, current)
  {
  }

  /**
   * Persistence round trip for the key: after `updateApiKey(k)` a fresh provider restores `k` when
   * it is non-empty and falls back to the empty key otherwise; the stored prompt is unaffected.
   */
  lemma ApiKeyRoundTrip(items: map<string, string>, newKey: string, defaultPrompt: string)
    ensures var s := LoadedSettings(items[ApiKeyStorageKey := newKey], InitialSettings(defaultPrompt));
      && (newKey != "" ==> s.apiKey == newKey)
      && (newKey == "" ==> s.apiKey == "")
      && s.systemPrompt == LoadedSettings(items, InitialSettings(defaultPrompt)).systemPrompt
  {
  }

  /**
   * Persistence round trip for the prompt: after `updateSystemPrompt(p)` a fresh provider restores
   * `p` when it is non-empty and reverts to the default prompt otherwise; the stored key is unaffected.
   */
  lemma SystemPromptRoundTrip(items: map<string, string>, newPrompt: string, defaultPrompt: string)
    ensures var s := LoadedSettings(items[SystemPromptStorageKey := newPrompt], InitialSettings(defaultPrompt));
      && (newPrompt != "" ==> s.systemPrompt == newPrompt)
      && (newPrompt == "" ==> s.systemPrompt == defaultPrompt)
      && s.apiKey == LoadedSettings(items, InitialSettings(defaultPrompt)).apiKey
  {
  }

  /** `useSettings`: the context value inside a provider, an error outside one. */
  function UseSettings(context: Option<SettingsValue>): (r: Result<SettingsValue>)
    ensures r.Err? <==> context.None?
    ensures r.Err? ==> r.message == OutsideProviderMessage
    ensures r.Ok? ==> r.value == context.value
  {
    match context
    case None => Err(OutsideProviderMessage)
    case Some(value) => Ok(value)
  }

  /** `SettingsProvider`: the two state fields and the storage they persist to. */
  class SettingsProvider {
    var apiKey: string
    var systemPrompt: string
    const storage: LocalStorage
    const defaultPrompt: string

    /** The value the provider hands to `useSettings`. */
    function Value(): SettingsValue
      reads this
    {
      SettingsValue(apiKey, systemPrompt)
    }

    /** The first render: an empty key and the default prompt; storage is not read yet. */
    constructor (storage: LocalStorage, defaultPrompt: string)
      ensures Value() == InitialSettings(defaultPrompt)
      ensures this.storage == storage && this.defaultPrompt == defaultPrompt
    {
      apiKey := "";
      systemPrompt := defaultPrompt;
      this.storage := storage;
      this.defaultPrompt := defaultPrompt;
    }

    /** The mount-time effect: each field takes its stored entry when that is present and non-empty. */
    method Load()
      modifies this
      ensures Value() == LoadedSettings(storage.items, old(Value()))
    {
      var storedApiKey := storage.GetItem(ApiKeyStorageKey);
      var storedPrompt := storage.GetItem(SystemPromptStorageKey);
      if Truthy(storedApiKey) {
        apiKey := storedApiKey.value;
      }
      if Truthy(storedPrompt) {
        systemPrompt := storedPrompt.value;
      }
    }

    /** Set the key in state and in storage; the prompt and every other entry stay as they were. */
    method UpdateApiKey(newKey: string)
      modifies this, storage
      ensures apiKey == newKey && systemPrompt == old(systemPrompt)
      ensures storage.items == old(storage.items)[ApiKeyStorageKey := newKey]
    {
      apiKey := newKey;
      storage.SetItem(ApiKeyStorageKey, newKey);
    }

    /** Set the prompt in state and in storage; the key and every other entry stay as they were. */
    method UpdateSystemPrompt(newPrompt: string)
      modifies this, storage
      ensures systemPrompt == newPrompt && apiKey == old(apiKey)
      ensures storage.items == old(storage.items)[SystemPromptStorageKey := newPrompt]
    {
      systemPrompt := newPrompt;
      storage.SetItem(SystemPromptStorageKey, newPrompt);
    }
  }

  /**
   * The round trip through real objects: update the prompt on one provider, then mount a fresh
   * provider on the same storage. It shows the stored prompt, or the default when it was set to ''.
   */
  method ReloadAfterPromptUpdate(storage: LocalStorage, defaultPrompt: string, newPrompt: string)
    returns (reloaded: SettingsValue)
    modifies storage
    ensures newPrompt != "" ==> reloaded.systemPrompt == newPrompt
    ensures newPrompt == "" ==> reloaded.systemPrompt == defaultPrompt
  {
    var first := new SettingsProvider(storage, defaultPrompt);
    first.Load();
    first.UpdateSystemPrompt(newPrompt);
    var second := new SettingsProvider(storage, defaultPrompt);
    second.Load();
    reloaded := second.Value();
  }
}
