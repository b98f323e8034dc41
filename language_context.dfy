/**
 * The language preference: initialised from the browser's key/value store (default English) and
 * written back whenever it changes. The store is modelled as a map.
 */
module LanguageContext {
  import opened Wrappers

  const LanguageKey: string := "app_language"
  const DefaultLanguage: string := "en"

  /** `localStorage`: string keys to string values. */
  class Storage {
    var items: map<string, string>

    constructor(items: map<string, string>)
      ensures this.items == items
    {
      this.items := items;
    }

    /** `getItem`: `None` is `null` for a missing key. */
    function GetItem(key: string): (r: Option<string>)
      reads this
      ensures r.Some? <==> key in items
      ensures r.Some? ==> r.value == items[key]
    {
      if key in items then Some(items[key]) else None
    }

    /** `setItem`. */
    method SetItem(key: string, value: string)
      modifies this
      ensures items == old(items)[key := value]
    {
      items := items[key := value];
    }
  }

  /** `localStorage.getItem('app_language') || 'en'`: a missing or empty value means English. */
  function InitialLanguage(stored: Option<string>): (r: string)
    ensures stored.Some? && stored.value != "" ==> r == stored.value
    ensures stored.None? || stored.value == "" ==> r == DefaultLanguage
    ensures r != ""
  {
    if stored.Some? && stored.value != "" then stored.value else DefaultLanguage
  }

  class LanguageProvider {
    var language: string
    const storage: Storage

    /** Mounting the provider reads the stored preference. */
    constructor(storage: Storage)
      ensures this.storage == storage
      ensures language == InitialLanguage(storage.GetItem(LanguageKey))
    {
      this.storage := storage;
      language := InitialLanguage(storage.GetItem(LanguageKey));
    }

    /** `changeLanguage(lang)`: the code is taken as given, and stored under the one key. */
    method ChangeLanguage(lang: string)
      modifies this, storage
      ensures language == lang
      ensures storage.items == old(storage.items)[LanguageKey := lang]
    {
      language := lang;
      storage.SetItem(LanguageKey, lang);
    }
  }

  /** A non-empty language written under the key is what the next mount reads back; every other
      key of the store is left as it was. */
  lemma StoredLanguageRoundTrip(items: map<string, string>, lang: string)
    requires lang != ""
    ensures var after := items[LanguageKey := lang];
      && InitialLanguage(if LanguageKey in after then Some(after[LanguageKey]) else None) == lang
      && forall k :: k != LanguageKey ==> (k in after <==> k in items) && (k in items ==> after[k] == items[k])
  {
  }

  /** An empty code is stored as given, but the next mount reads it as English. */
  lemma EmptyLanguageRemountsAsEnglish(items: map<string, string>)
    ensures var after := items[LanguageKey := ""];
      InitialLanguage(if LanguageKey in after then Some(after[LanguageKey]) else None) == DefaultLanguage
  {
  }

  /** Changing the language and mounting a fresh provider over the same store restores it. */
  method ChangeThenRemount(storage: Storage, lang: string) returns (restored: string)
    requires lang != ""
    modifies storage
    ensures restored == lang
    ensures storage.items == old(storage.items)[LanguageKey := lang]
  {
    var provider := new LanguageProvider(storage);
    provider.ChangeLanguage(lang);
    var remounted := new LanguageProvider(storage);
    restored := remounted.language;
  }
}
