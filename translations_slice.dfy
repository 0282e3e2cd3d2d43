/** The translations slice of the store: the current language code, the
    dictionary loaded for it, and the stored language code. */
module TranslationsSlice {

  /** A flat dictionary from dotted keys to display strings. */
  type Dictionary = map<string, string>

  datatype TranslationsState = TranslationsState(currentLanguage: string, translations: Dictionary)

  /** The storage key the language code alone is written under. */
  const LanguageKey: string := "currentLanguage"

  /** English, and no dictionary loaded yet. */
  const InitialState: TranslationsState := TranslationsState("en", map[])

  /** `t[key] || fallback`: a missing or empty translation falls back. */
  function Lookup(t: Dictionary, key: string, fallback: string): (r: string)
    ensures key in t && t[key] != "" ==> r == t[key]
    ensures key !in t || t[key] == "" ==> r == fallback
  {
    if key in t && t[key] != "" then t[key] else fallback
  }

  /** Startup: the stored language when it is a non-empty string, English
      otherwise; the dictionary always starts empty. */
  function LoadState(storage: map<string, string>): TranslationsState
  {
    if LanguageKey in storage && storage[LanguageKey] != "" then InitialState.(currentLanguage := storage[LanguageKey])
    else InitialState
  }

  lemma LoadStartsEmpty(storage: map<string, string>)
    ensures LoadState(storage).translations == map[]
    ensures LoadState(storage).currentLanguage != ""
    ensures LanguageKey !in storage ==> LoadState(storage) == TranslationsState("en", map[])
  {
  }

  /** The state after `setCurrentLanguage(lang)`. */
  function WithLanguage(st: TranslationsState, lang: string): (r: TranslationsState)
    ensures r.currentLanguage == lang && r.translations == st.translations
  {
    st.(currentLanguage := lang)
  }

  /** The state after `setTranslations(d)`: the language never changes. */
  function WithTranslations(st: TranslationsState, d: Dictionary): (r: TranslationsState)
    ensures r.currentLanguage == st.currentLanguage && r.translations == d
  {
    st.(translations := d)
  }

  /** The state after `loadTranslations({language, translations})`: a load
      tagged with a language that is no longer current is dropped. */
  function WithLoaded(st: TranslationsState, lang: string, d: Dictionary): (r: TranslationsState)
    ensures r.currentLanguage == st.currentLanguage
    ensures lang == st.currentLanguage ==> r.translations == d
    ensures lang != st.currentLanguage ==> r == st
  {
    if lang == st.currentLanguage then st.(translations := d) else st
  }

  /** The translations slice, updated in place by its reducers. */
  class TranslationsStore {
    var currentLanguage: string
    var translations: Dictionary
    /** Browser storage: only the language code is stored. */
    var storage: map<string, string>

    function State(): TranslationsState
      reads this
    {
      TranslationsState(currentLanguage, translations)
    }

    constructor (storage: map<string, string>)
      ensures State() == LoadState(storage)
      ensures this.storage == storage
    {
      var st := LoadState(storage);
      currentLanguage, translations := st.currentLanguage, st.translations;
      this.storage := storage;
    }

    /** Sets the code and stores only the code; the dictionary is kept. */
    method SetCurrentLanguage(lang: string)
      modifies this
      ensures State() == WithLanguage(old(State()), lang)
      ensures storage == old(storage)[LanguageKey := lang]
      ensures lang != "" ==> LoadState(storage).currentLanguage == lang
    {
      currentLanguage := lang;
      storage := storage[LanguageKey := lang];
    }

    /** Replaces the dictionary unconditionally; nothing is stored. */
    method SetTranslations(d: Dictionary)
      modifies this
      ensures State() == WithTranslations(old(State()), d)
      ensures storage == old(storage)
    {
      translations := d;
    }

    /** Replaces the dictionary only when the load is for the current
      language; nothing is stored. */
    method LoadTranslations(lang: string, d: Dictionary)
      modifies this
      ensures State() == WithLoaded(old(State()), lang, d)
      ensures storage == old(storage)
    {
      if lang == currentLanguage {
        translations := d;
      }
    }
  }
}
