/** The page header: the text under the breadcrumb, chosen by the current
    selection, and the language selector. */
module PageHeader {
  import opened NavigationSlice
  import opened TranslationsSlice

  /** A translation key together with the literal shown when it is missing. */
  datatype Text = Text(key: string, fallback: string)

  /** The text under the breadcrumb: one for the reactor unit, one for the
      cooling-towers unit, a default for every other selection. */
  function BottomText(nav: NavState): (r: Text)
    ensures r == Text("header.reactor", "Effluent Parameters")
      <==> nav.section == "inputs" && nav.child == "chemistry" && nav.unit == "reactor"
    ensures r == Text("header.coolingTowers", "Operating Limits")
      <==> nav.section == "inputs" && nav.child == "chemistry" && nav.unit == "cooling-towers"
    ensures r == Text("header.default", "Parameter Management")
      <==> !(nav.section == "inputs" && nav.child == "chemistry" && (nav.unit == "reactor" || nav.unit == "cooling-towers"))
  {
    if nav.section == "inputs" && nav.child == "chemistry" && nav.unit == "reactor" then
      Text("header.reactor", "Effluent Parameters")
    else if nav.section == "inputs" && nav.child == "chemistry" && nav.unit == "cooling-towers" then
      Text("header.coolingTowers", "Operating Limits")
    else Text("header.default", "Parameter Management")
  }

  /** The text as displayed: the translation, or the literal when the
      translation is missing or empty. */
  function BottomContent(nav: NavState, t: Dictionary): string
  {
    Lookup(t, BottomText(nav).key, BottomText(nav).fallback)
  }

  /** With no dictionary loaded the literal is shown. */
  lemma BottomContentWithoutDictionary(nav: NavState)
    ensures BottomContent(nav, map[]) == BottomText(nav).fallback
  {
  }

  /** The languages the selector offers. */
  const LanguageOptions: seq<string> := ["en", "ru"]

  /** A language change: the code is set first, then the dictionary fetched
      for it is loaded under that same code. The fetch never fails (a
      missing dictionary arrives as the empty one), so it is a parameter. */
  method HandleLanguageChange(store: TranslationsStore, language: string, fetched: Dictionary)
    modifies store
    ensures store.State() == TranslationsState(language, fetched)
    ensures store.storage == old(store.storage)[LanguageKey := language]
  {
    store.SetCurrentLanguage(language);
    store.LoadTranslations(language, fetched);
  }

  /** The state right after the first half of a language change. */
  function ChangeStarted(st: TranslationsState, language: string): TranslationsState
  {
    WithLanguage(st, language)
  }

  /** The state after the second half, when the fetch for `language` arrives. */
  function ChangeFinished(st: TranslationsState, language: string, d: Dictionary): TranslationsState
  {
    WithLoaded(st, language, d)
  }

  /** Two overlapping changes, to `a` and then to `b`, each with one load of
      its own, arriving in either order: only the dictionary of the latest
      choice is kept, and it is the same outcome as running the two changes
      one after the other. The shell's effect adds a second load per change;
      `LoadsKeepLatestChoice` covers any number of loads in any order. */
  lemma OverlappingChangesKeepLatest(st: TranslationsState, a: string, b: string, da: Dictionary, db: Dictionary)
    requires a != b
    ensures var started := ChangeStarted(ChangeStarted(st, a), b);
      && ChangeFinished(ChangeFinished(started, a, da), b, db) == TranslationsState(b, db)
      && ChangeFinished(ChangeFinished(started, b, db), a, da) == TranslationsState(b, db)
      && ChangeFinished(ChangeStarted(ChangeFinished(ChangeStarted(st, a), a, da), b), b, db) == TranslationsState(b, db)
  {
  }

  /** The application shell's effect, re-run whenever the current language
      changes (and once at startup): the dictionary fetched for the current
      code is loaded under that code. */
  method LoadCurrentTranslations(store: TranslationsStore, fetched: Dictionary)
    modifies store
    ensures store.State() == TranslationsState(old(store.currentLanguage), fetched)
    ensures store.storage == old(store.storage)
  {
    store.LoadTranslations(store.currentLanguage, fetched);
  }

  /** A dictionary load in flight, tagged with the language it was fetched for. */
  datatype Load = Load(language: string, translations: Dictionary)

  /** The state after the loads arrive, in the order given. */
  function ApplyLoads(st: TranslationsState, loads: seq<Load>): (r: TranslationsState)
    ensures r.currentLanguage == st.currentLanguage
    decreases |loads|
  {
    if loads == [] then st
    else ApplyLoads(WithLoaded(st, loads[0].language, loads[0].translations), loads[1..])
  }

  /** Once `b` is the current language, the header's loads and the shell's
      loads may arrive in any interleaving: loads for other languages are
      all dropped, and as soon as one load for `b` arrives its dictionary is
      the one kept. */
  lemma {:induction false} LoadsKeepLatestChoice(st: TranslationsState, db: Dictionary, loads: seq<Load>)
    requires forall i :: 0 <= i < |loads| && loads[i].language == st.currentLanguage ==> loads[i].translations == db
    ensures (forall i :: 0 <= i < |loads| ==> loads[i].language != st.currentLanguage) ==> ApplyLoads(st, loads) == st
    ensures (exists i :: 0 <= i < |loads| && loads[i].language == st.currentLanguage) ==>
      ApplyLoads(st, loads) == TranslationsState(st.currentLanguage, db)
    decreases |loads|
  {
    if loads != [] {
      var st1 := WithLoaded(st, loads[0].language, loads[0].translations);
      var rest := loads[1..];
      assert forall i :: 0 <= i < |rest| ==> rest[i] == loads[i + 1];
      LoadsKeepLatestChoice(st1, db, rest);
      if loads[0].language == st.currentLanguage {
        assert st1 == TranslationsState(st.currentLanguage, db);
      } else {
        assert st1 == st;
        if exists i :: 0 <= i < |loads| && loads[i].language == st.currentLanguage {
          var i :| 0 <= i < |loads| && loads[i].language == st.currentLanguage;
          assert rest[i - 1].language == st.currentLanguage;
        }
      }
    }
  }
}
