/** The language hook: translation lookup that falls back to the key, and
    switching between the two interface languages. */
module UseLanguage {
  import opened Types
  import opened AppStore

  /** One language's strings, by key. The string tables themselves are not
      part of this model; they are a parameter. */
  type Translations = map<Language, map<string, string>>

  /** `t(key)`: the string for `key` in the current language when it is
      present and non-empty, otherwise the key itself. */
  function Translate(translations: Translations, language: Language, key: string): (r: string)
    ensures language in translations && key in translations[language] && translations[language][key] != ""
            ==> r == translations[language][key]
    ensures !(language in translations && key in translations[language] && translations[language][key] != "")
            ==> r == key
    ensures key != "" ==> r != ""
  {
    if language in translations && key in translations[language] && translations[language][key] != "" then
      translations[language][key]
    else
      key
  }

  /** A key with no string in either table reads the same in both languages. */
  lemma UntranslatedKeyIsLanguageIndependent(translations: Translations, key: string)
    requires forall l :: l in translations ==> key !in translations[l] || translations[l][key] == ""
    ensures Translate(translations, Zh, key) == Translate(translations, En, key) == key
  {
  }

  /** The language the toggle switches to. */
  function Other(language: Language): (r: Language)
    ensures r != language
  {
    if language == Zh then En else Zh
  }

  /** Switching twice comes back; the two languages are each other's other. */
  lemma OtherInvolution(language: Language)
    ensures Other(Other(language)) == language
    ensures language == Zh <==> Other(language) == En
  {
  }

  /** `toggleLanguage`: zh becomes en, anything else becomes zh. */
  method ToggleLanguage(store: Store)
    modifies store`language
    ensures store.language == Other(old(store.language))
    ensures store.language != old(store.language)
  {
    store.SetLanguage(if store.language == Zh then En else Zh);
  }
}
