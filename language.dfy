/** The language setting: the translation lookup `t`, the language change
    that also writes the stored preference, and the initial language. The
    translation table is data and is given to the provider; the stored
    preference is the value under `'language'` in local storage. */
module Language {
  import opened Wrappers

  /** Language code to (key to text). */
  type Table = map<string, map<string, string>>

  const DefaultLanguage := "uz"

  /** `localStorage.getItem('language') || 'uz'`. */
  function InitialLanguage(stored: Option<string>): (language: string)
    ensures stored.Some? && stored.value != "" ==> language == stored.value
    ensures stored.None? || stored.value == "" ==> language == DefaultLanguage
  {
    if stored.Some? && stored.value != "" then stored.value else DefaultLanguage
  }

  /** `translations[language][key] || key`; the table must have the language. */
  function Translate(table: Table, language: string, key: string): (text: string)
    requires language in table
    ensures text == key || (key in table[language] && text == table[language][key])
    ensures key in table[language] && table[language][key] != "" ==> text == table[language][key]
    ensures key != "" ==> text != ""
  {
    if key in table[language] && table[language][key] != "" then table[language][key] else key
  }

  class LanguageProvider {
    const translations: Table
    var language: string
    /** The value stored under `'language'`. */
    var stored: Option<string>

    /** The provider as mounted: the stored language if there is one, else Uzbek. */
    constructor (translations: Table, stored: Option<string>)
      ensures this.translations == translations && this.stored == stored
      ensures language == InitialLanguage(stored)
    {
      this.translations := translations;
      this.stored := stored;
      language := InitialLanguage(stored);
    }

    /** `changeLanguage(lang)`: the language and the stored value become `lang`. */
    method ChangeLanguage(lang: string)
      modifies this`language, this`stored
      ensures language == lang && stored == Some(lang)
    {
      language := lang;
      stored := Some(lang);
    }

    /** `t(key)`: the current language's entry, or the key itself. */
    function T(key: string): (text: string)
      reads this
      requires language in translations
      ensures text == key || (key in translations[language] && text == translations[language][key])
      ensures key in translations[language] && translations[language][key] != "" ==> text == translations[language][key]
      ensures key != "" ==> text != ""
    {
      Translate(translations, language, key)
    }
  }

  /** `useLanguage()` outside a provider throws; inside it yields the provider. */
  datatype Lookup = Provided(provider: LanguageProvider) | Thrown(message: string)

  const OutsideProviderMessage := "useLanguage must be used within LanguageProvider"

  function UseLanguage(context: Option<LanguageProvider>): (r: Lookup)
    ensures context.None? <==> r.Thrown?
    ensures r.Thrown? ==> r.message == OutsideProviderMessage
    ensures r.Provided? ==> r.provider == context.value
  {
    if context.None? then Thrown(OutsideProviderMessage) else Provided(context.value)
  }

  /** After a change of language, a reload starts in that language. */
  method ChangeSurvivesReload(p: LanguageProvider, lang: string) returns (reloaded: LanguageProvider)
    requires lang != ""
    modifies p
    ensures reloaded.language == lang
  {
    p.ChangeLanguage(lang);
    reloaded := new LanguageProvider(p.translations, p.stored);
  }
}
