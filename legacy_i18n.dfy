/** The older i18n set-up: it starts in German when the browser asks for
    it and in English otherwise, with no stored preference. */
module LegacyI18n {
  import opened Wrappers
  import AppI18n

  /** The language i18next falls back to for a missing key. */
  const FallbackLanguage: string := "en"

  /** `detectedLanguage` of the older set-up. */
  function DetectLanguage(navigatorLanguage: Option<string>): (r: string)
    ensures r == "en" || r == "de"
    ensures r == "de" <==> navigatorLanguage.Some? && AppI18n.IsGermanTag(navigatorLanguage.value)
  {
    AppI18n.BrowserPrefersGermanIff(navigatorLanguage);
    if AppI18n.BrowserPrefersGerman(navigatorLanguage) then "de" else "en"
  }

  /** Without a usable stored preference the two set-ups start in the same
      language. (Both also fall back to English: `FallbackLanguage` here
      and in `AppI18n` are the same constant "en".) */
  lemma AgreesWithApp(stored: Option<string>, navigatorLanguage: Option<string>)
    requires stored != Some("en") && stored != Some("de")
    ensures DetectLanguage(navigatorLanguage) == AppI18n.DetectLanguage(stored, navigatorLanguage)
  {
  }
}
