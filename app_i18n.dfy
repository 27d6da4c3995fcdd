/** The application's i18n set-up: which language it starts in. The
    stored preference (read from local storage under
    "applyvault.language", absent without a window) and the browser's
    language (absent without a navigator) are inputs. */
module AppI18n {
  import opened Wrappers
  import opened Text

  /** The language i18next falls back to for a missing key. */
  const FallbackLanguage: string := "en"

  /** A browser language tag that starts with "de" in any letter case. */
  predicate IsGermanTag(language: string) {
    |language| >= 2 && (language[0] == 'd' || language[0] == 'D') && (language[1] == 'e' || language[1] == 'E')
  }

  /** `navigator.language.toLowerCase().startsWith("de")` holds exactly for
      the tags whose first two letters are d and e in any case. */
  lemma LowerCasePrefixIsGermanTag(language: string)
    ensures StartsWith(ToLowerCase(language), "de") <==> IsGermanTag(language)
  {
    if |language| >= 2 {
      var lower := ToLowerCase(language);
      assert lower[..2] == [lower[0], lower[1]];
      assert "de" == ['d', 'e'];
    }
  }

  /** Whether the browser asks for German. */
  predicate BrowserPrefersGerman(navigatorLanguage: Option<string>) {
    navigatorLanguage.Some? && StartsWith(ToLowerCase(navigatorLanguage.value), "de")
  }

  lemma BrowserPrefersGermanIff(navigatorLanguage: Option<string>)
    ensures BrowserPrefersGerman(navigatorLanguage) <==> navigatorLanguage.Some? && IsGermanTag(navigatorLanguage.value)
  {
    if navigatorLanguage.Some? {
      LowerCasePrefixIsGermanTag(navigatorLanguage.value);
    }
  }

  /** `detectedLanguage`: a stored "en" or "de" wins; otherwise German
      when the browser asks for it; otherwise English. */
  function DetectLanguage(stored: Option<string>, navigatorLanguage: Option<string>): (r: string)
    ensures r == "en" || r == "de"
    ensures stored == Some("en") || stored == Some("de") ==> r == stored.value
    ensures !(stored == Some("en") || stored == Some("de")) ==>
      (r == "de" <==> navigatorLanguage.Some? && IsGermanTag(navigatorLanguage.value))
  {
    BrowserPrefersGermanIff(navigatorLanguage);
    if stored == Some("en") || stored == Some("de") then stored.value
    else if BrowserPrefersGerman(navigatorLanguage) then "de"
    else "en"
  }

  /** Some cases: an unsupported stored value is ignored, the browser tag
      is matched in any case, and a stored choice beats the browser. */
  lemma DetectionExamples()
    ensures DetectLanguage(Some("fr"), Some("de-DE")) == "de"
    ensures DetectLanguage(None, Some("DE-AT")) == "de"
    ensures DetectLanguage(Some("en"), Some("de")) == "en"
    ensures DetectLanguage(Some("de"), None) == "de"
    ensures DetectLanguage(None, Some("en-US")) == "en"
    ensures DetectLanguage(None, None) == "en"
  {
    assert IsGermanTag("de-DE") && IsGermanTag("DE-AT") && !IsGermanTag("en-US");
    assert Some("fr") != Some("en") && Some("fr") != Some("de");
  }
}
