/**
 * The dictionary choice `TranslationProvider` makes before it builds the
 * translate function: the starting locale, and which dictionary that locale
 * selects (or the error it raises).
 */
module Provider {
  import opened Wrappers
  import opened Paths

  /** `a || b` on two optional locale codes: an absent or empty code is falsy. */
  function InitialLocale(propsDefault: Option<string>, optionsDefault: Option<string>): (locale: Option<string>)
    ensures propsDefault.Some? && propsDefault.value != "" ==> locale == propsDefault
    ensures (propsDefault.None? || propsDefault.value == "") ==> locale == optionsDefault
  {
    if propsDefault.Some? && propsDefault.value != "" then propsDefault else optionsDefault
  }

  /** The property key a locale is looked up under; an undefined locale becomes "undefined". */
  function LocaleKey(locale: Option<string>): string
  {
    if locale.Some? then locale.value else "undefined"
  }

  /** The message of the error raised when no dictionary can be chosen. */
  function MissingLocaleMessage(locale: Option<string>): string
  {
    "Translation dictionary for locale \"" + LocaleKey(locale) + "\" not provided."
  }

  /**
   * The dictionary handed to the translate function: the locale's own when
   * `translations` has it, the default otherwise; an error exactly when
   * there is neither.
   */
  function SelectDictionary(translations: Option<map<string, Dict>>, locale: Option<string>,
                            defaultTranslation: Option<Dict>): (r: Result<Dict, string>)
    ensures var all := if translations.Some? then translations.value else map[];
            r.Failure? <==> defaultTranslation.None? && LocaleKey(locale) !in all
    ensures r.Failure? ==> r.error == MissingLocaleMessage(locale)
    ensures translations.Some? && LocaleKey(locale) in translations.value ==>
              r == Success(translations.value[LocaleKey(locale)])
    ensures (translations.None? || LocaleKey(locale) !in translations.value) && defaultTranslation.Some? ==>
              r == Success(defaultTranslation.value)
  {
    var all := if translations.Some? then translations.value else map[];
    var key := LocaleKey(locale);
    if defaultTranslation.None? && key !in all then Failure(MissingLocaleMessage(locale))
    else if key in all then Success(all[key])
    else Success(defaultTranslation.value)
  }

  /** With a default dictionary the provider never fails, whatever the locale. */
  lemma DefaultNeverFails(translations: Option<map<string, Dict>>, locale: Option<string>, defaultTranslation: Dict)
    ensures SelectDictionary(translations, locale, Some(defaultTranslation)).Success?
  {
  }

  /**
   * The result is always one of the dictionaries supplied: a locale's entry
   * of `translations` or the default.
   */
  lemma SelectedIsSupplied(translations: map<string, Dict>, locale: Option<string>, defaultTranslation: Option<Dict>)
    requires SelectDictionary(Some(translations), locale, defaultTranslation).Success?
    ensures var d := SelectDictionary(Some(translations), locale, defaultTranslation).value;
            (exists k :: k in translations && translations[k] == d) || defaultTranslation == Some(d)
  {
  }

  /** An undefined locale selects exactly what the locale named "undefined" selects. */
  lemma UndefinedLocale(translations: Option<map<string, Dict>>, defaultTranslation: Option<Dict>)
    ensures SelectDictionary(translations, None, defaultTranslation) ==
            SelectDictionary(translations, Some("undefined"), defaultTranslation)
  {
  }

  /** The text of the message between a prefix and a suffix of known lengths. */
  lemma Between(p: string, x: string, q: string)
    ensures (p + x + q)[|p|..|p + x + q| - |q|] == x
  {
    assert (p + x + q)[|p|..|p| + |x|] == x;
  }

  /** The error message names the locale: different locale keys give different messages. */
  lemma MessageNamesLocale(a: Option<string>, b: Option<string>)
    ensures MissingLocaleMessage(a) == MissingLocaleMessage(b) ==> LocaleKey(a) == LocaleKey(b)
  {
    var p := "Translation dictionary for locale \"";
    var q := "\" not provided.";
    assert MissingLocaleMessage(a) == p + LocaleKey(a) + q;
    assert MissingLocaleMessage(b) == p + LocaleKey(b) + q;
    Between(p, LocaleKey(a), q);
    Between(p, LocaleKey(b), q);
  }
}
