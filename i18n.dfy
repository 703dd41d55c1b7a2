/**
 * Language selection: the language used at start-up (the saved choice, else
 * the browser's language when it is one of the four supported, else Chinese),
 * the hook that saves every change of language, and the date locale each
 * language is shown in.
 *
 * Local storage and the browser's language are parameters.
 */
module I18n {
  import opened Text
  import opened Model

  /** The supported languages, in the order the browser language is tested. */
  const Codes: seq<string> := ["zh", "en", "ja", "ko"]

  /** `s.toLowerCase()`, for the characters that can lower-case to ASCII letters. */
  function ToLower(s: string): (r: string)
    ensures |r| == |s| && forall i :: 0 <= i < |s| ==> r[i] == LowerChar(s[i])
  {
    if s == [] then [] else [LowerChar(s[0])] + ToLower(s[1..])
  }

  /**
   * `getSavedLanguage()`: a non-empty saved value is used as it is; otherwise
   * the lower-cased browser language is tested for the prefixes `zh`, `en`,
   * `ja`, `ko` in that order, and `zh` is the default.
   */
  function GetSavedLanguage(saved: Option<string>, browserLanguage: string): (lang: string)
    ensures saved.Some? && saved.value != [] ==> lang == saved.value
  {
    if saved.Some? && saved.value != [] then saved.value
    else if LowerStartsWith(browserLanguage, "zh") then "zh"
    else if LowerStartsWith(browserLanguage, "en") then "en"
    else if LowerStartsWith(browserLanguage, "ja") then "ja"
    else if LowerStartsWith(browserLanguage, "ko") then "ko"
    else "zh"
  }

  /**
   * Without a saved value, the language is the first code, in the order
   * `zh`, `en`, `ja`, `ko`, that the browser language starts with (ignoring
   * case), and `zh` when it starts with none.
   */
  lemma FirstMatchingCode(saved: Option<string>, browserLanguage: string)
    requires !(saved.Some? && saved.value != [])
    ensures var lang := GetSavedLanguage(saved, browserLanguage);
      (exists i :: 0 <= i < |Codes| && lang == Codes[i] && LowerStartsWith(browserLanguage, Codes[i]) &&
         forall j :: 0 <= j < i ==> !LowerStartsWith(browserLanguage, Codes[j])) ||
      (lang == "zh" && forall j :: 0 <= j < |Codes| ==> !LowerStartsWith(browserLanguage, Codes[j]))
  {
    var b := browserLanguage;
    if LowerStartsWith(b, "zh") {
      assert Codes[0] == "zh";
    } else if LowerStartsWith(b, "en") {
      assert Codes[1] == "en";
    } else if LowerStartsWith(b, "ja") {
      assert Codes[2] == "ja";
    } else if LowerStartsWith(b, "ko") {
      assert Codes[3] == "ko";
    }
  }

  /** The start-up language is the saved value or one of the four supported codes. */
  lemma SavedOrSupported(saved: Option<string>, browserLanguage: string)
    ensures var lang := GetSavedLanguage(saved, browserLanguage);
      (saved.Some? && lang == saved.value) || lang in Codes
  {
  }

  /** The browser language is matched whatever its case: lower-casing it first changes nothing. */
  lemma BrowserLanguageCaseIgnored(browserLanguage: string)
    ensures GetSavedLanguage(None, browserLanguage) == GetSavedLanguage(None, ToLower(browserLanguage))
  {
    LowerStartsWithToLower(browserLanguage, "zh");
    LowerStartsWithToLower(browserLanguage, "en");
    LowerStartsWithToLower(browserLanguage, "ja");
    LowerStartsWithToLower(browserLanguage, "ko");
  }

  /** Lower-casing is idempotent, so a lower-cased text starts with the same prefixes. */
  lemma LowerStartsWithToLower(s: string, p: string)
    ensures LowerStartsWith(ToLower(s), p) == LowerStartsWith(s, p)
  {
    var low := ToLower(s);
    forall i | 0 <= i < |p| && i < |s| ensures LowerChar(low[i]) == LowerChar(s[i]) {
    }
  }

  /** A regional tag in capitals, such as `ZH-TW`, selects Chinese. */
  lemma RegionalTagSelectsLanguage()
    ensures GetSavedLanguage(None, "ZH-TW") == "zh"
    ensures GetSavedLanguage(Some([]), "en-GB") == "en"
  {
    assert LowerStartsWith("ZH-TW", "zh");
    assert LowerChar("en-GB"[0]) != "zh"[0];
    assert LowerStartsWith("en-GB", "en");
  }

  /** The date locale for a language: `zh-CN`, `ja-JP`, `ko-KR`, otherwise `en-US`. */
  function LocaleFor(language: string): (locale: string)
    ensures language in Codes ==> IsPrefix(language, locale)
    ensures language !in ["zh", "ja", "ko"] ==> locale == "en-US"
  {
    if language == "zh" then "zh-CN"
    else if language == "ja" then "ja-JP"
    else if language == "ko" then "ko-KR"
    else "en-US"
  }

  /** The four supported languages get four different locales. */
  lemma LocalesAreDistinct(a: string, b: string)
    requires a in Codes && b in Codes && a != b
    ensures LocaleFor(a) != LocaleFor(b)
  {
    assert LocaleFor(a)[..2] == a;
    assert LocaleFor(b)[..2] == b;
  }

  /** The language in use and the value kept in local storage. */
  class LanguageStore {
    var language: string
    var saved: Option<string>

    /** Start-up: the language is chosen from what is stored and the browser's language. */
    constructor (stored: Option<string>, browserLanguage: string)
      ensures saved == stored
      ensures language == GetSavedLanguage(stored, browserLanguage)
    {
      saved := stored;
      language := GetSavedLanguage(stored, browserLanguage);
    }

    /**
     * `changeLanguage(lng)` and the `languageChanged` hook: the new language is
     * stored, so the next start-up picks it whatever the browser says.
     */
    method ChangeLanguage(lng: string)
      modifies this
      ensures language == lng && saved == Some(lng)
      ensures lng != [] ==> forall b :: GetSavedLanguage(saved, b) == lng
    {
      language := lng;
      saved := Some(lng);
    }
  }
}
