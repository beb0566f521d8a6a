/** The browser-side translator (`class I18n` in the public scripts): key
    lookup with an English fallback, `{{name}}` parameter substitution,
    text direction, language switching and browser-language detection.
    The translation dictionary is a constructor parameter; `localStorage`,
    `navigator` and the page are parameters or left out. */
module I18n {
  import opened Wrappers
  import opened Js

  type Dictionary = map<string, map<string, string>>

  /** The languages the detector accepts, in the order the code lists them. */
  const SUPPORTED: seq<string> := ["en", "fr", "es", "de", "pt", "it", "zh", "ja", "ru", "ar"]

  /** The right-to-left languages. */
  const RTL: seq<string> := ["ar", "he", "fa", "ur"]

  // ------------------------------------------------------------ lookup

  /** `translations[lang]?.[key]`. */
  function Lookup(translations: Dictionary, lang: string, key: string): (r: Option<string>)
    ensures r.Some? <==> lang in translations && key in translations[lang]
    ensures r.Some? ==> r.value == translations[lang][key]
  {
    if lang in translations && key in translations[lang] then Some(translations[lang][key]) else None
  }

  /** The translation `t` starts from: the current language's string when
      truthy, else the English one when truthy, else none. */
  function Resolve(translations: Dictionary, lang: string, key: string): (r: Option<string>)
    ensures TruthyStr(Lookup(translations, lang, key)) ==> r == Lookup(translations, lang, key)
    ensures !TruthyStr(Lookup(translations, lang, key)) && TruthyStr(Lookup(translations, "en", key)) ==>
      r == Lookup(translations, "en", key)
    ensures !TruthyStr(Lookup(translations, lang, key)) && !TruthyStr(Lookup(translations, "en", key)) ==> r.None?
    ensures r.Some? ==> r.value != ""
  {
    var own := Lookup(translations, lang, key);
    if TruthyStr(own) then own
    else
      var en := Lookup(translations, "en", key);
      if TruthyStr(en) then en else None
  }

  // ------------------------------------------------------------ placeholders

  /** The end of the run of `\w` characters starting at `i`. */
  function WordRun(s: string, i: nat): (j: nat)
    requires i <= |s|
    ensures i <= j <= |s|
    ensures forall k :: i <= k < j ==> IsWordChar(s[k])
    ensures j == |s| || !IsWordChar(s[j])
    decreases |s| - i
  {
    if i == |s| || !IsWordChar(s[i]) then i else WordRun(s, i + 1)
  }

  /** Where `/\{\{(\w+)\}\}/` matches at `i`: the end of the name. The name
      is all of the word run, since a shorter one is followed by a word
      character rather than `}`. */
  function PlaceholderAt(s: string, i: nat): (r: Option<nat>)
    requires i <= |s|
    ensures r.Some? ==> i + 2 < r.value && r.value + 2 <= |s|
    ensures r.Some? ==> s[i] == '{' && s[i + 1] == '{' && s[r.value] == '}' && s[r.value + 1] == '}'
    ensures r.Some? ==> forall k :: i + 2 <= k < r.value ==> IsWordChar(s[k])
  {
    if i + 2 <= |s| && s[i] == '{' && s[i + 1] == '{' then
      var j := WordRun(s, i + 2);
      if j > i + 2 && j + 2 <= |s| && s[j] == '}' && s[j + 1] == '}' then Some(j) else None
    else None
  }

  /** `params[name] || match`, with a missing name as `undefined`. */
  function ParamValue(params: map<string, string>, name: string): Option<string> {
    if name in params then Some(params[name]) else None
  }

  /** The replacement from position `i` on. */
  function SubstituteFrom(s: string, params: map<string, string>, i: nat): string
    requires i <= |s|
    decreases |s| - i
  {
    if i == |s| then ""
    else
      match PlaceholderAt(s, i)
      case Some(j) => StrOr(ParamValue(params, s[i + 2..j]), s[i..j + 2]) + SubstituteFrom(s, params, j + 2)
      case None => [s[i]] + SubstituteFrom(s, params, i + 1)
  }

  /** The parameter step of `t`: with no parameters the translation is kept
      as it is. */
  function Substitute(s: string, params: map<string, string>): (r: string)
    ensures |params| == 0 ==> r == s
  {
    if |params| == 0 then s else SubstituteFrom(s, params, 0)
  }

  // ------------------------------------------------------------ direction and names

  /** `getDirection`. */
  function Direction(lang: string): (r: string)
    ensures r == "rtl" || r == "ltr"
    ensures r == "rtl" <==> lang in RTL
  {
    if lang in RTL then "rtl" else "ltr"
  }

  /** `getLanguageName`: the endonym of a supported language, else the code. */
  function LanguageName(code: string): (r: string)
    ensures code !in SUPPORTED ==> r == code
    ensures code in SUPPORTED ==> r != "" && r != code
  {
    match code
    case "en" => "English"
    case "fr" => "Français"
    case "es" => "Español"
    case "de" => "Deutsch"
    case "pt" => "Português"
    case "it" => "Italiano"
    case "zh" => "中文"
    case "ja" => "日本語"
    case "ru" => "Русский"
    case "ar" => "العربية"
    case _ => code
  }

  // ------------------------------------------------------------ detection

  /** `tag.split('-')[0].toLowerCase()`. */
  function PrimaryCode(tag: string): (r: string)
    ensures '-' !in r
    ensures '-' !in tag ==> r == ToLower(tag)
  {
    assert '-' !in tag ==> Split(tag, '-') == [tag] by {
      if '-' !in tag {
        SplitWithoutSeparator(tag, '-');
      }
    }
    ToLower(Split(tag, '-')[0])
  }

  /** The first of the preferred languages whose primary code is supported. */
  function FirstSupported(langs: seq<string>): (r: Option<string>)
    ensures r.Some? ==> r.value in SUPPORTED
    ensures r.Some? ==> exists i :: (0 <= i < |langs| && PrimaryCode(langs[i]) == r.value &&
                                     forall k :: 0 <= k < i ==> PrimaryCode(langs[k]) !in SUPPORTED)
    ensures r.None? <==> forall i :: 0 <= i < |langs| ==> PrimaryCode(langs[i]) !in SUPPORTED
  {
    if langs == [] then None
    else if PrimaryCode(langs[0]) in SUPPORTED then Some(PrimaryCode(langs[0]))
    else
      var rest := FirstSupported(langs[1..]);
      if rest.Some? then
        ghost var i :| 0 <= i < |langs[1..]| && PrimaryCode(langs[1..][i]) == rest.value &&
          forall k :: 0 <= k < i ==> PrimaryCode(langs[1..][k]) !in SUPPORTED;
        assert PrimaryCode(langs[i + 1]) == rest.value;
        rest
      else
        assert forall i :: 1 <= i < |langs| ==> PrimaryCode(langs[i]) == PrimaryCode(langs[1..][i - 1]);
        rest
  }

  /** The browser's own tag: `navigator.language || navigator.userLanguage || 'en'`. */
  function BrowserTag(language: Option<string>, userLanguage: Option<string>): (r: string)
    ensures r != ""
    ensures TruthyStr(language) ==> r == language.value
    ensures !TruthyStr(language) ==> r == (if TruthyStr(userLanguage) then userLanguage.value else "en")
  {
    StrOr(language, StrOr(userLanguage, "en"))
  }

  /** `detectBrowserLanguage` over the given navigator values. */
  function DetectedLanguage(language: Option<string>, userLanguage: Option<string>, languages: Option<seq<string>>): (r: string)
    ensures r in SUPPORTED
  {
    var tag := BrowserTag(language, userLanguage);
    if PrimaryCode(tag) in SUPPORTED then PrimaryCode(tag)
    else if ToLower(tag) in SUPPORTED then ToLower(tag)
    else if languages.Some? && |languages.value| > 0 && FirstSupported(languages.value).Some? then
      FirstSupported(languages.value).value
    else "en"
  }

  /** The search loop of `detectBrowserLanguage`. */
  method DetectBrowserLanguage(language: Option<string>, userLanguage: Option<string>, languages: Option<seq<string>>)
      returns (code: string)
    ensures code == DetectedLanguage(language, userLanguage, languages)
    ensures code in SUPPORTED
  {
    var tag := BrowserTag(language, userLanguage);
    var primary := PrimaryCode(tag);
    if primary in SUPPORTED {
      return primary;
    }
    if ToLower(tag) in SUPPORTED {
      return ToLower(tag);
    }
    if languages.Some? && |languages.value| > 0 {
      var langs := languages.value;
      var i := 0;
      while i < |langs|
        invariant 0 <= i <= |langs|
        invariant forall k :: 0 <= k < i ==> PrimaryCode(langs[k]) !in SUPPORTED
      {
        var c := PrimaryCode(langs[i]);
        if c in SUPPORTED {
          FirstSupportedIsFirst(langs, i);
          return c;
        }
        i := i + 1;
      }
    }
    return "en";
  }

  /** The first supported entry is the one `FirstSupported` names. */
  lemma {:induction false} FirstSupportedIsFirst(langs: seq<string>, i: nat)
    requires i < |langs| && PrimaryCode(langs[i]) in SUPPORTED
    requires forall k :: 0 <= k < i ==> PrimaryCode(langs[k]) !in SUPPORTED
    ensures FirstSupported(langs) == Some(PrimaryCode(langs[i]))
    decreases i
  {
    if i > 0 {
      FirstSupportedIsFirst(langs[1..], i - 1);
    }
  }

  // ------------------------------------------------------------ the translator

  /** `class I18n`: the dictionary and the two fields the methods update. */
  class Translator {
    const translations: Dictionary
    var currentLanguage: string
    var direction: string

    /** The saved preference (else English) is taken unchecked. */
    constructor (translations: Dictionary, savedLang: Option<string>)
      ensures this.translations == translations
      ensures currentLanguage == StrOr(savedLang, "en")
      ensures direction == Direction(currentLanguage)
    {
      this.translations := translations;
      currentLanguage := StrOr(savedLang, "en");
      direction := Direction(StrOr(savedLang, "en"));
    }

    /** `t(key, params)`: the resolved translation with parameters
        substituted, or the key itself when neither the current language nor
        English has a non-empty string for it. */
    function T(key: string, params: map<string, string>): (r: string)
      reads this
      ensures Resolve(translations, currentLanguage, key).None? ==> r == key
      ensures Resolve(translations, currentLanguage, key).Some? && |params| == 0 ==>
        r == Resolve(translations, currentLanguage, key).value
    {
      match Resolve(translations, currentLanguage, key)
      case None => key
      case Some(text) => Substitute(text, params)
    }

    /** `setLanguage`: an unknown language falls back to English. */
    method SetLanguage(lang: string)
      modifies this
      ensures currentLanguage == (if lang in translations then lang else "en")
      ensures direction == Direction(currentLanguage)
    {
      var l := lang;
      if l !in translations {
        l := "en";
      }
      currentLanguage := l;
      direction := Direction(l);
    }

    /** `getCurrentLanguage`. */
    function CurrentLanguage(): (r: string)
      reads this
      ensures r == currentLanguage
    {
      currentLanguage
    }
  }
}
