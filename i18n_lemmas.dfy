/** Properties of parameter substitution and language detection. */
module I18nLemmas {
  import opened Wrappers
  import opened Js
  import opened I18n

  /** A run of word characters ends where the first non-word character is. */
  lemma {:induction false} WordRunEndsAt(s: string, i: nat, j: nat)
    requires i <= j <= |s|
    requires forall k :: i <= k < j ==> IsWordChar(s[k])
    requires j == |s| || !IsWordChar(s[j])
    ensures WordRun(s, i) == j
    decreases j - i
  {
    if i < j {
      WordRunEndsAt(s, i + 1, j);
    }
  }

  /** Positions where no placeholder starts are copied as they are. */
  lemma {:induction false} SpanVerbatim(s: string, params: map<string, string>, i: nat, m: nat)
    requires i <= m <= |s|
    requires forall k :: i <= k < m ==> PlaceholderAt(s, k).None?
    ensures SubstituteFrom(s, params, i) == s[i..m] + SubstituteFrom(s, params, m)
    decreases m - i
  {
    if i < m {
      CopiedChar(s, params, i);
      SpanVerbatim(s, params, i + 1, m);
      PrependSpan(s, i, m, SubstituteFrom(s, params, i), SubstituteFrom(s, params, i + 1),
                  SubstituteFrom(s, params, m));
    }
  }

  /** One character in front of a copied span lengthens the span. */
  lemma PrependSpan(s: string, i: nat, m: nat, x: string, y: string, rest: string)
    requires i < m <= |s|
    requires x == [s[i]] + y && y == s[i + 1..m] + rest
    ensures x == s[i..m] + rest
  {
    assert s[i..m] == [s[i]] + s[i + 1..m];
  }

  /** A position where no placeholder starts is copied. */
  lemma CopiedChar(s: string, params: map<string, string>, i: nat)
    requires i < |s| && PlaceholderAt(s, i).None?
    ensures SubstituteFrom(s, params, i) == [s[i]] + SubstituteFrom(s, params, i + 1)
    ensures SubstituteFrom(s, params, i) == s[i..i + 1] + SubstituteFrom(s, params, i + 1)
  {
    assert s[i..i + 1] == [s[i]];
  }

  /** Without a truthy value for any name, every placeholder stays verbatim. */
  lemma {:induction false} FalsyParamsKeepText(s: string, params: map<string, string>, i: nat)
    requires i <= |s|
    requires forall name :: name in params ==> params[name] == ""
    ensures SubstituteFrom(s, params, i) == s[i..]
    decreases |s| - i
  {
    if i < |s| {
      match PlaceholderAt(s, i)
      case Some(j) =>
        assert !TruthyStr(ParamValue(params, s[i + 2..j]));
        KeptPlaceholder(s, params, i, j);
        FalsyParamsKeepText(s, params, j + 2);
        GlueTail(s, i, j + 2, SubstituteFrom(s, params, i), SubstituteFrom(s, params, j + 2));
      case None =>
        CopiedChar(s, params, i);
        FalsyParamsKeepText(s, params, i + 1);
        GlueTail(s, i, i + 1, SubstituteFrom(s, params, i), SubstituteFrom(s, params, i + 1));
    }
  }

  /** A placeholder without a truthy value is copied as it is. */
  lemma KeptPlaceholder(s: string, params: map<string, string>, i: nat, j: nat)
    requires i < |s| && PlaceholderAt(s, i) == Some(j)
    requires !TruthyStr(ParamValue(params, s[i + 2..j]))
    ensures SubstituteFrom(s, params, i) == s[i..j + 2] + SubstituteFrom(s, params, j + 2)
  {
    var v := StrOr(ParamValue(params, s[i + 2..j]), s[i..j + 2]);
    assert v == s[i..j + 2];
    assert SubstituteFrom(s, params, i) == v + SubstituteFrom(s, params, j + 2);
  }

  /** A copied piece followed by the copied rest is the whole tail. */
  lemma GlueTail(s: string, i: nat, k: nat, x: string, y: string)
    requires i < k <= |s|
    requires x == s[i..k] + y && y == s[k..]
    ensures x == s[i..]
  {
    assert s[i..] == s[i..k] + s[k..];
  }

  /** So `t` leaves a translation alone when no parameter has a value. */
  lemma SubstituteWithoutValues(s: string, params: map<string, string>)
    requires forall name :: name in params ==> params[name] == ""
    ensures Substitute(s, params) == s
  {
    if |params| > 0 {
      FalsyParamsKeepText(s, params, 0);
    }
  }

  /** No `{{` starts in `s[lo..hi]`. */
  predicate NoDoubleBraceIn(s: string, lo: nat, hi: nat) {
    forall k :: lo <= k && k + 1 < hi && k + 1 < |s| ==> !(s[k] == '{' && s[k + 1] == '{')
  }

  /** No placeholder starts before `m` when `s[..m]` holds no `{{` and
      `s[m + 1]` is a `{`: one starting at `m - 1` would need a word
      character there. */
  lemma NoPlaceholderBefore(s: string, m: nat, k: nat)
    requires m + 2 <= |s| && s[m + 1] == '{' && NoDoubleBraceIn(s, 0, m)
    requires k < m
    ensures PlaceholderAt(s, k).None?
  {
  }

  /** No placeholder starts in a tail without `{{`. */
  lemma NoPlaceholderAfter(s: string, n: nat, k: nat)
    requires NoDoubleBraceIn(s, n, |s|)
    requires n <= k < |s|
    ensures PlaceholderAt(s, k).None?
  {
  }

  /** A placeholder matches with the whole word run as its name. */
  lemma PlaceholderMatches(s: string, m: nat, j: nat)
    requires m + 2 < j && j + 2 <= |s|
    requires s[m] == '{' && s[m + 1] == '{' && s[j] == '}' && s[j + 1] == '}'
    requires forall k :: m + 2 <= k < j ==> IsWordChar(s[k])
    ensures PlaceholderAt(s, m) == Some(j)
  {
    WordRunEndsAt(s, m + 2, j);
  }

  /** The text before the placeholder is copied. */
  lemma PrefixCopied(s: string, params: map<string, string>, m: nat)
    requires m + 2 <= |s| && s[m + 1] == '{' && NoDoubleBraceIn(s, 0, m)
    ensures SubstituteFrom(s, params, 0) == s[..m] + SubstituteFrom(s, params, m)
  {
    forall k | 0 <= k < m ensures PlaceholderAt(s, k).None? {
      NoPlaceholderBefore(s, m, k);
    }
    SpanVerbatim(s, params, 0, m);
  }

  /** From the placeholder on: its replacement, then the tail. */
  lemma PlaceholderReplaced(s: string, params: map<string, string>, m: nat, j: nat)
    requires m + 2 < j && j + 2 <= |s|
    requires s[m] == '{' && s[m + 1] == '{' && s[j] == '}' && s[j + 1] == '}'
    requires forall k :: m + 2 <= k < j ==> IsWordChar(s[k])
    requires NoDoubleBraceIn(s, j + 2, |s|)
    ensures SubstituteFrom(s, params, m) == StrOr(ParamValue(params, s[m + 2..j]), s[m..j + 2]) + s[j + 2..]
  {
    PlaceholderMatches(s, m, j);
    forall k | j + 2 <= k < |s| ensures PlaceholderAt(s, k).None? {
      NoPlaceholderAfter(s, j + 2, k);
    }
    SpanVerbatim(s, params, j + 2, |s|);
    assert s[j + 2..|s|] == s[j + 2..];
  }

  /** A text with one placeholder `s[m..j + 2]` (two braces, a name of word
      characters, two braces) and no other `{{` before or after it: the
      placeholder becomes its parameter's value when truthy and stays
      verbatim otherwise, and the text around it is kept. */
  lemma OnePlaceholder(s: string, params: map<string, string>, m: nat, j: nat)
    requires m + 2 < j && j + 2 <= |s|
    requires s[m] == '{' && s[m + 1] == '{' && s[j] == '}' && s[j + 1] == '}'
    requires forall k :: m + 2 <= k < j ==> IsWordChar(s[k])
    requires NoDoubleBraceIn(s, 0, m) && NoDoubleBraceIn(s, j + 2, |s|)
    ensures Substitute(s, params) == s[..m] + StrOr(ParamValue(params, s[m + 2..j]), s[m..j + 2]) + s[j + 2..]
  {
    if |params| == 0 {
      assert ParamValue(params, s[m + 2..j]).None?;
      assert s == s[..m] + s[m..j + 2] + s[j + 2..];
    } else {
      PrefixCopied(s, params, m);
      PlaceholderReplaced(s, params, m, j);
    }
  }

  // ------------------------------------------------------------ detection

  /** The supported codes are two lower-case letters. */
  lemma SupportedCodesHaveNoHyphen(code: string)
    requires code in SUPPORTED
    ensures '-' !in code && |code| == 2
  {
  }

  /** The second check of `detectBrowserLanguage` (the whole tag, lower-cased)
      never decides: a whole tag that is supported has no hyphen, so its
      primary code is the same string and the first check already took it. */
  lemma WholeTagCheckIsSubsumed(tag: string)
    requires ToLower(tag) in SUPPORTED
    ensures PrimaryCode(tag) == ToLower(tag)
  {
    SupportedCodesHaveNoHyphen(ToLower(tag));
    SplitWithoutSeparator(tag, '-');
  }

  /** A supported browser tag wins over the preference list. */
  lemma BrowserTagWins(language: Option<string>, userLanguage: Option<string>, languages: Option<seq<string>>)
    requires PrimaryCode(BrowserTag(language, userLanguage)) in SUPPORTED
    ensures DetectedLanguage(language, userLanguage, languages) == PrimaryCode(BrowserTag(language, userLanguage))
  {
  }

  /** Otherwise the first preferred language whose primary code is supported
      is taken, in list order. */
  lemma PreferencesSearchedInOrder(language: Option<string>, userLanguage: Option<string>, langs: seq<string>, i: nat)
    requires PrimaryCode(BrowserTag(language, userLanguage)) !in SUPPORTED
    requires i < |langs| && PrimaryCode(langs[i]) in SUPPORTED
    requires forall k :: 0 <= k < i ==> PrimaryCode(langs[k]) !in SUPPORTED
    ensures DetectedLanguage(language, userLanguage, Some(langs)) == PrimaryCode(langs[i])
  {
    var tag := BrowserTag(language, userLanguage);
    if ToLower(tag) in SUPPORTED {
      WholeTagCheckIsSubsumed(tag);
    }
    FirstSupportedIsFirst(langs, i);
  }

  /** With nothing supported anywhere, English is chosen. */
  lemma EnglishByDefault(language: Option<string>, userLanguage: Option<string>, languages: Option<seq<string>>)
    requires PrimaryCode(BrowserTag(language, userLanguage)) !in SUPPORTED
    requires languages.Some? ==> forall k :: 0 <= k < |languages.value| ==> PrimaryCode(languages.value[k]) !in SUPPORTED
    ensures DetectedLanguage(language, userLanguage, languages) == "en"
  {
    var tag := BrowserTag(language, userLanguage);
    if ToLower(tag) in SUPPORTED {
      WholeTagCheckIsSubsumed(tag);
    }
  }

  /** Of the supported languages only Arabic is written right to left. */
  lemma OnlyArabicIsRightToLeft(code: string)
    requires code in SUPPORTED
    ensures Direction(code) == "rtl" <==> code == "ar"
  {
  }
}
