/** The `I18n` (TextManager) message tables: the settings object, language
    selection, message lookup with fallback to the default language, and
    setup from the environment. The page URL's query and the browser's
    language tag are inputs; the alert of `help` is not modelled. */
module I18n {
  import opened Options

  /** One language's messages: key to text. A message counts as present
      when it is a non-empty string (JavaScript truthiness). */
  type Language = map<string, string>

  /** `manager.settings`. `defaultLanguageParam` is not among the defaults,
      so it starts out `undefined` (None). */
  datatype Settings = Settings(
    auto: bool,
    languageParam: string,
    defaultLanguageParam: Option<string>,
    defaultLanguage: string,
    language: string,
    languages: map<string, Language>,
    languageFormat: string,
    characterSet: string)

  /** TextManager.Settings(). */
  const DefaultSettings := Settings(true, "language", None, "", "", map[], "iso639-3", "standard")

  /** The keys an object passed to setup may carry; absent keys are None. */
  datatype SettingsUpdate = SettingsUpdate(
    auto: Option<bool>,
    languageParam: Option<string>,
    defaultLanguageParam: Option<string>,
    defaultLanguage: Option<string>,
    language: Option<string>,
    languages: Option<map<string, Language>>,
    languageFormat: Option<string>,
    characterSet: Option<string>)

  /** The key-copying loop of setup: each supplied key overwrites its
      setting, and every other setting stays. */
  function Override(s: Settings, u: SettingsUpdate): Settings {
    Settings(
      if u.auto.Some? then u.auto.value else s.auto,
      if u.languageParam.Some? then u.languageParam.value else s.languageParam,
      if u.defaultLanguageParam.Some? then u.defaultLanguageParam else s.defaultLanguageParam,
      if u.defaultLanguage.Some? then u.defaultLanguage.value else s.defaultLanguage,
      if u.language.Some? then u.language.value else s.language,
      if u.languages.Some? then u.languages.value else s.languages,
      if u.languageFormat.Some? then u.languageFormat.value else s.languageFormat,
      if u.characterSet.Some? then u.characterSet.value else s.characterSet)
  }

  /** The names `check` refuses under the iso639-3 format. */
  const NonIsoNames: set<string> := {"en", "jp", "english", "japanese"}

  /** TextManager.check: fails exactly when the format is iso639-3 and a
      language is keyed by one of the common non-ISO names. */
  function Check(s: Settings): (ok: bool)
    ensures !ok <==> s.languageFormat == "iso639-3" && exists name :: name in NonIsoNames && name in s.languages
  {
    !(s.languageFormat == "iso639-3" &&
      ("en" in s.languages || "jp" in s.languages || "english" in s.languages || "japanese" in s.languages))
  }

  /** `language && settings.languages[language]`: the condition under which
      setLanguage and setDefaultLanguage accept a name. */
  predicate Selectable(s: Settings, l: string) {
    l != "" && l in s.languages
  }

  /** The settings after setLanguage(l). */
  function WithLanguage(s: Settings, l: string): Settings {
    if Selectable(s, l) then s.(language := l) else s
  }

  /** The settings after setDefaultLanguage(l). */
  function WithDefaultLanguage(s: Settings, l: string): Settings {
    if Selectable(s, l) then s.(defaultLanguage := l) else s
  }

  /** TextManager.getCommonLanguageData for the name `l` a setting holds:
      that language's table, or null. */
  function LanguageData(s: Settings, l: string): (r: Option<Language>)
    ensures r.Some? <==> l in s.languages
    ensures r.Some? ==> r.value == s.languages[l]
  {
    if l in s.languages then Some(s.languages[l]) else None
  }

  /** `data && data[key]`: the table holds a non-empty message for `key`. */
  predicate HasMessage(data: Option<Language>, key: string) {
    data.Some? && key in data.value && data.value[key] != ""
  }

  /** TextManager.getMessage: the current language's message if present,
      otherwise the default language's, otherwise the empty string. */
  function GetMessage(s: Settings, key: string): (r: string)
    ensures HasMessage(LanguageData(s, s.language), key) ==> r == s.languages[s.language][key]
    ensures !HasMessage(LanguageData(s, s.language), key) && HasMessage(LanguageData(s, s.defaultLanguage), key) ==>
              r == s.languages[s.defaultLanguage][key]
    ensures r != "" <==>
              HasMessage(LanguageData(s, s.language), key) || HasMessage(LanguageData(s, s.defaultLanguage), key)
  {
    var current := LanguageData(s, s.language);
    if current.Some? && key in current.value && current.value[key] != "" then current.value[key]
    else
      var default := LanguageData(s, s.defaultLanguage);
      if default.Some? && key in default.value && default.value[key] != "" then default.value[key]
      else ""
  }

  /** TextManager.getMessageArray: `keys.map(getMessage)`. */
  function GetMessageArray(s: Settings, keys: seq<string>): (r: seq<string>)
    ensures |r| == |keys|
    ensures forall i :: 0 <= i < |keys| ==> r[i] == GetMessage(s, keys[i])
  {
    if keys == [] then [] else [GetMessage(s, keys[0])] + GetMessageArray(s, keys[1..])
  }

  /** The settings after setMessage(key, val) succeeded: the message is
      written into the current language's table, which `languages` holds. */
  function WithMessage(s: Settings, key: string, val: string): Settings
    requires s.language in s.languages
  {
    s.(languages := s.languages[s.language := s.languages[s.language][key := val]])
  }

  /** `l.split('-')[0]`: the part of a language tag before its first '-'. */
  function BrowserLanguageKey(tag: string): (r: string)
    ensures r <= tag
    ensures '-' !in r
    ensures |r| == |tag| || tag[|r|] == '-'
  {
    if tag == [] || tag[0] == '-' then [] else [tag[0]] + BrowserLanguageKey(tag[1..])
  }

  /** `searchParams.get(name)`: the query value, or null. */
  function QueryGet(query: map<string, string>, name: string): Option<string> {
    if name in query then Some(query[name]) else None
  }

  /** A parameter name as searchParams.get sees it: `undefined` becomes the
      string "undefined". */
  function ParamName(name: Option<string>): string {
    if name.Some? then name.value else "undefined"
  }

  /** `keys.x || fallback` for an optional string key. */
  function KeyOr(key: Option<string>, fallback: Option<string>): Option<string> {
    if key.Some? && key.value != "" then key else fallback
  }

  /** `value ? set(value) : false` */
  predicate Applies(s: Settings, value: Option<string>) {
    value.Some? && value.value != "" && Selectable(s, value.value)
  }

  /** TextManager.setLanguageFromUrlParam: the settings afterwards, and
      whether the current and the default language were set. Both values
      are read from the URL before either is applied. */
  function FromUrlParam(s: Settings, query: map<string, string>,
                        current: Option<string>, default: Option<string>): (Settings, bool, bool)
  {
    var cur := QueryGet(query, ParamName(KeyOr(current, Some(s.languageParam))));
    var def := QueryGet(query, ParamName(KeyOr(default, s.defaultLanguageParam)));
    var s1 := if cur.Some? && cur.value != "" then WithLanguage(s, cur.value) else s;
    var s2 := if def.Some? && def.value != "" then WithDefaultLanguage(s1, def.value) else s1;
    (s2, Applies(s, cur), Applies(s1, def))
  }

  /** TextManager.setLanguageFromEnvironment: the URL parameters first, and
      the browser language when the URL did not set the current language. */
  function FromEnvironment(s: Settings, query: map<string, string>, browserTag: string): Settings {
    var (s1, current, _) := FromUrlParam(s, query, None, None);
    if current then s1 else WithLanguage(s1, BrowserLanguageKey(browserTag))
  }

  /** TextManager(settings) after its setup: the manager object and its
      settings object, updated in place by the methods below. */
  class TextManager {
    var settings: Settings

    /** The settings object as TextManager.Settings builds it. */
    constructor ()
      ensures settings == DefaultSettings
    {
      settings := DefaultSettings;
    }

    /** TextManager.setup: copy the supplied keys, pick the language from
        the environment when `auto` is set, then fail (throw) when check
        does. */
    method Setup(update: Option<SettingsUpdate>, query: map<string, string>, browserTag: string) returns (ok: bool)
      modifies this
      ensures var s := if update.Some? then Override(old(settings), update.value) else old(settings);
              settings == if s.auto then FromEnvironment(s, query, browserTag) else s
      ensures ok == Check(settings)
    {
      if update.Some? {
        settings := Override(settings, update.value);
      }
      if settings.auto {
        SetLanguageFromEnvironment(query, browserTag);
      }
      ok := Check(settings);
    }

    /** TextManager.setLanguage. */
    method SetLanguage(l: string) returns (ok: bool)
      modifies this
      ensures ok == Selectable(old(settings), l)
      ensures settings == WithLanguage(old(settings), l)
      ensures ok ==> settings.language == l
    {
      if l != "" && l in settings.languages {
        settings := settings.(language := l);
        return true;
      }
      return false;
    }

    /** TextManager.setDefaultLanguage. */
    method SetDefaultLanguage(l: string) returns (ok: bool)
      modifies this
      ensures ok == Selectable(old(settings), l)
      ensures settings == WithDefaultLanguage(old(settings), l)
      ensures ok ==> settings.defaultLanguage == l
    {
      if l != "" && l in settings.languages {
        settings := settings.(defaultLanguage := l);
        return true;
      }
      return false;
    }

    /** TextManager.setMessage: writes into the current language's table;
        without one, changes nothing and returns false. Tables are values
        here, so a table shared by two language keys, or with the object
        the caller passed to setup, is not updated through those aliases. */
    method SetMessage(key: string, val: string) returns (ok: bool)
      modifies this
      ensures ok == (old(settings).language in old(settings).languages)
      ensures ok ==> settings == WithMessage(old(settings), key, val)
      ensures !ok ==> settings == old(settings)
    {
      var data := LanguageData(settings, settings.language);
      if data.Some? {
        settings := settings.(languages := settings.languages[settings.language := data.value[key := val]]);
        return true;
      }
      return false;
    }

    /** TextManager.setLanguageFromUrlParam. */
    method SetLanguageFromUrlParam(query: map<string, string>, current: Option<string>, default: Option<string>)
      returns (currentSet: bool, defaultSet: bool)
      modifies this
      ensures (settings, currentSet, defaultSet) == FromUrlParam(old(settings), query, current, default)
    {
      var cur := QueryGet(query, ParamName(KeyOr(current, Some(settings.languageParam))));
      var def := QueryGet(query, ParamName(KeyOr(default, settings.defaultLanguageParam)));
      currentSet, defaultSet := false, false;
      if cur.Some? && cur.value != "" {
        currentSet := SetLanguage(cur.value);
      }
      if def.Some? && def.value != "" {
        defaultSet := SetDefaultLanguage(def.value);
      }
    }

    /** TextManager.setLanguageFromBrowserLanguage. */
    method SetLanguageFromBrowserLanguage(browserTag: string)
      modifies this
      ensures settings == WithLanguage(old(settings), BrowserLanguageKey(browserTag))
    {
      var ok := SetLanguage(BrowserLanguageKey(browserTag));
    }

    /** TextManager.setLanguageFromEnvironment. */
    method SetLanguageFromEnvironment(query: map<string, string>, browserTag: string)
      modifies this
      ensures settings == FromEnvironment(old(settings), query, browserTag)
    {
      var current, default := SetLanguageFromUrlParam(query, None, None);
      if !current {
        SetLanguageFromBrowserLanguage(browserTag);
      }
    }

    /** TextManager.getMessageObject: each key mapped to its message. */
    method GetMessageObject(keys: seq<string>) returns (obj: map<string, string>)
      ensures obj.Keys == set k | k in keys
      ensures forall k :: k in obj ==> obj[k] == GetMessage(settings, k)
    {
      obj := map[];
      for i := 0 to |keys|
        invariant obj.Keys == set k | k in keys[..i]
        invariant forall k :: k in obj ==> obj[k] == GetMessage(settings, k)
      {
        assert keys[..i + 1] == keys[..i] + [keys[i]];
        obj := obj[keys[i] := GetMessage(settings, keys[i])];
      }
      assert keys[..|keys|] == keys;
    }

    /** TextManager.getAvailableLanguages: `Object.keys(languages)`, each
        language name once. */
    method GetAvailableLanguages() returns (names: seq<string>)
      ensures multiset(names) == multiset(settings.languages.Keys)
    {
      names := [];
      var rest := settings.languages.Keys;
      while rest != {}
        invariant rest <= settings.languages.Keys
        invariant multiset(names) + multiset(rest) == multiset(settings.languages.Keys)
        decreases rest
      {
        var l :| l in rest;
        names := names + [l];
        rest := rest - {l};
      }
    }
  }

  /** Setup only writes the keys it is given. */
  lemma OverrideKeepsUnsuppliedKeys(s: Settings, u: SettingsUpdate)
    ensures u.language.None? ==> Override(s, u).language == s.language
    ensures u.languages.None? ==> Override(s, u).languages == s.languages
    ensures u.language.Some? ==> Override(s, u).language == u.language.value
    ensures u == SettingsUpdate(None, None, None, None, None, None, None, None) ==> Override(s, u) == s
  {
  }

  /** After a successful setLanguage, the current language data is that
      language's table; a refused name leaves the selection as it was. */
  lemma SelectedLanguageHasData(s: Settings, l: string)
    ensures Selectable(s, l) ==> LanguageData(WithLanguage(s, l), WithLanguage(s, l).language) == Some(s.languages[l])
    ensures !Selectable(s, l) ==> WithLanguage(s, l) == s
  {
  }

  /** After setMessage(key, val) with a non-empty `val`, getMessage(key)
      returns `val`, and every other key's message is unchanged. */
  lemma SetMessageThenGetMessage(s: Settings, key: string, val: string, other: string)
    requires s.language in s.languages
    ensures val != "" ==> GetMessage(WithMessage(s, key, val), key) == val
    ensures other != key ==> GetMessage(WithMessage(s, key, val), other) == GetMessage(s, other)
  {
    var t := WithMessage(s, key, val);
    assert t.languages[t.language][key] == val;
  }

  /** When the current language lacks a message, the default language's is
      used, whatever the current table holds for other keys. */
  lemma MessageFallsBackToDefault(s: Settings, key: string)
    requires s.language !in s.languages
    requires s.defaultLanguage in s.languages
    ensures GetMessage(s, key) == if key in s.languages[s.defaultLanguage] then s.languages[s.defaultLanguage][key] else ""
  {
  }

  /** The browser key of a tag with a region is its language part, and a
      tag without '-' is its own key. */
  lemma {:induction false} BrowserKeyOfRegionTag(lang: string, region: string)
    requires '-' !in lang
    ensures BrowserLanguageKey(lang + "-" + region) == lang
    ensures BrowserLanguageKey(lang) == lang
  {
    if lang != [] {
      assert (lang + "-" + region)[1..] == lang[1..] + "-" + region;
      BrowserKeyOfRegionTag(lang[1..], region);
    }
  }

  /** The language picked by setup from the environment: the URL
      parameter's when it names a known language, otherwise the browser's
      when that names one, otherwise the one configured. */
  lemma EnvironmentChoosesUrlThenBrowser(s: Settings, query: map<string, string>, browserTag: string)
    ensures var cur := QueryGet(query, s.languageParam);
            var chosen := FromEnvironment(s, query, browserTag).language;
            && (Applies(s, cur) ==> chosen == cur.value)
            && (!Applies(s, cur) && Selectable(s, BrowserLanguageKey(browserTag)) ==>
                  chosen == BrowserLanguageKey(browserTag))
            && (!Applies(s, cur) && !Selectable(s, BrowserLanguageKey(browserTag)) ==> chosen == s.language)
  {
    var cur := QueryGet(query, s.languageParam);
    assert KeyOr(None, Some(s.languageParam)) == Some(s.languageParam);
    var (s1, current, _) := FromUrlParam(s, query, None, None);
    assert s1.languages == s.languages;
    assert !current ==> s1.language == s.language;
  }

  /** A manager whose languages include "en" fails setup under the
      default iso639-3 format. */
  method SetupRejectsEnglishKey(query: map<string, string>, browserTag: string) returns (ok: bool)
    ensures !ok
  {
    var manager := new TextManager();
    var update := SettingsUpdate(None, None, None, None, None, Some(map["en" := map[]]), None, None);
    ok := manager.Setup(Some(update), query, browserTag);
    assert "en" in manager.settings.languages;
  }
}
