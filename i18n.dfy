/**
 * Translation lookup: dictionaries of JSON values walked along a dotted
 * key, `{name}` placeholders filled from a table of variables, the
 * locale fallback chain of `t`, and the stored guild and user locales.
 * The `en-US` and `es-ES` dictionaries are loaded from JSON files and are
 * inputs here; every other known locale has an empty dictionary.
 */
module I18n {
  import opened Wrappers
  import opened Strings

  const DEFAULT_LOCALE := "en-US"

  /** The keys of `locales`, in declaration order. */
  const LOCALE_CODES: seq<string> := [
    "en-US", "es-ES", "en-GB", "bg", "zh-CN", "zh-TW", "hr", "cs", "da", "nl", "fi",
    "fr", "de", "el", "hi", "hu", "id", "it", "ja", "ko", "lt", "no",
    "pl", "pt-BR", "ro", "ru", "es-419", "sv-SE", "th", "tr", "uk", "vi"]

  /** A value of a locale dictionary. */
  datatype Json =
    | JStr(s: string)
    | JNum(n: int)
    | JBool(b: bool)
    | JNull
    | JObj(fields: map<string, Json>)

  /** JavaScript truthiness of a dictionary value. */
  predicate Truthy(v: Json) {
    match v
    case JStr(s) => s != ""
    case JNum(n) => n != 0
    case JBool(b) => b
    case JNull => false
    case JObj(_) => true
  }

  /** The state of the walk: a value, `undefined`, or a thrown `TypeError`. */
  datatype Lookup = Value(v: Json) | Undefined | Thrown

  // ---------------------------------------------------------------------------
  // get
  // ---------------------------------------------------------------------------

  /**
   * One step of the reduce in `get` as written: a falsy value gives
   * `undefined`, an object yields its field or `undefined`, and `k in o` on
   * any other truthy value (a non-empty string, a non-zero number, `true`)
   * throws.
   */
  function StepAsWritten(o: Lookup, k: string): (r: Lookup)
    ensures r == Thrown <==> o == Thrown || (o.Value? && Truthy(o.v) && !o.v.JObj?)
    ensures r.Value? <==> o.Value? && o.v.JObj? && k in o.v.fields
    ensures r.Value? ==> r.v == o.v.fields[k]
  {
    match o
    case Thrown => Thrown
    case Undefined => Undefined
    case Value(v) =>
      if !Truthy(v) then Undefined
      else if v.JObj? then (if k in v.fields then Value(v.fields[k]) else Undefined)
      else Thrown
  }

  function WalkAsWritten(o: Lookup, path: seq<string>): (r: Lookup)
    ensures r.Value? ==> o.Value?
    decreases |path|
  {
    if path == [] then o else WalkAsWritten(StepAsWritten(o, path[0]), path[1..])
  }

  /** `get(obj, key)` as written: it throws, or it agrees with the walk as intended. */
  function GetAsWritten(obj: Json, key: string): (r: Lookup)
    ensures r == Thrown || r == Get(obj, key)
  {
    WalksAgreeOrThrow(Value(obj), Split(key, "."));
    WalkAsWritten(Value(obj), Split(key, "."))
  }

  /**
   * One step of the walk as intended: only an object that holds the segment
   * yields a value; after a falsy value, a missing segment or a value that
   * cannot be looked into, the walk is `undefined`.
   */
  function Step(o: Lookup, k: string): (r: Lookup)
    ensures r != Thrown
    ensures r.Value? <==> o.Value? && o.v.JObj? && k in o.v.fields
    ensures r.Value? ==> r.v == o.v.fields[k]
  {
    match o
    case Thrown => Undefined
    case Undefined => Undefined
    case Value(v) =>
      if !Truthy(v) then Undefined
      else if v.JObj? then (if k in v.fields then Value(v.fields[k]) else Undefined)
      else Undefined
  }

  function Walk(o: Lookup, path: seq<string>): (r: Lookup)
    ensures r != Thrown || (o == Thrown && path == [])
    decreases |path|
  {
    if path == [] then o else Walk(Step(o, path[0]), path[1..])
  }

  /** `get(obj, key)`, yielding `undefined` where the code as written throws. */
  function Get(obj: Json, key: string): (r: Lookup)
    ensures r != Thrown
  {
    Walk(Value(obj), Split(key, "."))
  }

  /** Once a segment is missing, the rest of the walk stays `undefined`. */
  lemma {:induction false} MissingStaysMissing(path: seq<string>)
    ensures Walk(Undefined, path) == Undefined
    decreases |path|
  {
    if path != [] {
      MissingStaysMissing(path[1..]);
    }
  }

  /** A walk through nested objects that have every segment ends at the value under the last one. */
  lemma {:induction false} WalkFindsNested(obj: Json, path: seq<string>, v: Json)
    requires Reaches(obj, path, v)
    ensures Walk(Value(obj), path) == Value(v)
    decreases |path|
  {
    if path != [] {
      WalkFindsNested(obj.fields[path[0]], path[1..], v);
    }
  }

  /** The walk ends at a value exactly when that value sits under the path in nested objects. */
  lemma {:induction false} WalkValueReaches(obj: Json, path: seq<string>, v: Json)
    ensures Walk(Value(obj), path) == Value(v) <==> Reaches(obj, path, v)
    decreases |path|
  {
    if path != [] {
      var next := Step(Value(obj), path[0]);
      if next.Value? {
        WalkValueReaches(next.v, path[1..], v);
      } else {
        MissingStaysMissing(path[1..]);
      }
    }
  }

  /** `get(obj, key)` finds a value exactly when it sits under the key's segments. */
  lemma GetFinds(obj: Json, key: string, v: Json)
    ensures Get(obj, key) == Value(v) <==> Reaches(obj, Split(key, "."), v)
  {
    WalkValueReaches(obj, Split(key, "."), v);
  }

  /** A falsy value met before the last segment ends the walk in `undefined`. */
  lemma FalsyPartwayIsMissing(v: Json, path: seq<string>)
    requires !Truthy(v) && path != []
    ensures Walk(Value(v), path) == Undefined
    ensures WalkAsWritten(Value(v), path) == Undefined
  {
    MissingStaysMissing(path[1..]);
    UndefinedStaysAsWritten(path[1..]);
  }

  lemma {:induction false} UndefinedStaysAsWritten(path: seq<string>)
    ensures WalkAsWritten(Undefined, path) == Undefined
    decreases |path|
  {
    if path != [] {
      UndefinedStaysAsWritten(path[1..]);
    }
  }

  /** `get({a: ''}, 'a.b')` is `undefined`: the empty text ends the walk. */
  lemma EmptyTextPartwayIsMissing()
    ensures Get(JObj(map["a" := JStr("")]), "a.b") == Undefined
    ensures GetAsWritten(JObj(map["a" := JStr("")]), "a.b") == Undefined
  {
    var path := ["a", "b"];
    assert "a.b" == Join(path, ".");
    SplitJoin(path, '.');
    var dict := JObj(map["a" := JStr("")]);
    assert Step(Value(dict), "a") == Value(JStr(""));
    assert StepAsWritten(Value(dict), "a") == Value(JStr(""));
    assert path[1..] == ["b"];
    FalsyPartwayIsMissing(JStr(""), ["b"]);
  }

  /** `v` sits under the segments `path` of nested objects starting at `obj`. */
  predicate Reaches(obj: Json, path: seq<string>, v: Json)
    decreases |path|
  {
    if path == [] then obj == v
    else obj.JObj? && path[0] in obj.fields && Reaches(obj.fields[path[0]], path[1..], v)
  }

  /** The walk as written and as intended agree until it meets a truthy value that is not an object. */
  lemma {:induction false} WalksAgreeOrThrow(o: Lookup, path: seq<string>)
    requires o != Thrown
    ensures WalkAsWritten(o, path) == Thrown || WalkAsWritten(o, path) == Walk(o, path)
    decreases |path|
  {
    if path != [] {
      var next := StepAsWritten(o, path[0]);
      if next == Thrown {
        ThrownStays(path[1..]);
      } else {
        assert next == Step(o, path[0]);
        WalksAgreeOrThrow(next, path[1..]);
      }
    }
  }

  lemma {:induction false} ThrownStays(path: seq<string>)
    ensures WalkAsWritten(Thrown, path) == Thrown
    decreases |path|
  {
    if path != [] {
      ThrownStays(path[1..]);
    }
  }

  /** The segments of the sample key. */
  lemma SampleKeySegments()
    ensures Split("channels.general.name", ".") == ["channels", "general", "name"]
  {
    var path := ["channels", "general", "name"];
    assert "channels.general.name" == Join(path, ".");
    SplitJoin(path, '.');
  }

  /** The sample walk as written: the third segment is looked up on a string. */
  lemma SampleWalkAsWritten(inner: Json, dict: Json)
    requires inner == JObj(map["general" := JStr("general")]) && dict == JObj(map["channels" := inner])
    ensures WalkAsWritten(Value(dict), ["channels", "general", "name"]) == Thrown
  {
    var path := ["channels", "general", "name"];
    assert StepAsWritten(Value(dict), "channels") == Value(inner);
    assert path[1..] == ["general", "name"];
    assert StepAsWritten(Value(inner), "general") == Value(JStr("general"));
    assert path[1..][1..] == ["name"];
    assert StepAsWritten(Value(JStr("general")), "name") == Thrown;
    ThrownStays([]);
  }

  /** The sample walk as intended: the third segment is missing. */
  lemma SampleWalk(inner: Json, dict: Json)
    requires inner == JObj(map["general" := JStr("general")]) && dict == JObj(map["channels" := inner])
    ensures Walk(Value(dict), ["channels", "general", "name"]) == Undefined
  {
    var path := ["channels", "general", "name"];
    assert Step(Value(dict), "channels") == Value(inner);
    assert path[1..] == ["general", "name"];
    assert Step(Value(inner), "general") == Value(JStr("general"));
    assert path[1..][1..] == ["name"];
    assert Step(Value(JStr("general")), "name") == Undefined;
  }

  /** A key that walks past a text into a further segment throws as written and is missing as intended. */
  lemma KeyPastTextThrows()
    ensures var dict := JObj(map["channels" := JObj(map["general" := JStr("general")])]);
      && GetAsWritten(dict, "channels.general.name") == Thrown
      && Get(dict, "channels.general.name") == Undefined
  {
    var inner := JObj(map["general" := JStr("general")]);
    var dict := JObj(map["channels" := inner]);
    SampleKeySegments();
    SampleWalkAsWritten(inner, dict);
    SampleWalk(inner, dict);
  }

  // ---------------------------------------------------------------------------
  // format
  // ---------------------------------------------------------------------------

  /** `\w`: an ASCII letter, digit or underscore. */
  predicate IsWordChar(c: char) {
    ('a' <= c <= 'z') || ('A' <= c <= 'Z') || ('0' <= c <= '9') || c == '_'
  }

  /** The length of the run of word characters `s` starts with. */
  function WordRun(s: string): (n: nat)
    ensures n <= |s|
    ensures forall i :: 0 <= i < n ==> IsWordChar(s[i])
    ensures n < |s| ==> !IsWordChar(s[n])
  {
    if s == [] || !IsWordChar(s[0]) then 0 else 1 + WordRun(s[1..])
  }

  /** The length of the placeholder `{word}` at the start of `s`, or 0 when there is none. */
  function PlaceholderAt(s: string): (n: nat)
    ensures n == 0 || (3 <= n <= |s| && s[0] == '{' && s[n - 1] == '}')
  {
    if s == [] || s[0] != '{' then 0
    else
      var w := WordRun(s[1..]);
      if w > 0 && w + 1 < |s| && s[w + 1] == '}' then w + 2 else 0
  }

  /**
   * `format(str, vars)`: every `{word}` (left to right, not overlapping)
   * becomes `vars[word]` when the variable exists and stays as it is
   * otherwise. Variable values are already strings.
   */
  function Format(s: string, vars: map<string, string>): (r: string)
    ensures '{' !in s ==> r == s
    decreases |s|
  {
    if s == [] then []
    else
      var n := PlaceholderAt(s);
      if n == 0 then [s[0]] + Format(s[1..], vars)
      else
        var k := s[1..n - 1];
        (if k in vars then vars[k] else s[..n]) + Format(s[n..], vars)
  }

  /** With no variables every placeholder stays, so the text is unchanged. */
  lemma {:induction false} FormatWithoutVars(s: string)
    ensures Format(s, map[]) == s
    decreases |s|
  {
    if s != [] {
      var n := PlaceholderAt(s);
      if n == 0 {
        FormatWithoutVars(s[1..]);
        assert [s[0]] + s[1..] == s;
      } else {
        FormatWithoutVars(s[n..]);
        assert s[..n] + s[n..] == s;
      }
    }
  }

  /** A lone placeholder whose variable exists becomes that variable's value. */
  lemma FormatFills(k: string, vars: map<string, string>)
    requires k != "" && (forall i :: 0 <= i < |k| ==> IsWordChar(k[i])) && k in vars
    ensures Format("{" + k + "}", vars) == vars[k]
  {
    var s := "{" + k + "}";
    assert s[1..] == k + "}";
    WordRunOf(k, "}");
    assert s[1..|s| - 1] == k;
    assert s[|s|..] == [];
  }

  lemma {:induction false} WordRunOf(k: string, rest: string)
    requires forall i :: 0 <= i < |k| ==> IsWordChar(k[i])
    requires rest == [] || !IsWordChar(rest[0])
    ensures WordRun(k + rest) == |k|
    decreases |k|
  {
    if k != [] {
      assert (k + rest)[1..] == k[1..] + rest;
      WordRunOf(k[1..], rest);
    } else {
      assert k + rest == rest;
    }
  }

  // ---------------------------------------------------------------------------
  // t, channelName
  // ---------------------------------------------------------------------------

  /** The dictionaries read from the locale files. */
  datatype Catalog = Catalog(enUS: Json, esES: Json)

  /** `locales[locale] || locales[DEFAULT_LOCALE]`: an unknown locale means `en-US`. */
  function Dictionary(locale: string, cat: Catalog): (r: Json)
    ensures locale !in LOCALE_CODES ==> r == cat.enUS
    ensures locale in LOCALE_CODES && locale != "en-US" && locale != "es-ES" ==> r == JObj(map[])
  {
    if locale == "en-US" then cat.enUS
    else if locale == "es-ES" then cat.esES
    else if locale in LOCALE_CODES then JObj(map[])
    else cat.enUS
  }

  /** A translation whose value is a string is formatted; any other value is returned as it is. */
  function Render(v: Json, vars: map<string, string>): (r: Json)
    ensures v.JStr? ==> r == JStr(Format(v.s, vars))
    ensures !v.JStr? ==> r == v
  {
    if v.JStr? then JStr(Format(v.s, vars)) else v
  }

  /** Whether `??` keeps a looked-up value: it is neither `undefined` nor `null`. */
  predicate Found(l: Lookup) {
    l.Value? && l.v != JNull
  }

  /**
   * `t(locale, key, vars)`: the value under `key` in the locale's dictionary,
   * else in the `en-US` dictionary, else the key itself, a `null` or missing
   * value falling through each time; a string result is formatted with
   * `vars`. The result is never `null`.
   */
  function T(locale: string, key: string, vars: map<string, string>, cat: Catalog): (r: Json)
    ensures r != JNull
    ensures var own := Get(Dictionary(locale, cat), key);
      Found(own) ==> r == Render(own.v, vars)
    ensures var own, en := Get(Dictionary(locale, cat), key), Get(cat.enUS, key);
      !Found(own) && Found(en) ==> r == Render(en.v, vars)
    ensures var own, en := Get(Dictionary(locale, cat), key), Get(cat.enUS, key);
      !Found(own) && !Found(en) ==> r == JStr(Format(key, vars))
  {
    var own := Get(Dictionary(locale, cat), key);
    var base := if Found(own) then own.v
      else
        var fallback := Get(cat.enUS, key);
        if Found(fallback) then fallback.v else JStr(key);
    Render(base, vars)
  }

  /** A stored `null` falls through to `en-US` as a missing value does. */
  lemma NullFallsThrough()
    ensures var cat := Catalog(JObj(map["a" := JStr("fallback")]), JObj(map["a" := JNull]));
      T("es-ES", "a", map[], cat) == JStr("fallback")
  {
    var cat := Catalog(JObj(map["a" := JStr("fallback")]), JObj(map["a" := JNull]));
    assert "a" == Join(["a"], ".");
    SplitJoin(["a"], '.');
    assert Get(cat.esES, "a") == Value(JNull);
    assert Get(cat.enUS, "a") == Value(JStr("fallback"));
    FormatWithoutVars("fallback");
  }

  /** With no variables, rendering leaves a value as it is. */
  lemma RenderWithoutVars(v: Json)
    ensures Render(v, map[]) == v
  {
    if v.JStr? {
      FormatWithoutVars(v.s);
    }
  }

  /** A known locale without its own dictionary reads `en-US`, and a missing key falls back to the key. */
  lemma EmptyLocaleFallsBack(locale: string, key: string, vars: map<string, string>, cat: Catalog)
    requires locale in LOCALE_CODES && locale != "en-US" && locale != "es-ES"
    ensures T(locale, key, vars, cat) == T("en-US", key, vars, cat)
  {
    var path := Split(key, ".");
    if path != [] {
      assert path == [path[0]] + path[1..];
      MissingStaysMissing(path[1..]);
    }
  }

  /**
   * `channelName(locale, key)`: `t(locale, 'channels.' + key)` with no
   * variables, so the value found is returned unformatted: the locale's,
   * else the `en-US` one, else the dotted key, never `null`.
   */
  function ChannelName(locale: string, key: string, cat: Catalog): (r: Json)
    ensures r == T(locale, "channels." + key, map[], cat)
    ensures r != JNull
    ensures var own, en := Get(Dictionary(locale, cat), "channels." + key), Get(cat.enUS, "channels." + key);
      && (Found(own) ==> r == own.v)
      && (!Found(own) && Found(en) ==> r == en.v)
      && (!Found(own) && !Found(en) ==> r == JStr("channels." + key))
  {
    var own, en := Get(Dictionary(locale, cat), "channels." + key), Get(cat.enUS, "channels." + key);
    RenderWithoutVars(if own.Value? then own.v else JNull);
    RenderWithoutVars(if en.Value? then en.v else JNull);
    FormatWithoutVars("channels." + key);
    T(locale, "channels." + key, map[], cat)
  }

  /** A channel name whose key is missing or `null` everywhere is the dotted key itself. */
  lemma MissingChannelNameIsKey(locale: string, key: string, cat: Catalog)
    requires !Found(Get(Dictionary(locale, cat), "channels." + key)) && !Found(Get(cat.enUS, "channels." + key))
    ensures ChannelName(locale, key, cat) == JStr("channels." + key)
  {
  }

  // ---------------------------------------------------------------------------
  // getGuildLocale, getUserLocale, preferredLocale
  // ---------------------------------------------------------------------------

  /**
   * `getGuildLocale` and `getUserLocale`: the stored locale when there is a
   * non-empty one, else the fallback when non-empty, else `en-US`. A missing
   * row and a failed query both give `None` for `stored`.
   */
  function StoredLocale(stored: Option<string>, fallback: Option<string>): (r: string)
    ensures r != ""
    ensures stored.Some? && stored.value != "" ==> r == stored.value
    ensures !(stored.Some? && stored.value != "") && fallback.Some? && fallback.value != "" ==> r == fallback.value
    ensures !(stored.Some? && stored.value != "") && !(fallback.Some? && fallback.value != "") ==> r == DEFAULT_LOCALE
  {
    if stored.Some? && stored.value != "" then stored.value
    else if fallback.Some? && fallback.value != "" then fallback.value
    else DEFAULT_LOCALE
  }

  /**
   * `preferredLocale` as written: the user's locale when a user id is given,
   * else the guild's when a guild id is given, else the Discord locale,
   * else `en-US`. `userStored` and `guildStored` are what the two tables
   * hold. The user's locale is read with no fallback, so it is `en-US` when
   * the user has none stored.
   */
  function PreferredLocaleAsWritten(userId: Option<string>, guildId: Option<string>, discordLocale: Option<string>,
                                    userStored: Option<string>, guildStored: Option<string>): (r: string)
    ensures r != ""
  {
    var fromUser := if userId.Some? && userId.value != "" then Some(StoredLocale(userStored, None)) else None;
    if fromUser.Some? && fromUser.value != "" then fromUser.value
    else
      var fromGuild := if guildId.Some? && guildId.value != "" then Some(StoredLocale(guildStored, None)) else None;
      if fromGuild.Some? && fromGuild.value != "" then fromGuild.value
      else if discordLocale.Some? && discordLocale.value != "" then discordLocale.value
      else DEFAULT_LOCALE
  }

  /**
   * Because the stored locales are read with no fallback, they are never
   * empty: with a user id the answer is the user's locale or `en-US`, and
   * the guild and Discord locales are never consulted; with only a guild id
   * the Discord locale is never consulted.
   */
  lemma PreferredLocaleShadows(userId: Option<string>, guildId: Option<string>, discordLocale: Option<string>,
                               userStored: Option<string>, guildStored: Option<string>)
    ensures var r := PreferredLocaleAsWritten(userId, guildId, discordLocale, userStored, guildStored);
      && (userId.Some? && userId.value != "" ==>
            r == (if userStored.Some? && userStored.value != "" then userStored.value else DEFAULT_LOCALE)
            && forall g, d, gs :: PreferredLocaleAsWritten(userId, g, d, userStored, gs) == r)
      && (!(userId.Some? && userId.value != "") && guildId.Some? && guildId.value != "" ==>
            r == (if guildStored.Some? && guildStored.value != "" then guildStored.value else DEFAULT_LOCALE)
            && forall d :: PreferredLocaleAsWritten(userId, guildId, d, userStored, guildStored) == r)
      && (!(userId.Some? && userId.value != "") && !(guildId.Some? && guildId.value != "") ==>
            r == (if discordLocale.Some? && discordLocale.value != "" then discordLocale.value else DEFAULT_LOCALE))
  {
  }

  /** A locale that is given and not empty. */
  predicate Given(l: Option<string>) {
    l.Some? && l.value != ""
  }

  /**
   * `preferredLocale` as intended: the first of the user's stored locale,
   * the guild's stored locale and the Discord locale that is set, each
   * consulted only when its id is given; `en-US` when none is.
   */
  function PreferredLocale(userId: Option<string>, guildId: Option<string>, discordLocale: Option<string>,
                           userStored: Option<string>, guildStored: Option<string>): (r: string)
    ensures r != ""
  {
    if Given(userId) && Given(userStored) then userStored.value
    else if Given(guildId) && Given(guildStored) then guildStored.value
    else if Given(discordLocale) then discordLocale.value
    else DEFAULT_LOCALE
  }

  /**
   * The intended chain picks the first locale that is set, and `en-US`
   * only when none is; it agrees with the code as written whenever the
   * user has a stored locale, or no user id is given and the guild has a
   * stored locale or no guild id is given.
   */
  lemma PreferredLocaleChain(userId: Option<string>, guildId: Option<string>, discordLocale: Option<string>,
                             userStored: Option<string>, guildStored: Option<string>)
    ensures var r := PreferredLocale(userId, guildId, discordLocale, userStored, guildStored);
      && (!(Given(userId) && Given(userStored)) && !(Given(guildId) && Given(guildStored)) && !Given(discordLocale) ==> r == DEFAULT_LOCALE)
      && (Given(userId) && Given(userStored) ==> r == userStored.value)
      && (!(Given(userId) && Given(userStored)) && Given(guildId) && Given(guildStored) ==> r == guildStored.value)
      && (!(Given(userId) && Given(userStored)) && !(Given(guildId) && Given(guildStored)) && Given(discordLocale) ==> r == discordLocale.value)
    ensures (Given(userId) ==> Given(userStored)) && (!Given(userId) && Given(guildId) ==> Given(guildStored)) ==>
      PreferredLocale(userId, guildId, discordLocale, userStored, guildStored)
        == PreferredLocaleAsWritten(userId, guildId, discordLocale, userStored, guildStored)
  {
  }

  /**
   * A user with no stored locale in a Spanish guild: as written the answer
   * is `en-US`, as intended it is the guild's `es-ES`.
   */
  lemma UserWithoutLocaleIgnoresGuild()
    ensures PreferredLocaleAsWritten(Some("u"), Some("g"), Some("fr"), None, Some("es-ES")) == DEFAULT_LOCALE
    ensures PreferredLocale(Some("u"), Some("g"), Some("fr"), None, Some("es-ES")) == "es-ES"
  {
  }
}
