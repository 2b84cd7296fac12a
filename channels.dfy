/**
 * Finding and naming the bot's channels in any of its locales (`channels.js`).
 * A channel that the bot created under one locale's name is still found after
 * the guild switches locale, because lookups accept every locale's name for
 * the channel's key, ignoring case.
 */
module Channels {
  import opened Wrappers
  import opened Strings
  import opened Sorting
  import opened I18n

  /** A channel of a guild, as the channel cache lists it. */
  datatype Channel = Channel(id: string, name: string, kind: nat)

  /** `ChannelType.GuildText`, the default kind looked up. */
  const GUILD_TEXT: nat := 0

  /** Whether a translation is kept as a candidate name: a non-empty string. */
  predicate Usable(v: Json) {
    v.JStr? && v.s != ""
  }

  /**
   * The usable channel names for `key`, one per locale of `codes` that has
   * one, in the order of `codes` (repeats kept).
   */
  function Translations(key: string, cat: Catalog, codes: seq<string>): (r: seq<string>)
    ensures |r| <= |codes|
    decreases |codes|
  {
    if codes == [] then []
    else
      var v := ChannelName(codes[|codes| - 1], key, cat);
      Translations(key, cat, codes[..|codes| - 1]) + (if Usable(v) then [v.s] else [])
  }

  /** A name is among the translations exactly when some locale of `codes` gives it. */
  lemma {:induction false} TranslationsMembers(key: string, cat: Catalog, codes: seq<string>)
    ensures forall n :: n in Translations(key, cat, codes) <==>
      exists c :: c in codes && ChannelName(c, key, cat) == JStr(n) && n != ""
    decreases |codes|
  {
    if codes != [] {
      var init, c := codes[..|codes| - 1], codes[|codes| - 1];
      assert codes == init + [c];
      TranslationsMembers(key, cat, init);
    }
  }

  /**
   * `namesForKey(key)`: every locale's name for the channel `key`, each once,
   * in the order in which the locales are listed. `codes` is what
   * `allLocaleCodes()` returns, `LOCALE_CODES`.
   */
  method NamesForKey(key: string, cat: Catalog, codes: seq<string>) returns (names: seq<string>)
    ensures names == Dedup(Translations(key, cat, codes))
  {
    names := [];
    var i := 0;
    while i < |codes|
      invariant 0 <= i <= |codes|
      invariant names == Dedup(Translations(key, cat, codes[..i]))
    {
      var n := ChannelName(codes[i], key, cat);
      NamesStep(key, cat, codes, i, names);
      if Usable(n) && n.s !in names {
        names := names + [n.s];
      }
      i := i + 1;
    }
    assert codes[..i] == codes;
  }

  /** One more locale adds its usable name, if it has one and it is new, to the names gathered. */
  lemma NamesStep(key: string, cat: Catalog, codes: seq<string>, i: nat, names: seq<string>)
    requires i < |codes|
    requires names == Dedup(Translations(key, cat, codes[..i]))
    ensures var v := ChannelName(codes[i], key, cat);
      Dedup(Translations(key, cat, codes[..i + 1])) == if Usable(v) && v.s !in names then names + [v.s] else names
  {
    assert codes[..i + 1][..i] == codes[..i];
    var before := Translations(key, cat, codes[..i]);
    var v := ChannelName(codes[i], key, cat);
    if Usable(v) {
      assert Translations(key, cat, codes[..i + 1]) == before + [v.s];
      DedupAppend(before, v.s);
    } else {
      assert Translations(key, cat, codes[..i + 1]) == before;
    }
  }

  /**
   * The names gathered for a key are exactly the usable translations of that
   * key in the known locales, with no name twice.
   */
  lemma NamesForKeyAreTranslations(key: string, cat: Catalog)
    ensures var names := Dedup(Translations(key, cat, LOCALE_CODES));
      && (forall n :: n in names <==> exists c :: c in LOCALE_CODES && ChannelName(c, key, cat) == JStr(n) && n != "")
      && (forall i, j :: 0 <= i < j < |names| ==> names[i] != names[j])
  {
    TranslationsMembers(key, cat, LOCALE_CODES);
    DedupFirstSeen(Translations(key, cat, LOCALE_CODES));
  }

  /** Every name lower-cased, in order. */
  function LowerAll(ss: seq<string>): (r: seq<string>)
    ensures |r| == |ss| && forall i :: 0 <= i < |ss| ==> r[i] == Lower(ss[i])
  {
    if ss == [] then [] else [Lower(ss[0])] + LowerAll(ss[1..])
  }

  /** Whether `ch` is of kind `kind` and its lower-cased name is one of `candidates`. */
  predicate Matches(ch: Channel, candidates: seq<string>, kind: nat) {
    ch.kind == kind && Lower(ch.name) in candidates
  }

  /** `channels.find(…) || null`: the first channel that matches, if any. */
  function FindChannel(channels: seq<Channel>, candidates: seq<string>, kind: nat): (r: Option<Channel>)
    ensures r.Some? ==> r.value in channels && Matches(r.value, candidates, kind)
    ensures r.None? <==> forall ch :: ch in channels ==> !Matches(ch, candidates, kind)
    ensures r.Some? ==> exists k :: (0 <= k < |channels| && channels[k] == r.value
      && forall j :: 0 <= j < k ==> !Matches(channels[j], candidates, kind))
  {
    if channels == [] then None
    else if Matches(channels[0], candidates, kind) then
      assert channels[0] == channels[0];
      Some(channels[0])
    else
      var r := FindChannel(channels[1..], candidates, kind);
      if r.Some? then
        var k :| 0 <= k < |channels[1..]| && channels[1..][k] == r.value
          && forall j :: 0 <= j < k ==> !Matches(channels[1..][j], candidates, kind);
        assert channels[k + 1] == r.value;
        r
      else
        r
  }

  /** Whether the name for `key` in some locale of `codes` equals `name` once both are lower-cased. */
  predicate NamedIn(name: string, key: string, cat: Catalog, codes: seq<string>) {
    exists c :: c in codes && Usable(ChannelName(c, key, cat)) && Lower(ChannelName(c, key, cat).s) == Lower(name)
  }

  /** Whether some locale's name for `key` equals `name` once both are lower-cased. */
  predicate NamedFor(name: string, key: string, cat: Catalog) {
    NamedIn(name, key, cat, LOCALE_CODES)
  }

  /**
   * `getChannelByKey(guild, key, type)`: the first channel of the guild, in
   * cache order, of the requested kind whose name is some locale's name for
   * `key` regardless of case; `None` stands for `null`.
   */
  method GetChannelByKey(channels: seq<Channel>, key: string, kind: nat, cat: Catalog) returns (r: Option<Channel>)
    ensures r.Some? ==> r.value in channels && r.value.kind == kind && NamedFor(r.value.name, key, cat)
    ensures r.None? <==> forall ch :: ch in channels && ch.kind == kind ==> !NamedFor(ch.name, key, cat)
    ensures r.Some? ==> exists k :: (0 <= k < |channels| && channels[k] == r.value
      && forall j :: 0 <= j < k ==> !(channels[j].kind == kind && NamedFor(channels[j].name, key, cat)))
  {
    var names := NamesForKey(key, cat, LOCALE_CODES);
    var candidates := LowerAll(names);
    CandidatesAreNamed(key, cat, LOCALE_CODES, names, candidates);
    r := FindChannel(channels, candidates, kind);
  }

  /** A lower-cased name is a candidate exactly when it names `key` in some locale of `codes`. */
  lemma CandidatesAreNamed(key: string, cat: Catalog, codes: seq<string>, names: seq<string>, candidates: seq<string>)
    requires names == Dedup(Translations(key, cat, codes))
    requires candidates == LowerAll(names)
    ensures forall name :: Lower(name) in candidates <==> NamedIn(name, key, cat, codes)
  {
    forall name
      ensures Lower(name) in candidates <==> NamedIn(name, key, cat, codes)
    {
      if Lower(name) in candidates {
        CandidateIsNamed(key, cat, codes, names, candidates, name);
      }
      if NamedIn(name, key, cat, codes) {
        NamedIsCandidate(key, cat, codes, names, candidates, name);
      }
    }
  }

  lemma CandidateIsNamed(key: string, cat: Catalog, codes: seq<string>, names: seq<string>, candidates: seq<string>, name: string)
    requires names == Dedup(Translations(key, cat, codes))
    requires candidates == LowerAll(names)
    requires Lower(name) in candidates
    ensures NamedIn(name, key, cat, codes)
  {
    var i :| 0 <= i < |candidates| && candidates[i] == Lower(name);
    TranslationsMembers(key, cat, codes);
    assert names[i] in Translations(key, cat, codes);
    var c :| c in codes && ChannelName(c, key, cat) == JStr(names[i]) && names[i] != "";
    assert Usable(ChannelName(c, key, cat)) && Lower(ChannelName(c, key, cat).s) == Lower(name);
  }

  lemma NamedIsCandidate(key: string, cat: Catalog, codes: seq<string>, names: seq<string>, candidates: seq<string>, name: string)
    requires names == Dedup(Translations(key, cat, codes))
    requires candidates == LowerAll(names)
    requires NamedIn(name, key, cat, codes)
    ensures Lower(name) in candidates
  {
    var c :| c in codes && Usable(ChannelName(c, key, cat)) && Lower(ChannelName(c, key, cat).s) == Lower(name);
    var n := ChannelName(c, key, cat).s;
    TranslationsMembers(key, cat, codes);
    assert n in Translations(key, cat, codes);
    assert n in names;
    var i :| 0 <= i < |names| && names[i] == n;
    assert candidates[i] == Lower(name);
  }

  /**
   * `ensureChannelName(guild, channel, key)`: the name the channel is to be
   * renamed to, if any. The locale is the guild's stored locale, else the
   * guild's preferred locale, else `en-US`; the desired name is that
   * locale's name for `key`, and a rename is asked for exactly when the
   * channel exists and its name differs. A failed rename is ignored, so its
   * outcome is not part of the model.
   */
  function EnsureChannelName(channel: Option<Channel>, guildStored: Option<string>, preferred: Option<string>,
                             key: string, cat: Catalog): (r: Option<Json>)
    ensures r.Some? <==> channel.Some? && JStr(channel.value.name) != ChannelName(GuildLocale(guildStored, preferred), key, cat)
    ensures r.Some? ==> r.value == ChannelName(GuildLocale(guildStored, preferred), key, cat)
  {
    var desired := ChannelName(GuildLocale(guildStored, preferred), key, cat);
    if channel.Some? && JStr(channel.value.name) != desired then Some(desired) else None
  }

  /** `getGuildLocale(guild.id, guild.preferredLocale || 'en-US')`. */
  function GuildLocale(guildStored: Option<string>, preferred: Option<string>): (r: string)
    ensures r != ""
  {
    StoredLocale(guildStored, Some(if preferred.Some? && preferred.value != "" then preferred.value else DEFAULT_LOCALE))
  }

  /**
   * Renaming settles: once a channel carries the name asked for, a second
   * call asks for nothing. A channel renamed to a usable name is found again
   * by `getChannelByKey`, whatever locale the guild stores, since an unknown
   * locale reads the `en-US` names.
   */
  lemma RenameSettles(channel: Channel, guildStored: Option<string>, preferred: Option<string>, key: string, cat: Catalog)
    ensures var r := EnsureChannelName(Some(channel), guildStored, preferred, key, cat);
      r.Some? && Usable(r.value) ==>
        && EnsureChannelName(Some(channel.(name := r.value.s)), guildStored, preferred, key, cat) == None
        && NamedFor(r.value.s, key, cat)
  {
    var locale := GuildLocale(guildStored, preferred);
    var desired := ChannelName(locale, key, cat);
    if Usable(desired) {
      if locale in LOCALE_CODES {
        assert Lower(ChannelName(locale, key, cat).s) == Lower(desired.s);
      } else {
        assert Dictionary(locale, cat) == Dictionary(DEFAULT_LOCALE, cat);
        assert ChannelName(DEFAULT_LOCALE, key, cat) == desired;
        assert DEFAULT_LOCALE in LOCALE_CODES;
      }
    }
  }
}
