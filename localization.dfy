/**
 * Localised command descriptions (`localization.js`): `makeLoc(text)` builds
 * the object that gives the same description to every Discord locale other
 * than `en-US`, which is the default and needs no entry.
 */
module Localization {
  import opened Wrappers
  import opened Sorting
  import opened Objects

  /** The locales Discord accepts for command descriptions, in the order the source lists them. */
  const ALL_LOCALES: seq<string> := [
    "en-US", "en-GB", "bg", "zh-CN", "zh-TW", "hr", "cs", "da", "nl", "fi", "fr",
    "de", "el", "hi", "hu", "id", "it", "ja", "ko", "lt", "no", "pl",
    "pt-BR", "ro", "ru", "es-ES", "es-419", "sv-SE", "th", "tr", "uk", "vi"]

  const DEFAULT_LOCALE := "en-US"

  /** Whether a locale gets its own entry: every one but the default. */
  predicate Localised(code: string) {
    code != DEFAULT_LOCALE
  }

  /** What the loop of `makeLoc` has built after visiting `codes`. */
  function LocEntries(codes: seq<string>, text: string): (r: Entries<string>)
    decreases |codes|
  {
    if codes == [] then []
    else
      var o := LocEntries(codes[..|codes| - 1], text);
      var code := codes[|codes| - 1];
      if code == DEFAULT_LOCALE then o else Assign(o, code, text)
  }

  /**
   * `makeLoc(text)`: one entry per locale of `codes` except `en-US`, each
   * holding `text`. `codes` is the module's `ALL_LOCALES`.
   */
  method MakeLoc(codes: seq<string>, text: string) returns (o: Entries<string>)
    ensures o == LocEntries(codes, text)
  {
    o := [];
    var i := 0;
    while i < |codes|
      invariant 0 <= i <= |codes|
      invariant o == LocEntries(codes[..i], text)
    {
      var code := codes[i];
      LocStep(codes, i, text);
      if code != DEFAULT_LOCALE {
        o := Assign(o, code, text);
      }
      i := i + 1;
    }
    assert codes[..i] == codes;
  }

  /** One more visited code adds that code unless it is `en-US`. */
  lemma LocStep(codes: seq<string>, i: nat, text: string)
    requires i < |codes|
    ensures LocEntries(codes[..i + 1], text) ==
      if codes[i] == DEFAULT_LOCALE then LocEntries(codes[..i], text) else Assign(LocEntries(codes[..i], text), codes[i], text)
  {
    assert codes[..i + 1][..i] == codes[..i];
  }

  /**
   * Whatever the codes, the keys are the codes other than `en-US`, each once
   * in order of first appearance, and every value is `text`.
   */
  lemma {:induction false} LocEntriesShape(codes: seq<string>, text: string)
    ensures Keys(LocEntries(codes, text)) == Dedup(Filter(codes, Localised))
    ensures forall k :: k in Keys(LocEntries(codes, text)) ==> Get(LocEntries(codes, text), k) == Some(text)
    decreases |codes|
  {
    if codes != [] {
      var init, code := codes[..|codes| - 1], codes[|codes| - 1];
      assert codes == init + [code];
      LocEntriesShape(init, text);
      FilterAppend(init, code, Localised);
      var o := LocEntries(init, text);
      assert LocEntries(codes, text) == if code == DEFAULT_LOCALE then o else Assign(o, code, text);
      if code != DEFAULT_LOCALE {
        DedupAppend(Filter(init, Localised), code);
        var r := Assign(o, code, text);
        assert Filter(codes, Localised) == Filter(init, Localised) + [code];
        assert Keys(r) == if code in Keys(o) then Keys(o) else Keys(o) + [code];
        forall k | k in Keys(r)
          ensures Get(r, k) == Some(text)
        {
          if k != code {
            assert k in Keys(o);
          }
        }
      } else {
        assert Filter(codes, Localised) == Filter(init, Localised) + [];
        assert Filter(init, Localised) + [] == Filter(init, Localised);
      }
    }
  }

  /** The locale codes are distinct. */
  lemma AllLocalesDistinct()
    ensures forall i, j :: 0 <= i < j < |ALL_LOCALES| ==> ALL_LOCALES[i] != ALL_LOCALES[j]
  {
  }

  /**
   * `makeLoc(text)` over `ALL_LOCALES`: 31 entries, keyed by every locale but
   * `en-US` in list order, each holding `text`.
   */
  lemma MakeLocOfAllLocales(text: string)
    ensures var o := LocEntries(ALL_LOCALES, text);
      && Keys(o) == ALL_LOCALES[1..]
      && |o| == 31
      && DEFAULT_LOCALE !in Keys(o)
      && forall k :: k in Keys(o) ==> Get(o, k) == Some(text)
  {
    AllLocalesDistinct();
    var rest := ALL_LOCALES[1..];
    assert forall i, j :: 0 <= i < j < |rest| ==> rest[i] != rest[j] by {
      forall i, j | 0 <= i < j < |rest| ensures rest[i] != rest[j] {
        assert rest[i] == ALL_LOCALES[i + 1] && rest[j] == ALL_LOCALES[j + 1];
      }
    }
    assert DEFAULT_LOCALE !in rest by {
      forall i | 0 <= i < |rest| ensures rest[i] != DEFAULT_LOCALE {
        assert rest[i] == ALL_LOCALES[i + 1] && DEFAULT_LOCALE == ALL_LOCALES[0];
      }
    }
    FilterAll(rest, Localised);
    assert Filter(ALL_LOCALES, Localised) == rest;
    DedupDistinct(rest);
    LocEntriesShape(ALL_LOCALES, text);
  }
}
