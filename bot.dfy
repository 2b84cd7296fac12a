/**
 * The decisions `bot.js` makes on its own: packing a documentation text into
 * messages of at most 1900 characters, the keyword summary of
 * `/history`, the patches behind the study-tip panel buttons, and the
 * study-tips scheduler tick with the next send it stores.
 */
module Bot {
  import opened Wrappers
  import opened Strings
  import opened Sorting
  import ST = StudyTips

  // ---------------------------------------------------------------------------
  // updateDocumentationMessage: the chunker
  // ---------------------------------------------------------------------------

  const MAX_CHUNK: nat := 1900
  const BLANK_LINE := "\n\n"

  /** A chunk that may be sent: not empty, and within the limit unless it is one paragraph on its own. */
  predicate ChunkOk(c: string, paras: seq<string>) {
    c != "" && (|c| <= MAX_CHUNK || c in paras)
  }

  /**
   * Greedy packing of the first `n` paragraphs: chunk k is the run of
   * paragraphs from `starts[k]` up to the next chunk's start (the last one up
   * to `n`), joined by blank lines, and a run ends only where adding the next
   * paragraph would pass the limit.
   */
  predicate Packed(chunks: seq<string>, starts: seq<nat>, paras: seq<string>, n: nat)
    requires n <= |paras|
  {
    && |starts| == |chunks| > 0 && starts[0] == 0
    && starts[|chunks| - 1] < n
    && chunks[|chunks| - 1] == Join(paras[starts[|chunks| - 1]..n], BLANK_LINE)
    && forall k :: 0 <= k < |chunks| - 1 ==> Closed(chunks, starts, paras, n, k)
  }

  /** Chunk k, which is not the last, is its run of paragraphs and could not take the next chunk's first one. */
  predicate Closed(chunks: seq<string>, starts: seq<nat>, paras: seq<string>, n: nat, k: nat)
    requires n <= |paras| && |starts| == |chunks| && k < |chunks| - 1
  {
    && starts[k] < starts[k + 1] < n
    && chunks[k] == Join(paras[starts[k]..starts[k + 1]], BLANK_LINE)
    && |chunks[k]| + |BLANK_LINE| + |paras[starts[k + 1]]| > MAX_CHUNK
  }

  /**
   * The chunks of a documentation text: the text itself when it fits,
   * otherwise its paragraphs (split on blank lines) packed greedily, a
   * paragraph starting a new chunk when adding it would pass the limit.
   * `starts` gives the paragraph each chunk begins with.
   */
  method Chunks(content: string) returns (chunks: seq<string>, ghost starts: seq<nat>)
    ensures |content| <= MAX_CHUNK ==> chunks == [content]
    ensures |content| > MAX_CHUNK ==>
      forall k :: 0 <= k < |chunks| ==> ChunkOk(chunks[k], Split(content, BLANK_LINE))
    ensures |content| > MAX_CHUNK && "" !in Split(content, BLANK_LINE) ==>
      && Join(chunks, BLANK_LINE) == content
      && Packed(chunks, starts, Split(content, BLANK_LINE), |Split(content, BLANK_LINE)|)
  {
    starts := [0];
    if |content| <= MAX_CHUNK {
      return [content], starts;
    }
    var paras := Split(content, BLANK_LINE);
    ghost var whole := "" !in paras;
    var out: seq<string> := [];
    var cur := "";
    var i := 0;
    while i < |paras|
      invariant 0 <= i <= |paras|
      invariant forall k :: 0 <= k < |out| ==> ChunkOk(out[k], paras)
      invariant cur == "" || |cur| <= MAX_CHUNK || cur in paras
      invariant whole ==> (cur == "" <==> i == 0) && (i == 0 ==> out == [] && starts == [0])
      invariant whole && i > 0 ==> Join(out + [cur], BLANK_LINE) == Join(paras[..i], BLANK_LINE)
      invariant whole && i > 0 ==> Packed(out + [cur], starts, paras, i)
    {
      var p := paras[i];
      ghost var prevOut, prev, prevStarts := out, cur, starts;
      var sep := if cur != "" then BLANK_LINE else "";
      if |cur + sep + p| > MAX_CHUNK {
        if cur != "" {
          out := out + [cur];
          starts := starts + [i];
        }
        cur := p;
      } else {
        cur := if cur != "" then cur + BLANK_LINE + p else p;
      }
      if whole {
        PackStep(paras, i, prevOut, prev, prevStarts, out, cur, starts);
      }
      i := i + 1;
    }
    if cur != "" {
      out := out + [cur];
    }
    chunks := out;
    if whole {
      assert paras[..|paras|] == paras;
      JoinSplit(content, BLANK_LINE);
    }
  }

  /** One step of the loop in `Chunks` keeps the chunks so far joining to and greedily packing the paragraphs so far. */
  lemma PackStep(paras: seq<string>, i: nat, out: seq<string>, cur: string, starts: seq<nat>,
                 out': seq<string>, cur': string, starts': seq<nat>)
    requires i < |paras| && "" !in paras
    requires (cur == "" <==> i == 0) && (i == 0 ==> out == [] && starts == [0])
    requires i > 0 ==> Join(out + [cur], BLANK_LINE) == Join(paras[..i], BLANK_LINE)
    requires i > 0 ==> Packed(out + [cur], starts, paras, i)
    requires var sep := if cur != "" then BLANK_LINE else "";
      if |cur + sep + paras[i]| > MAX_CHUNK then
        && out' == out + (if cur != "" then [cur] else [])
        && starts' == starts + (if cur != "" then [i] else [])
        && cur' == paras[i]
      else
        out' == out && starts' == starts && cur' == (if cur != "" then cur + BLANK_LINE + paras[i] else paras[i])
    ensures cur' != ""
    ensures Join(out' + [cur'], BLANK_LINE) == Join(paras[..i + 1], BLANK_LINE)
    ensures Packed(out' + [cur'], starts', paras, i + 1)
  {
    assert paras[i] in paras;
    if i == 0 {
      PackedFirst(paras, out' + [cur'], starts');
    } else if |cur + BLANK_LINE + paras[i]| > MAX_CHUNK {
      PackedNewChunk(out + [cur], starts, paras, i, out' + [cur'], starts', i + 1);
    } else {
      PackedExtend(out, cur, starts, paras, i, out' + [cur'], i + 1);
    }
  }

  /** The first paragraph alone is a greedy packing of the first paragraph. */
  lemma PackedFirst(paras: seq<string>, l: seq<string>, starts: seq<nat>)
    requires 0 < |paras| && l == [paras[0]] && starts == [0]
    ensures Packed(l, starts, paras, 1)
    ensures Join(l, BLANK_LINE) == Join(paras[..1], BLANK_LINE)
  {
    assert paras[0..1] == paras[..1] == [paras[0]];
  }

  /** Starting a new chunk with paragraph `i` keeps the packing greedy: the closed chunk could not take it. */
  lemma PackedNewChunk(l: seq<string>, starts: seq<nat>, paras: seq<string>, i: nat,
                       l': seq<string>, starts': seq<nat>, n: nat)
    requires i < |paras| && Packed(l, starts, paras, i)
    requires |l[|l| - 1] + BLANK_LINE + paras[i]| > MAX_CHUNK
    requires l' == l + [paras[i]] && starts' == starts + [i] && n == i + 1
    requires Join(l, BLANK_LINE) == Join(paras[..i], BLANK_LINE)
    ensures Packed(l', starts', paras, n)
    ensures Join(l', BLANK_LINE) == Join(paras[..n], BLANK_LINE)
  {
    JoinAppend(l, paras[i], BLANK_LINE);
    JoinParasStep(paras, i);
    assert paras[i..i + 1] == [paras[i]];
    forall k: nat | k < |l'| - 1
      ensures Closed(l', starts', paras, n, k)
    {
      assert l'[k] == l[k] && starts'[k] == starts[k];
      if k < |l| - 1 {
        assert Closed(l, starts, paras, i, k);
        assert starts'[k + 1] == starts[k + 1];
      }
    }
  }

  /** Gluing paragraph `i` onto the last chunk keeps the packing: that chunk's run now reaches `i + 1`. */
  lemma PackedExtend(out: seq<string>, cur: string, starts: seq<nat>, paras: seq<string>, i: nat,
                     l': seq<string>, n: nat)
    requires i < |paras| && Packed(out + [cur], starts, paras, i)
    requires l' == out + [cur + BLANK_LINE + paras[i]] && n == i + 1
    requires Join(out + [cur], BLANK_LINE) == Join(paras[..i], BLANK_LINE)
    ensures Packed(l', starts, paras, n)
    ensures Join(l', BLANK_LINE) == Join(paras[..n], BLANK_LINE)
  {
    JoinExtendLast(out, cur, paras[i], BLANK_LINE);
    JoinParasStep(paras, i);
    var l := out + [cur];
    var s := starts[|out|];
    assert paras[s..i + 1] == paras[s..i] + [paras[i]];
    assert paras[s..i] != [] by { assert s < i; }
    JoinAppend(paras[s..i], paras[i], BLANK_LINE);
    forall k: nat | k < |l'| - 1
      ensures Closed(l', starts, paras, n, k)
    {
      assert Closed(l, starts, paras, i, k);
      assert l'[k] == l[k];
    }
  }

  /** The paragraphs up to `i + 1` join to those up to `i`, a blank line and paragraph `i`. */
  lemma JoinParasStep(paras: seq<string>, i: nat)
    requires 0 < i < |paras|
    ensures Join(paras[..i + 1], BLANK_LINE) == Join(paras[..i], BLANK_LINE) + BLANK_LINE + paras[i]
  {
    assert paras[..i + 1] == paras[..i] + [paras[i]];
    JoinAppend(paras[..i], paras[i], BLANK_LINE);
  }

  /** Gluing one more paragraph onto the last chunk adds a blank line and that paragraph to the joined text. */
  lemma JoinExtendLast(xs: seq<string>, a: string, b: string, sep: string)
    ensures Join(xs + [a + sep + b], sep) == Join(xs + [a], sep) + sep + b
  {
    if xs == [] {
      assert xs + [a + sep + b] == [a + sep + b];
      assert xs + [a] == [a];
    } else {
      JoinAppend(xs, a + sep + b, sep);
      JoinAppend(xs, a, sep);
    }
  }

  // ---------------------------------------------------------------------------
  // handleHistorySlash: the keyword summary
  // ---------------------------------------------------------------------------

  const STOP_WORDS: set<string> := {
    "the", "and", "a", "an", "to", "of", "in", "it", "is", "for", "on", "that",
    "this", "with", "i", "you", "we", "they", "he", "she", "at", "by", "be",
    "was", "were", "are", "from", "as", "but", "or", "if", "so", "not", "have",
    "has", "had", "our", "your", "my", "me"}

  const MAX_TOPICS: nat := 5

  /** The characters the keyword pass replaces with a space: the listed punctuation and the digits. */
  predicate Blanked(c: char) {
    c in "`*_~>|<@:,.-?!()[]{}" || '0' <= c <= '9'
  }

  /** A message lower-cased, with every blanked character replaced by a space. */
  function Normalize(s: string): (r: string)
    ensures |r| == |s|
    ensures forall i :: 0 <= i < |s| ==> r[i] == if Blanked(LowerChar(s[i])) then ' ' else LowerChar(s[i])
  {
    seq(|s|, i requires 0 <= i < |s| => if Blanked(LowerChar(s[i])) then ' ' else LowerChar(s[i]))
  }

  /**
   * The words of a text: its maximal runs of non-white-space characters,
   * in order. `split(/\s+/)` also yields empty pieces at the ends; those
   * are shorter than three characters, so the counting skips them anyway.
   */
  function Words(s: string): (r: seq<string>)
    ensures forall k :: 0 <= k < |r| ==> r[k] != "" && forall c :: c in r[k] ==> !IsSpace(c)
  {
    WordsFrom(s, "")
  }

  /** The words of `s` when the word `cur` (no white space in it) is still open. */
  function WordsFrom(s: string, cur: string): (r: seq<string>)
    requires forall c :: c in cur ==> !IsSpace(c)
    ensures forall k :: 0 <= k < |r| ==> r[k] != "" && forall c :: c in r[k] ==> !IsSpace(c)
    decreases |s|
  {
    if s == [] then
      (if cur == "" then [] else [cur])
    else if IsSpace(s[0]) then
      (if cur == "" then [] else [cur]) + WordsFrom(s[1..], "")
    else
      WordsFrom(s[1..], cur + [s[0]])
  }

  /** Words of one or two characters and stop words are not counted. */
  predicate Counted(w: string) {
    |w| >= 3 && w !in STOP_WORDS
  }

  /** The counted words of one message, in order. */
  function CountedWords(content: string): (r: seq<string>)
    ensures forall w :: w in r <==> w in Words(Normalize(content)) && Counted(w)
  {
    Filter(Words(Normalize(content)), Counted)
  }

  /** The counted words of the messages, message after message. */
  function AllCounted(contents: seq<string>): seq<string>
    decreases |contents|
  {
    if contents == [] then []
    else AllCounted(contents[..|contents| - 1]) + CountedWords(contents[|contents| - 1])
  }

  /** How often `w` occurs in `ws`. */
  function Occurrences(ws: seq<string>, w: string): nat
    decreases |ws|
  {
    if ws == [] then 0
    else Occurrences(ws[..|ws| - 1], w) + (if ws[|ws| - 1] == w then 1 else 0)
  }

  /** The `counts` object: a count per key, and its keys in insertion order. */
  datatype Counts = Counts(count: map<string, nat>, keys: seq<string>)

  /** One `counts[word] = (counts[word] || 0) + 1`. */
  function Bump(c: Counts, w: string): Counts {
    if w in c.count then Counts(c.count[w := c.count[w] + 1], c.keys)
    else Counts(c.count[w := 1], c.keys + [w])
  }

  /** The `counts` object after counting the words `ws` in order. */
  function Tally(ws: seq<string>): (r: Counts)
    ensures forall w :: w in r.keys <==> w in r.count
    ensures r.keys == Dedup(ws)
    decreases |ws|
  {
    if ws == [] then Counts(map[], [])
    else Bump(Tally(ws[..|ws| - 1]), ws[|ws| - 1])
  }

  /** The tally has a key for each word that occurs and for no other. */
  lemma {:induction false} TallyKeys(ws: seq<string>)
    ensures forall w :: w in Tally(ws).count <==> w in ws
    ensures forall w :: w in Tally(ws).keys <==> w in ws
    decreases |ws|
  {
    if ws != [] {
      var init := ws[..|ws| - 1];
      assert ws == init + [ws[|ws| - 1]];
      TallyKeys(init);
    }
  }

  /** The tally counts every word exactly as often as it occurs. */
  lemma {:induction false} TallyCounts(ws: seq<string>)
    ensures forall w :: w in Tally(ws).count ==> Tally(ws).count[w] == Occurrences(ws, w)
    decreases |ws|
  {
    if ws != [] {
      var init := ws[..|ws| - 1];
      TallyCounts(init);
      TallyKeys(init);
      if ws[|ws| - 1] !in init {
        OccurrencesAbsent(init, ws[|ws| - 1]);
      }
    }
  }

  lemma {:induction false} OccurrencesAbsent(ws: seq<string>, w: string)
    requires w !in ws
    ensures Occurrences(ws, w) == 0
    decreases |ws|
  {
    if ws != [] {
      OccurrencesAbsent(ws[..|ws| - 1], w);
    }
  }

  /** One more word of a message changes the tally by one bump, or not at all when it is not counted. */
  lemma CountStep(seen: seq<string>, words: seq<string>, j: nat)
    requires j < |words|
    ensures Tally(seen + Filter(words[..j + 1], Counted)) ==
      if Counted(words[j]) then Bump(Tally(seen + Filter(words[..j], Counted)), words[j])
      else Tally(seen + Filter(words[..j], Counted))
  {
    var before := seen + Filter(words[..j], Counted);
    assert words[..j + 1] == words[..j] + [words[j]];
    FilterAppend(words[..j], words[j], Counted);
    if Counted(words[j]) {
      assert seen + Filter(words[..j + 1], Counted) == before + [words[j]];
      TallyAppend(before, words[j]);
    } else {
      assert seen + Filter(words[..j + 1], Counted) == before;
    }
  }

  lemma TallyAppend(ws: seq<string>, w: string)
    ensures Tally(ws + [w]) == Bump(Tally(ws), w)
  {
    assert (ws + [w])[..|ws|] == ws;
  }

  /** The counting loop of `handleHistorySlash` over the fetched messages. */
  method CountKeywords(contents: seq<string>) returns (counts: Counts)
    ensures counts == Tally(AllCounted(contents))
  {
    counts := Counts(map[], []);
    var i := 0;
    while i < |contents|
      invariant 0 <= i <= |contents|
      invariant counts == Tally(AllCounted(contents[..i]))
    {
      counts := CountWords(counts, AllCounted(contents[..i]), Words(Normalize(contents[i])));
      assert contents[..i + 1][..i] == contents[..i];
      i := i + 1;
    }
    assert contents[..i] == contents;
  }

  /** The inner loop: the words of one message added to the counts of the words `seen` before. */
  method CountWords(counts: Counts, ghost seen: seq<string>, words: seq<string>) returns (r: Counts)
    requires counts == Tally(seen)
    ensures r == Tally(seen + Filter(words, Counted))
  {
    r := counts;
    var j := 0;
    assert seen + Filter(words[..j], Counted) == seen;
    while j < |words|
      invariant 0 <= j <= |words|
      invariant r == Tally(seen + Filter(words[..j], Counted))
    {
      var word := words[j];
      CountStep(seen, words, j);
      if Counted(word) {
        r := Bump(r, word);
      }
      j := j + 1;
    }
    assert words[..j] == words;
  }

  /** An entry of `Object.entries(counts)`. */
  function CountOf(e: (string, nat)): int {
    -(e.1 as int)
  }

  /** `Object.entries(counts)`: the keys in insertion order with their counts. */
  function Entries(c: Counts): (r: seq<(string, nat)>)
    requires forall w :: w in c.keys ==> w in c.count
    ensures |r| == |c.keys|
    ensures forall k :: 0 <= k < |r| ==> r[k] == (c.keys[k], c.count[c.keys[k]])
  {
    seq(|c.keys|, k requires 0 <= k < |c.keys| => (c.keys[k], c.count[c.keys[k]]))
  }

  /** The entries sorted by descending count; the sort is stable, so equal counts keep insertion order. */
  function Ranked(c: Counts): (r: seq<(string, nat)>)
    requires forall w :: w in c.keys ==> w in c.count
    ensures |r| == |c.keys|
    ensures forall x :: x in r <==> x in Entries(c)
    ensures forall i, j :: 0 <= i < j < |r| ==> r[i].1 >= r[j].1
    ensures forall n :: WithKey(r, CountOf, n) == WithKey(Entries(c), CountOf, n)
  {
    var r := SortBy(Entries(c), CountOf);
    assert Sorted(r, CountOf);
    r
  }

  /** The topics: the words of the first five ranked entries. */
  function Topics(c: Counts): (r: seq<string>)
    requires forall w :: w in c.keys ==> w in c.count
    ensures |r| == if |c.keys| <= MAX_TOPICS then |c.keys| else MAX_TOPICS
    ensures forall k :: 0 <= k < |r| ==> r[k] == Ranked(c)[k].0
  {
    var top := Window(Ranked(c), 0, MAX_TOPICS);
    seq(|top|, k requires 0 <= k < |top| => top[k].0)
  }

  /**
   * The topics of a tally come in descending count, are words that were
   * counted, and no word left out was counted more often than any topic.
   */
  lemma TopicsAreMostFrequent(ws: seq<string>)
    ensures var r := Topics(Tally(ws));
      && (forall k :: 0 <= k < |r| ==> r[k] in ws)
      && (forall i, j :: 0 <= i < j < |r| ==> Occurrences(ws, r[i]) >= Occurrences(ws, r[j]))
      && (forall k, w :: 0 <= k < |r| && w in ws && w !in r ==> Occurrences(ws, r[k]) >= Occurrences(ws, w))
  {
    RankedTopics(ws);
    forall k, w | 0 <= k < |Topics(Tally(ws))| && w in ws && w !in Topics(Tally(ws))
      ensures Occurrences(ws, Topics(Tally(ws))[k]) >= Occurrences(ws, w)
    {
      LeftOutWord(ws, k, w);
    }
  }

  /** Each topic is a counted word, and its ranked entry carries its number of occurrences. */
  lemma RankedTopics(ws: seq<string>)
    ensures var t := Tally(ws);
      var r := Topics(t);
      forall k :: 0 <= k < |r| ==> r[k] in ws && Ranked(t)[k] == (r[k], Occurrences(ws, r[k]))
  {
    var t := Tally(ws);
    TallyKeys(ws);
    TallyCounts(ws);
    var ranked := Ranked(t);
    var r := Topics(t);
    forall k | 0 <= k < |r|
      ensures r[k] in ws && ranked[k] == (r[k], Occurrences(ws, r[k]))
    {
      assert ranked[k] in Entries(t);
      var m :| 0 <= m < |Entries(t)| && Entries(t)[m] == ranked[k];
    }
  }

  /** A counted word that is not a topic occurs no more often than the topic at `k`. */
  lemma LeftOutWord(ws: seq<string>, k: nat, w: string)
    requires k < |Topics(Tally(ws))| && w in ws && w !in Topics(Tally(ws))
    ensures Occurrences(ws, Topics(Tally(ws))[k]) >= Occurrences(ws, w)
  {
    var t := Tally(ws);
    TallyKeys(ws);
    TallyCounts(ws);
    RankedTopics(ws);
    var ranked := Ranked(t);
    var r := Topics(t);
    var m :| 0 <= m < |t.keys| && t.keys[m] == w;
    assert Entries(t)[m] in ranked;
    var n :| 0 <= n < |ranked| && ranked[n] == Entries(t)[m];
    if n < |r| {
      assert false;
    }
  }

  /** `humanList`: nothing, one word, "a and b", or a comma list with ", and" before the last word. */
  function HumanList(words: seq<string>): (r: string)
    ensures words == [] ==> r == ""
    ensures |words| == 1 ==> r == words[0]
    ensures |words| == 2 ==> r == words[0] + " and " + words[1]
  {
    if |words| == 0 then ""
    else if |words| == 1 then words[0]
    else if |words| == 2 then words[0] + " and " + words[1]
    else Join(words[..|words| - 1], ", ") + ", and " + words[|words| - 1]
  }

  /**
   * From three words on, the list is the comma-separated join in which
   * the last word reads "and <word>": a serial comma, so three words give
   * "a, b, and c".
   */
  lemma HumanListSerialComma(words: seq<string>)
    requires |words| >= 3
    ensures HumanList(words) == Join(words[..|words| - 1] + ["and " + words[|words| - 1]], ", ")
  {
    JoinAppend(words[..|words| - 1], "and " + words[|words| - 1], ", ");
  }

  lemma HumanListOfThree()
    ensures HumanList(["a", "b", "c"]) == "a, b, and c"
    ensures HumanList(["a", "b", "c"]) != "a, b and c"
  {
    assert ["a", "b", "c"][..2] == ["a", "b"];
    assert ["a", "b"][1..] == ["b"];
  }

  // ---------------------------------------------------------------------------
  // The study-tip panel buttons
  // ---------------------------------------------------------------------------

  const ENABLE_BUTTON := "study-enable"
  const DISABLE_BUTTON := "study-disable"
  const MORE_OFTEN_BUTTON := "study-more-often"
  const LESS_OFTEN_BUTTON := "study-less-often"
  const SET_TIME_BUTTON := "study-set-time"

  /** The time the buttons schedule with: the stored time (noon when unset), noon again when it does not parse. */
  function ButtonClock(s: ST.Settings): ST.Clock {
    ST.ParseHHMM(if s.timeOfDay != "" then s.timeOfDay else ST.DEFAULT_TIME).GetOr(ST.Clock(12, 0))
  }

  /** The buttons' time is the one the slash command uses: an unset time and an unparseable one both mean noon. */
  lemma ButtonClockIsStored(s: ST.Settings)
    ensures ButtonClock(s) == ST.StoredClock(s)
  {
    if s.timeOfDay == "" {
      ST.ParseClockAccepts(12, 0);
      assert ST.TwoDigits(12) + ":" + ST.TwoDigits(0) == ST.DEFAULT_TIME;
    }
  }

  /** `row.frequency_days || 7`. */
  function FrequencyOrDefault(s: ST.Settings): int {
    if s.frequencyDays != 0 then s.frequencyDays else ST.DEFAULT_FREQUENCY
  }

  /**
   * The patch a panel button asks for, on the stored row (the defaults when
   * the guild has none); empty for the set-time button and any other id.
   */
  function ButtonPatch(customId: string, s: ST.Settings, now: int, offset: ST.ZoneOffset): (r: seq<ST.Assignment>)
    ensures ST.DistinctColumns(r)
  {
    var next := ST.NextAt(ButtonClock(s), ST.ZoneOf(s), now, offset);
    if customId == ENABLE_BUTTON then [ST.SetEnabled(true), ST.SetNextSendAt(next)]
    else if customId == DISABLE_BUTTON then [ST.SetEnabled(false)]
    else if customId == MORE_OFTEN_BUTTON then [ST.SetFrequencyDays(ST.NextFrequency(FrequencyOrDefault(s))), ST.SetNextSendAt(next)]
    else if customId == LESS_OFTEN_BUTTON then [ST.SetFrequencyDays(ST.PrevFrequency(FrequencyOrDefault(s))), ST.SetNextSendAt(next)]
    else []
  }

  datatype ButtonOutcome = ManageGuildRequired | TimeModal | Patched(patch: seq<ST.Assignment>)

  /**
   * A press on a `study-` button: refused without Manage Server, the time
   * modal for the set-time button, and otherwise the patch upserted when
   * it is not empty. The row is read without inserting one.
   */
  method PressStudyButton(table: ST.Table, guildId: string, customId: string, manageGuild: bool, now: int, offset: ST.ZoneOffset)
    returns (outcome: ButtonOutcome)
    modifies table
    ensures !manageGuild ==> outcome == ManageGuildRequired && table.rows == old(table.rows)
    ensures manageGuild && customId == SET_TIME_BUTTON ==> outcome == TimeModal && table.rows == old(table.rows)
    ensures manageGuild && customId != SET_TIME_BUTTON ==>
      var s := ST.Current(old(table.rows), guildId);
      var patch := ButtonPatch(customId, s, now, offset);
      && outcome == Patched(patch)
      && table.rows == (if patch == [] then old(table.rows) else old(table.rows)[guildId := ST.Apply(s, patch)])
  {
    if !manageGuild {
      return ManageGuildRequired;
    }
    var s := ST.Current(table.rows, guildId);
    if customId == SET_TIME_BUTTON {
      return TimeModal;
    }
    var patch := ButtonPatch(customId, s, now, offset);
    if patch != [] {
      var _ := table.Upsert(guildId, patch);
    }
    outcome := Patched(patch);
  }

  /** Enable switches tips on and schedules the next send after `now`, within a day, at the stored local time. */
  lemma EnableButtonEffect(s: ST.Settings, now: int, offset: ST.ZoneOffset)
    ensures var patch := ButtonPatch(ENABLE_BUTTON, s, now, offset);
      var next := ST.NextAt(ST.StoredClock(s), ST.ZoneOf(s), now, offset);
      && ST.Apply(s, patch) == s.(enabled := true, nextSendAt := Some(next))
      && now < next <= now + ST.DAY
  {
    ButtonClockIsStored(s);
    var next := ST.NextAt(ST.StoredClock(s), ST.ZoneOf(s), now, offset);
    assert ButtonPatch(ENABLE_BUTTON, s, now, offset) == [ST.SetEnabled(true), ST.SetNextSendAt(next)];
    ST.ApplyEnableAndNext(s, next);
    ST.StoredClockValid(s);
    ST.NextAtIsNext(ST.StoredClock(s), ST.ZoneOf(s), now, offset);
  }

  /** Disable writes `enabled = false` and nothing else: the stored next send stays. */
  lemma DisableButtonEffect(s: ST.Settings, now: int, offset: ST.ZoneOffset)
    ensures ST.Apply(s, ButtonPatch(DISABLE_BUTTON, s, now, offset)) == s.(enabled := false)
  {
    ST.ApplyOne(s, ST.SetEnabled(false));
  }

  /** More often moves the stored frequency (7 when unset) one step towards daily and reschedules after `now`, within a day. */
  lemma MoreOftenButtonEffect(s: ST.Settings, now: int, offset: ST.ZoneOffset)
    ensures var next := ST.NextAt(ST.StoredClock(s), ST.ZoneOf(s), now, offset);
      && ST.Apply(s, ButtonPatch(MORE_OFTEN_BUTTON, s, now, offset))
           == s.(frequencyDays := ST.NextFrequency(FrequencyOrDefault(s)), nextSendAt := Some(next))
      && now < next <= now + ST.DAY
  {
    ButtonClockIsStored(s);
    var next := ST.NextAt(ST.StoredClock(s), ST.ZoneOf(s), now, offset);
    var days := ST.NextFrequency(FrequencyOrDefault(s));
    assert |MORE_OFTEN_BUTTON| != |ENABLE_BUTTON| && |MORE_OFTEN_BUTTON| != |DISABLE_BUTTON|;
    assert ButtonPatch(MORE_OFTEN_BUTTON, s, now, offset) == [ST.SetFrequencyDays(days), ST.SetNextSendAt(next)];
    ST.ApplyFrequencyAndNext(s, days, next);
    ST.StoredClockValid(s);
    ST.NextAtIsNext(ST.StoredClock(s), ST.ZoneOf(s), now, offset);
  }

  /** Less often moves the stored frequency (7 when unset) one step towards fortnightly and reschedules after `now`, within a day. */
  lemma LessOftenButtonEffect(s: ST.Settings, now: int, offset: ST.ZoneOffset)
    ensures var next := ST.NextAt(ST.StoredClock(s), ST.ZoneOf(s), now, offset);
      && ST.Apply(s, ButtonPatch(LESS_OFTEN_BUTTON, s, now, offset))
           == s.(frequencyDays := ST.PrevFrequency(FrequencyOrDefault(s)), nextSendAt := Some(next))
      && now < next <= now + ST.DAY
  {
    ButtonClockIsStored(s);
    var next := ST.NextAt(ST.StoredClock(s), ST.ZoneOf(s), now, offset);
    var days := ST.PrevFrequency(FrequencyOrDefault(s));
    assert |LESS_OFTEN_BUTTON| != |ENABLE_BUTTON| && |LESS_OFTEN_BUTTON| != |DISABLE_BUTTON|;
    assert ButtonPatch(LESS_OFTEN_BUTTON, s, now, offset) == [ST.SetFrequencyDays(days), ST.SetNextSendAt(next)];
    ST.ApplyFrequencyAndNext(s, days, next);
    ST.StoredClockValid(s);
    ST.NextAtIsNext(ST.StoredClock(s), ST.ZoneOf(s), now, offset);
  }

  /** Only the four setting buttons write anything. */
  lemma OtherButtonsWriteNothing(customId: string, s: ST.Settings, now: int, offset: ST.ZoneOffset)
    ensures ButtonPatch(customId, s, now, offset) == [] <==>
      customId !in {ENABLE_BUTTON, DISABLE_BUTTON, MORE_OFTEN_BUTTON, LESS_OFTEN_BUTTON}
  {
  }

  // ---------------------------------------------------------------------------
  // The study-tips scheduler tick
  // ---------------------------------------------------------------------------

  const TIP_PREFIX := "\U{23F0} Study time! "
  const DEFAULT_TIP := TIP_PREFIX + "Take 25 minutes to focus on your studies. When you\U{2019}re done, take a 5\U{2011}minute break."
  const MAX_TIP: nat := 1800

  /**
   * What the tick learns from Discord and its environment: whether the
   * guild is cached, whether a channel id resolves in it, the
   * `channel_student_docs` channel and the system channel, whether an
   * OpenAI key is configured, the premium answer, and the generated tip
   * (`None` when generation fails).
   */
  datatype TickEnv = TickEnv(
    guildPresent: string -> bool,
    channelExists: (string, string) -> bool,
    studentDocs: string -> Option<string>,
    systemChannel: string -> Option<string>,
    apiKey: bool,
    entitled: string -> bool,
    aiTip: string -> Option<string>)

  /** The rows the tick selects: enabled with a next send that is not in the future. */
  predicate Due(s: ST.Settings, now: int) {
    s.enabled && s.nextSendAt.Some? && s.nextSendAt.value <= now
  }

  /** The configured target channel if it resolves, else the student-docs channel, else the system channel. */
  function TipChannel(guildId: string, s: ST.Settings, env: TickEnv): (r: Option<string>)
    ensures r.None? ==> env.studentDocs(guildId).None? && env.systemChannel(guildId).None?
    ensures s.targetChannelId.Some? && s.targetChannelId.value != "" && env.channelExists(guildId, s.targetChannelId.value) ==>
      r == s.targetChannelId
  {
    if s.targetChannelId.Some? && s.targetChannelId.value != "" && env.channelExists(guildId, s.targetChannelId.value) then
      s.targetChannelId
    else if env.studentDocs(guildId).Some? then env.studentDocs(guildId)
    else env.systemChannel(guildId)
  }

  /**
   * The message: the fixed tip, or for an AI-enabled, entitled guild with a
   * key configured the generated tip behind the same prefix, cut to 1800.
   */
  function TipContent(guildId: string, s: ST.Settings, env: TickEnv): (r: string)
    ensures |r| <= MAX_TIP && TIP_PREFIX <= r
    ensures r != DEFAULT_TIP ==> s.aiEnabled && env.apiKey && env.entitled(guildId) && env.aiTip(guildId).Some?
    ensures !(s.aiEnabled && env.apiKey && env.entitled(guildId)) ==> r == DEFAULT_TIP
  {
    if s.aiEnabled && env.apiKey && env.entitled(guildId) && env.aiTip(guildId).Some? then
      Take(TIP_PREFIX + env.aiTip(guildId).value, MAX_TIP)
    else
      assert DEFAULT_TIP[..|TIP_PREFIX|] == TIP_PREFIX;
      DEFAULT_TIP
  }

  /** The channel and text a due row is sent to, or `None` when its guild or every channel is missing. */
  function Delivery(guildId: string, s: ST.Settings, env: TickEnv): Option<(string, string)> {
    if !env.guildPresent(guildId) then None
    else
      var channel := TipChannel(guildId, s, env);
      if channel.None? then None else Some((channel.value, TipContent(guildId, s, env)))
  }

  /** The messages a tick sends for the due guilds, in the order selected. */
  function Deliveries(due: seq<string>, rows: map<string, ST.Settings>, env: TickEnv): seq<(string, string)>
    requires forall g :: g in due ==> g in rows
    decreases |due|
  {
    if due == [] then []
    else
      var g := due[|due| - 1];
      var d := Delivery(g, rows[g], env);
      Deliveries(due[..|due| - 1], rows, env) + (if d.Some? then [d.value] else [])
  }

  /**
   * The next send the tick stores after serving a row: the next local
   * occurrence of the stored time, then `frequency_days - 1` more days, so
   * that sends are `frequency_days` apart.
   */
  function NextAfterSend(s: ST.Settings, now: int, offset: ST.ZoneOffset): (r: int)
    ensures s.frequencyDays >= 1 ==> now + (s.frequencyDays - 1) * ST.DAY < r <= now + s.frequencyDays * ST.DAY
  {
    var c := ST.StoredClock(s);
    ST.StoredClockValid(s);
    IntendedNext(now, c, offset(ST.ZoneOf(s), now), s.frequencyDays)
  }

  /**
   * The next send after a tip lies between `frequency_days - 1` and
   * `frequency_days` days after now, at the stored local time, so the row
   * is not due again at `now`.
   */
  function IntendedNext(now: int, c: ST.Clock, off: int, freq: int): (r: int)
    ensures c.hour <= 23 && c.minute <= 59 && freq >= 1 ==>
      && now + (freq - 1) * ST.DAY < r <= now + freq * ST.DAY
      && (r + off * ST.MINUTE) % ST.DAY == ST.SendTime(c.hour, c.minute, now)
  {
    var r0 := ST.NextUTC(now, c.hour, c.minute, off, 0);
    var r := r0 + (if freq > 1 then freq - 1 else 0) * ST.DAY;
    if c.hour <= 23 && c.minute <= 59 && freq >= 1 then
      ShiftDays(r0 + off * ST.MINUTE, freq - 1);
      assert r + off * ST.MINUTE == r0 + off * ST.MINUTE + (freq - 1) * ST.DAY;
      r
    else r
  }

  /** As written: `computeNextUTC` from now with `plusDays: frequency_days - 1`, at most `frequency_days` days on. */
  function AsWrittenNext(now: int, c: ST.Clock, off: int, freq: int): (r: int)
    ensures c.hour <= 23 && c.minute <= 59 && freq >= 1 ==> now < r <= now + freq * ST.DAY
  {
    ST.NextUTC(now, c.hour, c.minute, off, freq - 1)
  }

  /** A served row: sent now, next send recomputed. */
  function Served(s: ST.Settings, now: int, offset: ST.ZoneOffset): ST.Settings {
    s.(lastSentAt := Some(now), nextSendAt := Some(NextAfterSend(s, now, offset)))
  }

  /** A row after a tick over `due`: served when it was due and could be delivered, untouched otherwise. */
  function AfterTick(g: string, s: ST.Settings, due: seq<string>, now: int, offset: ST.ZoneOffset, env: TickEnv): (r: ST.Settings)
    ensures !(g in due && Delivery(g, s, env).Some?) ==> r == s
    ensures g in due && Delivery(g, s, env).Some? ==>
      && r.lastSentAt == Some(now) && r.nextSendAt == Some(NextAfterSend(s, now, offset))
      && r.(lastSentAt := s.lastSentAt, nextSendAt := s.nextSendAt) == s
  {
    if g in due && Delivery(g, s, env).Some? then Served(s, now, offset) else s
  }

  /** One run of the scheduler over the due rows the query returned, in its order. */
  method Tick(table: ST.Table, due: seq<string>, now: int, offset: ST.ZoneOffset, env: TickEnv) returns (sent: seq<(string, string)>)
    requires forall g :: g in due <==> g in table.rows && Due(table.rows[g], now)
    requires forall i, j :: 0 <= i < j < |due| ==> due[i] != due[j]
    modifies table
    ensures sent == Deliveries(due, old(table.rows), env)
    ensures table.rows.Keys == old(table.rows).Keys
    ensures forall g :: g in old(table.rows) ==> table.rows[g] == AfterTick(g, old(table.rows)[g], due, now, offset, env)
  {
    sent := [];
    var i := 0;
    while i < |due|
      invariant 0 <= i <= |due|
      invariant table.rows.Keys == old(table.rows).Keys
      invariant sent == Deliveries(due[..i], old(table.rows), env)
      invariant forall g :: g in old(table.rows) ==>
        table.rows[g] == AfterTick(g, old(table.rows)[g], due[..i], now, offset, env)
    {
      var g := due[i];
      TickStep(old(table.rows), table.rows, due, i, now, offset, env);
      var s := table.rows[g];
      if env.guildPresent(g) {
        var channel := TipChannel(g, s, env);
        if channel.Some? {
          var content := TipContent(g, s, env);
          sent := sent + [(channel.value, content)];
          var next := NextAfterSend(s, now, offset);
          table.rows := table.rows[g := s.(lastSentAt := Some(now), nextSendAt := Some(next))];
        }
      }
      i := i + 1;
    }
    assert due[..i] == due;
  }

  /** One row of the tick: the row is still as selected, and serving it extends the deliveries and the served rows by it. */
  lemma TickStep(rows0: map<string, ST.Settings>, rows: map<string, ST.Settings>, due: seq<string>, i: nat,
                 now: int, offset: ST.ZoneOffset, env: TickEnv)
    requires i < |due| && forall g :: g in due ==> g in rows0
    requires forall a, b :: 0 <= a < b < |due| ==> due[a] != due[b]
    requires rows.Keys == rows0.Keys
    requires forall g :: g in rows0 ==> rows[g] == AfterTick(g, rows0[g], due[..i], now, offset, env)
    ensures var g := due[i];
      var d := Delivery(g, rows0[g], env);
      var rows' := if d.Some? then rows[g := Served(rows0[g], now, offset)] else rows;
      && rows[g] == rows0[g]
      && Deliveries(due[..i + 1], rows0, env) == Deliveries(due[..i], rows0, env) + (if d.Some? then [d.value] else [])
      && forall h :: h in rows0 ==> rows'[h] == AfterTick(h, rows0[h], due[..i + 1], now, offset, env)
  {
    var g := due[i];
    assert g !in due[..i];
    assert due[..i + 1] == due[..i] + [g];
    assert due[..i + 1][..i] == due[..i];
  }

  lemma ShiftDays(x: int, k: int)
    ensures (x + k * ST.DAY) % ST.DAY == x % ST.DAY
  {
    assert x == (x / ST.DAY) * ST.DAY + x % ST.DAY;
    assert x + k * ST.DAY == (x / ST.DAY + k) * ST.DAY + x % ST.DAY;
    ST.TimeOfDayOf(x / ST.DAY + k, x % ST.DAY);
  }

  /** A served row is rescheduled past now, at its local time. */
  lemma ServedNotDue(s: ST.Settings, now: int, offset: ST.ZoneOffset)
    requires s.frequencyDays >= 1
    ensures var r := Served(s, now, offset);
      var c := ST.StoredClock(s);
      && !Due(r, now)
      && now + (s.frequencyDays - 1) * ST.DAY < r.nextSendAt.value <= now + s.frequencyDays * ST.DAY
      && (r.nextSendAt.value + offset(ST.ZoneOf(s), now) * ST.MINUTE) % ST.DAY == ST.SendTime(c.hour, c.minute, now)
  {
    ST.StoredClockValid(s);
  }

  /** The send instant of the latest local `c` at or before now, on now's local day. */
  function Slot(now: int, c: ST.Clock, off: int): int {
    ((now + off * ST.MINUTE) / ST.DAY) * ST.DAY + c.hour * ST.HOUR + c.minute * ST.MINUTE - off * ST.MINUTE
  }

  /**
   * Serving a slot on its own local day, the tick as written schedules the
   * next send `frequency_days - 1` days after that slot; the intended
   * computation schedules it `frequency_days` days after.
   */
  lemma AsWrittenShortensInterval(now: int, c: ST.Clock, off: int, freq: int)
    requires c.hour <= 23 && c.minute <= 59 && freq >= 2
    requires (now + off * ST.MINUTE) % ST.DAY >= c.hour * ST.HOUR + c.minute * ST.MINUTE
    ensures Slot(now, c, off) <= now
    ensures AsWrittenNext(now, c, off, freq) == Slot(now, c, off) + (freq - 1) * ST.DAY + now % 1000
    ensures IntendedNext(now, c, off, freq) == Slot(now, c, off) + freq * ST.DAY + now % 1000
  {
    var tzNow := now + off * ST.MINUTE;
    var t := c.hour * ST.HOUR + c.minute * ST.MINUTE;
    assert tzNow == (tzNow / ST.DAY) * ST.DAY + tzNow % ST.DAY;
    WholeSecondsSameDay(tzNow, now % 1000, t, now / 1000 + off * 60, c.hour * 3600 + c.minute * 60);
    var tz := now - now % 1000 + off * ST.MINUTE;
    assert tz == tzNow - now % 1000;
    assert (tz / ST.DAY) * ST.DAY + t <= tz;
  }

  /**
   * Reading the local clock to whole seconds, as `tzOffsetMinutes` does,
   * keeps the local day, and a time of day in whole seconds that has passed
   * still reads as passed.
   */
  lemma WholeSecondsSameDay(tz: int, ms: int, t: int, secs: int, tSecs: int)
    requires 0 <= ms < 1000 && tz == 1000 * secs + ms
    requires t == 1000 * tSecs && 0 <= t <= tz % ST.DAY
    ensures (tz - ms) / ST.DAY == tz / ST.DAY
    ensures (tz / ST.DAY) * ST.DAY + t <= tz - ms
  {
    var q := tz / ST.DAY;
    var rem := tz % ST.DAY;
    assert tz == q * ST.DAY + rem;
    var remSecs := rem / 1000;
    assert rem == 1000 * remSecs + rem % 1000;
    assert tz == 1000 * (q * 86400 + remSecs) + rem % 1000;
    assert rem % 1000 == ms;
    assert tz - ms == q * ST.DAY + 1000 * remSecs;
    assert tSecs <= remSecs;
  }

  /** A weekly tip due at 12:00 UTC and sent 30 seconds later is next scheduled six days on, not seven. */
  lemma WeeklyTipComesAfterSixDays()
    ensures AsWrittenNext(43230000, ST.Clock(12, 0), 0, 7) == 43200000 + 6 * ST.DAY
    ensures IntendedNext(43230000, ST.Clock(12, 0), 0, 7) == 43200000 + 7 * ST.DAY
  {
    AsWrittenShortensInterval(43230000, ST.Clock(12, 0), 0, 7);
  }
}
