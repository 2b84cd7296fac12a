/**
 * Knowledge context for prompts: the stored class-summary snippets that match
 * a question, rendered as numbered entries, and the prompt wrapper that puts
 * them in front of the user's text. The full-text search is an oracle from
 * `(guildId, query, limit)` to the rows it finds, `None` when it throws.
 */
module Knowledge {
  import opened Wrappers
  import opened Strings
  import CS = ClassSummaries

  const MIN_QUERY_CHARS: nat := 3
  const DEFAULT_LIMIT: nat := 3
  const ENTRY_BODY_CHARS: nat := 280
  const UNTITLED := "Untitled"
  const PREAMBLE := "Use the knowledge entries below when relevant. If they do not resolve the prompt, explain what additional information is needed before answering.\n\nKnowledge entries:\n"
  const QUESTION_HEADER := "\n\nUser question/context:\n"

  /** The search behind the context: `searchKnowledge(guildId, query, { limit })`, or `None` when it throws. */
  type Search = (string, string, nat) -> Option<seq<CS.Snippet>>

  /**
   * Discord's `<t:SECONDS:f>` markup for a creation time in milliseconds.
   * Dafny's `/` by a positive divisor rounds down, as `Math.floor` does.
   */
  function When(createdAt: int): (r: string)
    ensures |r| > 6 && r[..3] == "<t:" && r[|r| - 3..] == ":f>"
  {
    "<t:" + IntToString(createdAt / 1000) + ":f>"
  }

  /** An entry's title, `'Untitled'` when it has none. */
  function Title(s: CS.Snippet): (r: string)
    ensures r != ""
    ensures s.title.Some? && s.title.value != "" ==> r == s.title.value
    ensures !(s.title.Some? && s.title.value != "") ==> r == UNTITLED
  {
    if s.title.Some? && s.title.value != "" then s.title.value else UNTITLED
  }

  /** An entry's body: its summary, or else the first `n` characters of its content. */
  function Body(s: CS.Snippet, n: nat): (r: string)
    ensures s.summary.Some? && s.summary.value != "" ==> r == s.summary.value
    ensures !(s.summary.Some? && s.summary.value != "") ==>
      r <= s.content && |r| == (if |s.content| <= n then |s.content| else n)
  {
    if s.summary.Some? && s.summary.value != "" then s.summary.value else Take(s.content, n)
  }

  /** Entry `idx` (counted from 0) rendered as `<heading> <idx+1> (<when>) – <title>` and its body on the next line. */
  function Entry(heading: string, idx: nat, s: CS.Snippet, n: nat): (r: string)
    ensures r != ""
  {
    heading + " " + NatToString(idx + 1) + " (" + When(s.createdAt) + ") – " + Title(s) + "\n" + Body(s, n)
  }

  function Entries(heading: string, snips: seq<CS.Snippet>, n: nat): (r: seq<string>)
    ensures |r| == |snips|
    ensures forall i :: 0 <= i < |snips| ==> r[i] == Entry(heading, i, snips[i], n)
  {
    seq(|snips|, i requires 0 <= i < |snips| => Entry(heading, i, snips[i], n))
  }

  /**
   * The entries of `snips`, numbered from 1 in the order found, separated by
   * blank lines: empty exactly when there is nothing to list, and otherwise
   * starting with the first entry.
   */
  function Listing(heading: string, snips: seq<CS.Snippet>, n: nat): (r: string)
    ensures r == "" <==> snips == []
    ensures snips != [] ==> Entry(heading, 0, snips[0], n) <= r
  {
    var entries := Entries(heading, snips, n);
    if snips == [] then Join(entries, "\n\n")
    else
      JoinStartsWithFirst(entries, "\n\n");
      Join(entries, "\n\n")
  }

  /** Listing one more row adds a blank line and that row's entry, numbered after the others. */
  lemma ListingAppend(heading: string, snips: seq<CS.Snippet>, s: CS.Snippet, n: nat)
    requires snips != []
    ensures Listing(heading, snips + [s], n) == Listing(heading, snips, n) + "\n\n" + Entry(heading, |snips|, s, n)
  {
    var entries := Entries(heading, snips, n);
    var last := Entry(heading, |snips|, s, n);
    EntriesAppend(heading, snips, s, n);
    assert Listing(heading, snips, n) == Join(entries, "\n\n");
    assert Listing(heading, snips + [s], n) == Join(entries + [last], "\n\n");
    JoinAppend(entries, last, "\n\n");
  }

  /** One more row adds its entry, numbered after the others, to the entries. */
  lemma EntriesAppend(heading: string, snips: seq<CS.Snippet>, s: CS.Snippet, n: nat)
    ensures Entries(heading, snips + [s], n) == Entries(heading, snips, n) + [Entry(heading, |snips|, s, n)]
  {
    var longer := Entries(heading, snips + [s], n);
    var shorter := Entries(heading, snips, n);
    forall i | 0 <= i < |snips| ensures longer[i] == shorter[i] {
      assert (snips + [s])[i] == snips[i];
    }
    assert longer[|snips|] == Entry(heading, |snips|, s, n);
    assert longer == shorter + [Entry(heading, |snips|, s, n)];
  }

  /** `fetchKnowledgeContext` skips the search without a guild, without a query, or with a query under three characters. */
  predicate SkipsSearch(guildId: Option<string>, query: Option<string>) {
    guildId.None? || guildId.value == "" || query.None? || |query.value| < MIN_QUERY_CHARS
  }

  /**
   * `fetchKnowledgeContext`: the listing of what the search finds, or `''`
   * when the search is skipped, finds nothing or throws.
   */
  function FetchContext(guildId: Option<string>, query: Option<string>, limit: nat, search: Search): (r: string)
    ensures SkipsSearch(guildId, query) ==> r == ""
    ensures !SkipsSearch(guildId, query) ==>
      && (r == "" <==> search(guildId.value, query.value, limit) in {None, Some([])})
      && (r != "" ==> r == Listing("Entry", search(guildId.value, query.value, limit).value, ENTRY_BODY_CHARS))
  {
    if SkipsSearch(guildId, query) then ""
    else
      match search(guildId.value, query.value, limit)
      case None => ""
      case Some(entries) =>
        if entries == [] then "" else Listing("Entry", entries, ENTRY_BODY_CHARS)
  }

  /** A skipped search is never consulted: any two searches give the same, empty, context. */
  lemma SkippedSearchUnused(guildId: Option<string>, query: Option<string>, limit: nat, s1: Search, s2: Search)
    requires SkipsSearch(guildId, query)
    ensures FetchContext(guildId, query, limit, s1) == FetchContext(guildId, query, limit, s2) == ""
  {
  }

  /**
   * `augmentPrompt`: the prompt unchanged when no knowledge is found, and
   * otherwise the knowledge template ending with the prompt verbatim.
   */
  function AugmentPrompt(guildId: Option<string>, basePrompt: string, searchText: Option<string>, limit: nat, search: Search): (r: string)
    ensures var knowledge := FetchContext(guildId, Some(OrElse(searchText, basePrompt)), limit, search);
      && (r == basePrompt <==> knowledge == "")
      && (knowledge != "" ==> |r| > |PREAMBLE| + |knowledge| && r[..|PREAMBLE|] == PREAMBLE && r[|PREAMBLE|..|PREAMBLE| + |knowledge|] == knowledge)
    ensures EndsWith(r, basePrompt)
  {
    var knowledge := FetchContext(guildId, Some(OrElse(searchText, basePrompt)), limit, search);
    if knowledge == "" then basePrompt
    else
      TemplateShape(knowledge, basePrompt);
      PREAMBLE + knowledge + QUESTION_HEADER + basePrompt
  }

  /** The knowledge template opens with the preamble and the listing, ends with the prompt, and is longer than the prompt. */
  lemma TemplateShape(knowledge: string, basePrompt: string)
    requires knowledge != ""
    ensures var r := PREAMBLE + knowledge + QUESTION_HEADER + basePrompt;
      && r != basePrompt
      && |r| > |PREAMBLE| + |knowledge|
      && r[..|PREAMBLE|] == PREAMBLE
      && r[|PREAMBLE|..|PREAMBLE| + |knowledge|] == knowledge
      && EndsWith(r, basePrompt)
  {
    var r := PREAMBLE + knowledge + QUESTION_HEADER + basePrompt;
    assert r == (PREAMBLE + knowledge + QUESTION_HEADER) + basePrompt;
    assert r[|r| - |basePrompt|..] == basePrompt;
  }
}
