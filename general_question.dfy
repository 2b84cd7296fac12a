/**
 * Answering general questions (`features/generalQuestion.js`): which
 * messages the bot answers, the conversation context it sends along with a
 * follow-up in a thread, the prompt built from it, and the names of the
 * threads it opens.
 */
module GeneralQuestion {
  import opened Wrappers
  import opened Strings
  import opened Sorting

  // ---------------------------------------------------------------------------
  // buildThreadContext
  // ---------------------------------------------------------------------------

  /** A message fetched from a thread. An empty `username` or `content` stands for a missing one. */
  datatype ThreadMessage = ThreadMessage(createdTimestamp: int, bot: bool, username: string, content: string)

  const MAX_CONTEXT := 1600

  function CreatedAt(m: ThreadMessage): int {
    m.createdTimestamp
  }

  /** Whether a message contributes a line: a human author and some non-blank text. */
  predicate Speaks(m: ThreadMessage) {
    !m.bot && Trim(m.content) != ""
  }

  /** `${name}: ${text}`, the name defaulting to `user`. */
  function Line(m: ThreadMessage): string {
    (if m.username != "" then m.username else "user") + ": " + Trim(m.content)
  }

  /** The lines the loop of `buildThreadContext` pushes for `ms`, in order. */
  function ContextLines(ms: seq<ThreadMessage>): (r: seq<string>)
    ensures |r| <= |ms|
  {
    if ms == [] then []
    else
      var m := ms[|ms| - 1];
      ContextLines(ms[..|ms| - 1]) + (if Speaks(m) then [Line(m)] else [])
  }

  /** Each message's line, in order. */
  function Lines(ms: seq<ThreadMessage>): (r: seq<string>)
    ensures |r| == |ms| && forall i :: 0 <= i < |ms| ==> r[i] == Line(ms[i])
  {
    if ms == [] then [] else [Line(ms[0])] + Lines(ms[1..])
  }

  /** The loop's lines are the lines of the speaking messages: bots and blank texts are skipped, nothing else. */
  lemma {:induction false} ContextLinesOfSpeakers(ms: seq<ThreadMessage>)
    ensures ContextLines(ms) == Lines(Filter(ms, Speaks))
    decreases |ms|
  {
    if ms != [] {
      var init, m := ms[..|ms| - 1], ms[|ms| - 1];
      assert ms == init + [m];
      ContextLinesOfSpeakers(init);
      FilterAppend(init, m, Speaks);
      LinesAppend(Filter(init, Speaks), m);
    }
  }

  lemma LinesAppend(ms: seq<ThreadMessage>, m: ThreadMessage)
    ensures Lines(ms + [m]) == Lines(ms) + [Line(m)]
  {
  }

  /** `ctx.length > 1600 ? ctx.slice(-1600) : ctx`. */
  function Bounded(ctx: string): (r: string)
    ensures |r| <= MAX_CONTEXT && |r| <= |ctx|
    ensures r == ctx[|ctx| - |r|..]
    ensures |ctx| <= MAX_CONTEXT ==> r == ctx
  {
    if |ctx| > MAX_CONTEXT then TakeLast(ctx, MAX_CONTEXT) else ctx
  }

  /**
   * `buildThreadContext(thread)`. `fetched` is what fetching the thread's
   * recent messages gave, `None` when it threw. The messages are ordered by
   * creation time, stably.
   */
  method BuildThreadContext(fetched: Option<seq<ThreadMessage>>) returns (ctx: string)
    ensures fetched.None? ==> ctx == ""
    ensures fetched.Some? ==> ctx == Bounded(Join(ContextLines(SortBy(fetched.value, CreatedAt)), "\n"))
  {
    if fetched.None? {
      return "";
    }
    var ordered := SortBy(fetched.value, CreatedAt);
    var lines: seq<string> := [];
    var i := 0;
    while i < |ordered|
      invariant 0 <= i <= |ordered|
      invariant lines == ContextLines(ordered[..i])
    {
      var m := ordered[i];
      assert ordered[..i + 1][..i] == ordered[..i];
      if m.bot {
        i := i + 1;
        continue;
      }
      var name := if m.username != "" then m.username else "user";
      var text := Trim(m.content);
      if text == "" {
        i := i + 1;
        continue;
      }
      lines := lines + [name + ": " + text];
      i := i + 1;
    }
    assert ordered[..i] == ordered;
    var full := Join(lines, "\n");
    ctx := if |full| > MAX_CONTEXT then TakeLast(full, MAX_CONTEXT) else full;
  }

  /**
   * The context is at most 1600 characters and ends like the full context;
   * its lines come from the human, non-blank messages in order of creation.
   */
  lemma ContextShape(ms: seq<ThreadMessage>)
    ensures var ordered := SortBy(ms, CreatedAt);
      var full := Join(ContextLines(ordered), "\n");
      var ctx := Bounded(full);
      && |ctx| <= MAX_CONTEXT
      && ctx == full[|full| - |ctx|..]
      && ContextLines(ordered) == Lines(Filter(ordered, Speaks))
      && Sorted(ordered, CreatedAt)
      && multiset(ordered) == multiset(ms)
  {
    ContextLinesOfSpeakers(SortBy(ms, CreatedAt));
  }

  // ---------------------------------------------------------------------------
  // threadName, mention stripping, prompt selection
  // ---------------------------------------------------------------------------

  const MAX_THREAD_NAME := 90

  /** `threadName(prefix, username)`: `${prefix} – ${username}`, cut to 90 characters. */
  function ThreadName(prefix: string, username: string): (r: string)
    ensures |r| <= MAX_THREAD_NAME
    ensures r <= prefix + " – " + username
    ensures |prefix + " – " + username| <= MAX_THREAD_NAME ==> r == prefix + " – " + username
  {
    var base := prefix + " – " + username;
    if |base| > MAX_THREAD_NAME then base[..MAX_THREAD_NAME] else base
  }

  /** The thread names the bot uses always start with their prefix, however long the user name. */
  lemma ThreadNameKeepsPrefix(username: string)
    ensures "Question – " <= ThreadName("Question", username)
    ensures "Jeffrey prompt – " <= ThreadName("Jeffrey prompt", username)
  {
    var q := "Question" + " – " + username;
    assert q == "Question – " + username;
    assert q[..|"Question – "|] == "Question – ";
    var j := "Jeffrey prompt" + " – " + username;
    assert j == "Jeffrey prompt – " + username;
    assert j[..|"Jeffrey prompt – "|] == "Jeffrey prompt – ";
  }

  /** The mention token of the bot's user. */
  function Mention(botId: string): string {
    "<@" + botId + ">"
  }

  /** Every mention of the bot removed, then the text trimmed. */
  function Cleaned(content: string, botId: string): (r: string)
    ensures r == [] || (!IsSpace(r[0]) && !IsSpace(r[|r| - 1]))
  {
    Trim(ReplaceAll(content, Mention(botId), ""))
  }

  /** A message that does not mention the bot by token is only trimmed. */
  lemma CleanedWithoutMention(content: string, botId: string)
    requires !Contains(content, Mention(botId))
    ensures Cleaned(content, botId) == Trim(content)
  {
    ReplaceAllAbsent(content, Mention(botId), "");
  }

  const PROMPT_HEAD := "Using the conversation context below, answer the user's latest message. Resolve pronouns like \"it\" to the appropriate subject from context.\n\nContext:\n"

  const LATEST := "\n\nLatest message: "

  /** The prompt sent for a follow-up: the bare message without context, else the template. */
  function Prompt(context: string, latest: string): (r: string)
    ensures context == "" ==> r == latest
    ensures context != "" ==> PROMPT_HEAD + context <= r && EndsWith(r, LATEST + latest)
  {
    if context == "" then latest
    else
      var r := PROMPT_HEAD + context + LATEST + latest;
      assert r == (PROMPT_HEAD + context) + (LATEST + latest);
      assert r[..|PROMPT_HEAD + context|] == PROMPT_HEAD + context;
      assert r[|r| - |LATEST + latest|..] == LATEST + latest;
      r
  }

  // ---------------------------------------------------------------------------
  // Which messages are answered, and who may choose
  // ---------------------------------------------------------------------------

  datatype Action =
    | Ignore
    | PremiumRequired
    | AnswerInThread(question: string)
    | OfferPrivateHelp

  /**
   * `handleGeneralQuestion(message)`: outside a guild nothing happens; in a
   * thread the bot answers a message that mentions it and says something
   * besides the mention, provided the author is entitled; elsewhere a
   * message ending in `?` starts the private-help offer. `entitled` is what
   * the premium check would answer, asked only once the text is non-empty.
   */
  function OnMessage(guildId: Option<string>, inThread: bool, mentioned: bool, content: string, botId: string,
                     entitled: bool): (r: Action)
    ensures r != Ignore ==> OrNull(guildId).Some?
    ensures inThread && r != Ignore ==> mentioned && Cleaned(content, botId) != ""
    ensures r.AnswerInThread? <==> OrNull(guildId).Some? && inThread && mentioned && Cleaned(content, botId) != "" && entitled
    ensures r.AnswerInThread? ==> r.question == Cleaned(content, botId)
    ensures r == PremiumRequired <==> OrNull(guildId).Some? && inThread && mentioned && Cleaned(content, botId) != "" && !entitled
    ensures r == OfferPrivateHelp <==> OrNull(guildId).Some? && !inThread && EndsWith(content, "?")
  {
    if OrNull(guildId).None? then Ignore
    else if inThread then
      if !mentioned then Ignore
      else
        var cleaned := Cleaned(content, botId);
        if cleaned == "" then Ignore
        else if !entitled then PremiumRequired
        else AnswerInThread(cleaned)
    else if EndsWith(content, "?") then OfferPrivateHelp
    else Ignore
  }

  const YES := "yes_private_help"
  const NO := "no_private_help"

  datatype Choice =
    | NotAuthor
    | ChoiceNeedsPremium
    | AnswerPrivately
    | AnswerPublicly
    | Dismissed

  /**
   * A button press in the private prompt thread: anyone but the author is
   * refused, then an author without premium; otherwise the collector stops
   * and the button chosen decides.
   */
  function OnChoice(authorId: string, clickerId: string, entitled: bool, customId: string): (r: Choice)
    ensures clickerId != authorId ==> r == NotAuthor
  {
    if clickerId != authorId then NotAuthor
    else if !entitled then ChoiceNeedsPremium
    else if customId == YES then AnswerPrivately
    else if customId == NO then AnswerPublicly
    else Dismissed
  }

  /** Whether the press ends the prompt (`collector.stop('handled')`). */
  predicate Stops(c: Choice) {
    c != NotAuthor && c != ChoiceNeedsPremium
  }

  /** Only the entitled author can end the prompt; anyone else leaves it open. */
  lemma OnlyAuthorChooses(authorId: string, clickerId: string, entitled: bool, customId: string)
    ensures Stops(OnChoice(authorId, clickerId, entitled, customId)) <==> clickerId == authorId && entitled
    ensures OnChoice(authorId, clickerId, entitled, customId).AnswerPrivately? ==> clickerId == authorId && customId == YES
  {
  }
}
