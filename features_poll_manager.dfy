/**
 * Reaction polls (`features/pollManager.js`): a modal gives a question and a
 * comma-separated list of options; the poll is posted with one number emoji
 * per option and a Close button, and, when the guild has a `general` text
 * channel, a select menu there to vote with. Closing tallies the recorded
 * votes or, for a poll the bot no longer tracks, reads the counts back from
 * the number reactions on the poll message.
 */
module FeaturePolls {
  import opened Wrappers
  import opened Strings
  import opened Sorting
  import opened Objects
  import Polls

  /** At most as many options as there are number emojis. */
  const MAX_OPTIONS := 10

  /**
   * The number emoji of option `i`: the keycaps 1️⃣ to 9️⃣ (a digit, the
   * emoji variation selector and the combining keycap), then 🔟.
   */
  function NumberEmoji(i: nat): (r: string)
    requires i < MAX_OPTIONS
    ensures r != "" && '\n' !in r && ' ' !in r
  {
    if i < 9 then [('1' as int + i) as char, '\U{FE0F}', '\U{20E3}'] else "\U{1F51F}"
  }

  /** The emojis are distinct, so each option has its own reaction. */
  lemma NumberEmojisDistinct(i: nat, j: nat)
    requires i < j < MAX_OPTIONS
    ensures NumberEmoji(i) != NumberEmoji(j)
  {
    if j < 9 {
      assert NumberEmoji(i)[0] != NumberEmoji(j)[0];
    } else {
      assert |NumberEmoji(i)| != |NumberEmoji(j)|;
    }
  }

  // ---------------------------------------------------------------------------
  // The create-poll button
  // ---------------------------------------------------------------------------

  datatype ButtonReply = RetryNotice | Silent | ShowModal

  /**
   * `handleCreatePollButton`: an interaction more than 2.5 seconds old gets
   * a notice to click again (unless it was already answered); any other gets
   * the modal.
   */
  function CreatePollButton(ageMs: int, answered: bool): (r: ButtonReply)
    ensures r == ShowModal <==> ageMs <= 2500
    ensures r == RetryNotice <==> ageMs > 2500 && !answered
  {
    if ageMs > 2500 then (if !answered then RetryNotice else Silent) else ShowModal
  }

  // ---------------------------------------------------------------------------
  // Submitting the modal
  // ---------------------------------------------------------------------------

  /** `${numberEmojis[i]} ${opt}` for every option. */
  function PollLines(options: seq<string>): (r: seq<string>)
    requires |options| <= MAX_OPTIONS
    ensures |r| == |options| && forall i :: 0 <= i < |options| ==> r[i] == NumberEmoji(i) + " " + options[i]
  {
    seq(|options|, i requires 0 <= i < |options| => NumberEmoji(i) + " " + options[i])
  }

  /** `**${question}**\n\n${lines.join('\n')}`. */
  function PollContent(question: string, options: seq<string>): string
    requires |options| <= MAX_OPTIONS
  {
    "**" + question + "**\n\n" + Join(PollLines(options), "\n")
  }

  datatype Submit =
    | NoQuestion
    | TooFewOptions
    | Posted(question: string, options: seq<string>, content: string)

  /** `options.slice(0, 10)` when there are more than ten. */
  function Kept(options: seq<string>): (r: seq<string>)
    ensures |r| == (if |options| <= MAX_OPTIONS then |options| else MAX_OPTIONS)
    ensures r == options[..|r|]
  {
    if |options| > MAX_OPTIONS then options[..MAX_OPTIONS] else options
  }

  /** What `handleCreatePollSubmit` makes of the two fields. */
  function SubmitPoll(questionRaw: string, optionsRaw: string): (r: Submit)
    ensures r.Posted? ==> r.question == Trim(questionRaw) && 2 <= |r.options| <= MAX_OPTIONS
  {
    var question := Trim(questionRaw);
    var options := CommaList(optionsRaw);
    if question == "" then NoQuestion
    else if |options| < 2 then TooFewOptions
    else
      var kept := Kept(options);
      Posted(question, kept, PollContent(question, kept))
  }

  /**
   * A poll is refused for an empty trimmed question, then for fewer than two
   * options after splitting at commas, trimming and dropping empty items.
   */
  lemma SubmitPollRefuses(questionRaw: string, optionsRaw: string)
    ensures SubmitPoll(questionRaw, optionsRaw) == NoQuestion <==> Trim(questionRaw) == ""
    ensures SubmitPoll(questionRaw, optionsRaw) == TooFewOptions <==> Trim(questionRaw) != "" && |CommaList(optionsRaw)| < 2
  {
  }

  /**
   * A posted poll has the trimmed question and the first ten of its two or
   * more options, and its content lists them under the question.
   */
  lemma SubmitPollPosts(questionRaw: string, optionsRaw: string)
    requires Trim(questionRaw) != "" && |CommaList(optionsRaw)| >= 2
    ensures var r := SubmitPoll(questionRaw, optionsRaw);
      && r.Posted?
      && r.question == Trim(questionRaw)
      && 2 <= |r.options| <= MAX_OPTIONS
      && r.options == Kept(CommaList(optionsRaw))
      && r.content == PollContent(r.question, r.options)
  {
    var kept := Kept(CommaList(optionsRaw));
    assert 2 <= |kept|;
  }

  /** The options of a posted poll are non-empty and have no white space at either end. */
  lemma PostedOptionsTrimmed(questionRaw: string, optionsRaw: string)
    ensures var r := SubmitPoll(questionRaw, optionsRaw);
      r.Posted? ==> forall i :: 0 <= i < |r.options| ==> Trimmed(r.options[i])
  {
    SubmitPollRefuses(questionRaw, optionsRaw);
    if Trim(questionRaw) != "" && |CommaList(optionsRaw)| >= 2 {
      SubmitPollPosts(questionRaw, optionsRaw);
      var opts := CommaList(optionsRaw);
      var kept := Kept(opts);
      forall i | 0 <= i < |kept|
        ensures Trimmed(kept[i])
      {
        assert kept[i] == opts[i];
        assert opts[i] in opts;
      }
    }
  }

  // ---------------------------------------------------------------------------
  // Results
  // ---------------------------------------------------------------------------

  /** `${opt}: **${n}**`. */
  function ResultLine(opt: string, n: nat): string {
    opt + ": **" + NatToString(n) + "**"
  }

  /** One result line per option, with its count. */
  function ResultLines(options: seq<string>, counts: seq<nat>): (r: seq<string>)
    requires |counts| == |options|
    ensures |r| == |options| && forall i :: 0 <= i < |options| ==> r[i] == ResultLine(options[i], counts[i])
  {
    seq(|options|, i requires 0 <= i < |options| => ResultLine(options[i], counts[i]))
  }

  /** Every recorded choice read with `parseInt(choice, 10)`. */
  function Parsed(choices: seq<string>): (r: seq<Option<int>>)
    ensures |r| == |choices| && forall i :: 0 <= i < |choices| ==> r[i] == ParseInt(choices[i])
  {
    seq(|choices|, i requires 0 <= i < |choices| => ParseInt(choices[i]))
  }

  /** `Math.max(0, n)`. */
  function Max0(n: int): nat {
    if n < 0 then 0 else n
  }

  /**
   * The loop of the untracked branch from index `i` on: for each line, while
   * there is a line, fewer than ten have been read and the message has the
   * line's number reaction, the line without `${emoji} `, trimmed, with the
   * reaction count less the bot's own reaction.
   */
  function ReadBack(lines: seq<string>, reactions: map<string, int>, i: nat): seq<string>
    decreases |lines| - i
  {
    if i >= |lines| || i >= MAX_OPTIONS || NumberEmoji(i) !in reactions then []
    else
      var emoji := NumberEmoji(i);
      var option := Trim(ReplaceFirst(lines[i], emoji + " ", ""));
      [ResultLine(option, Max0(reactions[emoji] - 1))] + ReadBack(lines, reactions, i + 1)
  }

  /** The read-back stops at ten lines at most. */
  lemma {:induction false} ReadBackBound(lines: seq<string>, reactions: map<string, int>, i: nat)
    requires i <= MAX_OPTIONS
    ensures |ReadBack(lines, reactions, i)| <= MAX_OPTIONS - i
    decreases |lines| - i
  {
    if !(i >= |lines| || i >= MAX_OPTIONS || NumberEmoji(i) !in reactions) {
      ReadBackBound(lines, reactions, i + 1);
    }
  }

  /** `content.split('\n').slice(k)`, JavaScript's `slice` giving nothing past the end. */
  function LinesFrom(content: string, k: nat): seq<string> {
    var parts := Split(content, "\n");
    if k <= |parts| then parts[k..] else []
  }

  /**
   * The untracked branch as written: it skips only the first line of the
   * content, so the blank line after the question is read as option 1.
   */
  function UntrackedAsWritten(content: string, reactions: map<string, int>): (r: seq<string>)
    ensures |r| <= MAX_OPTIONS
  {
    ReadBackBound(LinesFrom(content, 1), reactions, 0);
    ReadBack(LinesFrom(content, 1), reactions, 0)
  }

  /** The untracked branch skipping the question and the blank line after it. */
  function UntrackedResults(content: string, reactions: map<string, int>): (r: seq<string>)
    ensures |r| <= MAX_OPTIONS
  {
    ReadBackBound(LinesFrom(content, 2), reactions, 0);
    ReadBack(LinesFrom(content, 2), reactions, 0)
  }

  /** The count a number reaction stands for, for each of the first `n` options. */
  function ReactionCounts(reactions: map<string, int>, n: nat): (r: seq<nat>)
    requires n <= MAX_OPTIONS
    requires forall i :: 0 <= i < n ==> NumberEmoji(i) in reactions
    ensures |r| == n && forall i :: 0 <= i < n ==> r[i] == Max0(reactions[NumberEmoji(i)] - 1)
  {
    seq(n, i requires 0 <= i < n => Max0(reactions[NumberEmoji(i)] - 1))
  }

  /** Whether every option of a poll is on one line and already trimmed. */
  predicate SingleLineOptions(options: seq<string>) {
    forall i :: 0 <= i < |options| ==> Trimmed(options[i]) && '\n' !in options[i]
  }

  /** The content of a poll splits into the question line, a blank line and the option lines. */
  lemma ContentSplits(question: string, options: seq<string>)
    requires 1 <= |options| <= MAX_OPTIONS
    requires '\n' !in question && SingleLineOptions(options)
    ensures Split(PollContent(question, options), "\n") == ["**" + question + "**", ""] + PollLines(options)
  {
    var head := "**" + question + "**";
    var lines := PollLines(options);
    JoinCons("", lines, "\n");
    JoinCons(head, [""] + lines, "\n");
    assert [head] + ([""] + lines) == [head, ""] + lines;
    assert PollContent(question, options) == Join([head, ""] + lines, "\n");
    var words := [head, ""] + lines;
    forall i | 0 <= i < |words| ensures '\n' !in words[i] {
      if i >= 2 {
        assert words[i] == NumberEmoji(i - 2) + " " + options[i - 2];
      }
    }
    SplitJoin(words, '\n');
  }

  /** From index `i` on, the read-back of the option lines gives each option with its reaction count. */
  lemma {:induction false} ReadBackOfLines(options: seq<string>, reactions: map<string, int>, i: nat)
    requires i <= |options| <= MAX_OPTIONS
    requires SingleLineOptions(options)
    requires forall k :: 0 <= k < |options| ==> NumberEmoji(k) in reactions
    ensures ReadBack(PollLines(options), reactions, i) == ResultLines(options, ReactionCounts(reactions, |options|))[i..]
    decreases |options| - i
  {
    var lines := PollLines(options);
    var all := ResultLines(options, ReactionCounts(reactions, |options|));
    if i < |options| {
      var emoji := NumberEmoji(i);
        assert emoji + " " <= lines[i];
      assert ReplaceFirst(lines[i], emoji + " ", "") == options[i];
      TrimIdentity(options[i]);
      ReadBackOfLines(options, reactions, i + 1);
      assert all[i..] == [all[i]] + all[i + 1..];
    }
  }

  /**
   * Read back from a posted poll, the corrected branch gives every option,
   * in order, with the count of its number reaction: the same lines the
   * tracked branch would give for those counts.
   */
  lemma UntrackedReadsOptions(question: string, options: seq<string>, reactions: map<string, int>)
    requires 1 <= |options| <= MAX_OPTIONS
    requires '\n' !in question && SingleLineOptions(options)
    requires forall k :: 0 <= k < |options| ==> NumberEmoji(k) in reactions
    ensures UntrackedResults(PollContent(question, options), reactions) == ResultLines(options, ReactionCounts(reactions, |options|))
  {
    ContentSplits(question, options);
    assert LinesFrom(PollContent(question, options), 2) == PollLines(options);
    ReadBackOfLines(options, reactions, 0);
  }

  /** Every poll the modal posts reads back correctly, when its question and options are single lines. */
  lemma SubmittedPollReadsBack(questionRaw: string, optionsRaw: string, reactions: map<string, int>)
    requires var r := SubmitPoll(questionRaw, optionsRaw);
      r.Posted? && '\n' !in r.question && forall i :: 0 <= i < |r.options| ==> '\n' !in r.options[i]
    requires forall k :: 0 <= k < |SubmitPoll(questionRaw, optionsRaw).options| ==> NumberEmoji(k) in reactions
    ensures var r := SubmitPoll(questionRaw, optionsRaw);
      UntrackedResults(r.content, reactions) == ResultLines(r.options, ReactionCounts(reactions, |r.options|))
  {
    var r := SubmitPoll(questionRaw, optionsRaw);
    PostedOptionsTrimmed(questionRaw, optionsRaw);
    UntrackedReadsOptions(r.question, r.options, reactions);
  }

  /** The lines after the first of the poll on `Q` with options `a` and `b`. */
  lemma SampleLines()
    ensures LinesFrom(PollContent("Q", ["a", "b"]), 1) == ["", NumberEmoji(0) + " a", NumberEmoji(1) + " b"]
  {
    assert SingleLineOptions(["a", "b"]);
    ContentSplits("Q", ["a", "b"]);
    var pl := PollLines(["a", "b"]);
    assert |pl| == 2 && pl[0] == NumberEmoji(0) + " a" && pl[1] == NumberEmoji(1) + " b";
  }

  /** The reactions of the sample poll: three for 1️⃣ and one for 2️⃣, the bot's own included. */
  function SampleReactions(): map<string, int> {
    map[NumberEmoji(0) := 3, NumberEmoji(1) := 1]
  }

  lemma SmallNumbers()
    ensures NatToString(0) == "0" && NatToString(2) == "2"
  {
  }

  /** The counts the sample reactions stand for, the bot's own reaction taken off. */
  lemma SampleCounts()
    ensures NumberEmoji(2) !in SampleReactions()
    ensures ReactionCounts(SampleReactions(), 2) == [2, 0]
    ensures Max0(SampleReactions()[NumberEmoji(0)] - 1) == 2 && Max0(SampleReactions()[NumberEmoji(1)] - 1) == 0
  {
    NumberEmojisDistinct(0, 1);
    NumberEmojisDistinct(0, 2);
    NumberEmojisDistinct(1, 2);
    var counts := ReactionCounts(SampleReactions(), 2);
    assert counts[0] == 2 && counts[1] == 0;
  }

  /** The second line of the sample poll holds 1️⃣, not the 2️⃣ the as-written loop strips from it. */
  lemma SampleSecondLine()
    ensures Trim(ReplaceFirst(NumberEmoji(0) + " a", NumberEmoji(1) + " ", "")) == NumberEmoji(0) + " a"
  {
    var l1 := NumberEmoji(0) + " a";
    ReplaceFirstAbsent(l1, NumberEmoji(1) + " ", "");
    TrimIdentity(l1);
  }

  /** One step of the read-back: a line with its reaction gives a result line. */
  lemma ReadBackCons(lines: seq<string>, reactions: map<string, int>, i: nat)
    requires i < |lines| && i < MAX_OPTIONS && NumberEmoji(i) in reactions
    ensures ReadBack(lines, reactions, i) ==
      [ResultLine(Trim(ReplaceFirst(lines[i], NumberEmoji(i) + " ", "")), Max0(reactions[NumberEmoji(i)] - 1))]
      + ReadBack(lines, reactions, i + 1)
  {
  }

  /** The sample's result lines as the as-written loop labels them. */
  lemma SampleLabels()
    ensures ResultLine(Trim(ReplaceFirst("", NumberEmoji(0) + " ", "")), 2) == ": **2**"
    ensures ResultLine(NumberEmoji(0) + " a", 0) == NumberEmoji(0) + " a: **0**"
  {
    SmallNumbers();
    assert Trim("") == "";
  }

  /** The as-written read-back of the sample poll. */
  lemma SampleAsWritten()
    ensures UntrackedAsWritten(PollContent("Q", ["a", "b"]), SampleReactions()) == [": **2**", NumberEmoji(0) + " a: **0**"]
  {
    var reactions := SampleReactions();
    var lines := LinesFrom(PollContent("Q", ["a", "b"]), 1);
    SampleLines();
    SampleCounts();
    SampleSecondLine();
    SampleLabels();
    ReadBackCons(lines, reactions, 0);
    ReadBackCons(lines, reactions, 1);
    assert ReadBack(lines, reactions, 2) == [];
  }

  /** The corrected read-back of the sample poll. */
  lemma SampleCorrected()
    ensures UntrackedResults(PollContent("Q", ["a", "b"]), SampleReactions()) == ["a: **2**", "b: **0**"]
  {
    assert SingleLineOptions(["a", "b"]);
    SampleCounts();
    UntrackedReadsOptions("Q", ["a", "b"], SampleReactions());
    SmallNumbers();
    var r := ResultLines(["a", "b"], [2, 0]);
    assert r[0] == "a: **2**" && r[1] == "b: **0**";
  }

  /**
   * As written, a poll on `Q` with options `a` and `b`, whose reactions
   * number three for 1️⃣ and one for 2️⃣, closes with an unnamed first line
   * carrying option `a`'s count and a second line naming 1️⃣ `a` with
   * option `b`'s count; the corrected branch names `a` and `b`.
   */
  lemma AsWrittenShiftsOptions()
    ensures var content := PollContent("Q", ["a", "b"]);
      && UntrackedAsWritten(content, SampleReactions()) == [": **2**", NumberEmoji(0) + " a: **0**"]
      && UntrackedResults(content, SampleReactions()) == ["a: **2**", "b: **0**"]
      && UntrackedAsWritten(content, SampleReactions()) != UntrackedResults(content, SampleReactions())
  {
    SampleAsWritten();
    SampleCorrected();
    assert [": **2**", NumberEmoji(0) + " a: **0**"][0] != ["a: **2**", "b: **0**"][0];
  }

  // ---------------------------------------------------------------------------
  // The poll store
  // ---------------------------------------------------------------------------

  /** What the bot tracks for a poll: its options, each voter's choice, and the select-menu message. */
  datatype PollRecord = PollRecord(options: seq<string>, votes: Entries<string>,
                                   generalChannelId: Option<string>, generalMessageId: Option<string>)

  /** The poll message as fetched: its content and the count of each reaction emoji. */
  datatype PollMessage = PollMessage(content: string, reactions: map<string, int>)

  /** A closed poll: the result lines, the announcement, and the other channel it also goes to. */
  datatype Closed = Closed(results: seq<string>, announcement: string, alsoTo: Option<string>)

  /** `customId.split(':')[1]`, `None` for `undefined`. */
  function IdAfterColon(customId: string): Option<string> {
    var parts := Split(customId, ":");
    if |parts| < 2 then None else Some(parts[1])
  }

  /** The customId of a select menu or close button reads back as the poll message's id. */
  lemma IdAfterColonOfButton(prefix: string, messageId: string)
    requires ':' !in prefix && ':' !in messageId
    ensures IdAfterColon(prefix + ":" + messageId) == Some(messageId)
  {
    assert prefix + ":" + messageId == Join([prefix, messageId], ":");
    SplitJoin([prefix, messageId], ':');
  }

  /** The tracked polls, keyed by poll message id (`pollData`). */
  class PollStore {
    var polls: map<string, PollRecord>

    constructor()
      ensures polls == map[]
    {
      polls := map[];
    }

    /**
     * `handleCreatePollSubmit`. `pollMessageId` is the id of the posted poll
     * message; `generalChannelId` and `generalMessageId` are the ids of the
     * `general` channel and of the select menu posted there, both `None`
     * when the guild has no such channel. Only a posted poll is tracked, with
     * no votes.
     */
    method CreatePollSubmit(questionRaw: string, optionsRaw: string, pollMessageId: string,
                            generalChannelId: Option<string>, generalMessageId: Option<string>) returns (r: Submit)
      modifies this
      ensures r == SubmitPoll(questionRaw, optionsRaw)
      ensures r.Posted? ==> polls == old(polls)[pollMessageId := PollRecord(r.options, [], generalChannelId, generalMessageId)]
      ensures !r.Posted? ==> polls == old(polls)
    {
      r := SubmitPoll(questionRaw, optionsRaw);
      if r.Posted? {
        polls := polls[pollMessageId := PollRecord(r.options, [], generalChannelId, generalMessageId)];
      }
    }

    /**
     * `handleVoteSelectMenu`: a vote for a poll that is not tracked is
     * refused; otherwise the voter's choice replaces any earlier one.
     */
    method VoteSelectMenu(customId: string, userId: string, choice: string) returns (recorded: bool)
      modifies this
      ensures var id := IdAfterColon(customId);
        && (recorded <==> id.Some? && id.value in old(polls))
        && (recorded ==> polls == old(polls)[id.value := old(polls)[id.value].(votes := Assign(old(polls)[id.value].votes, userId, choice))])
        && (!recorded ==> polls == old(polls))
    {
      var pollId := IdAfterColon(customId);
      if pollId.None? || pollId.value !in polls {
        return false;
      }
      var data := polls[pollId.value];
      polls := polls[pollId.value := data.(votes := Assign(data.votes, userId, choice))];
      recorded := true;
    }

    /**
     * `handleClosePollButton`. `fetched` is the poll message, `None` when
     * fetching it failed, in which case nothing changes. A tracked poll is
     * tallied from its votes and forgotten; any other is read back from the
     * message's content and reactions. The results are announced in the
     * poll's channel and, for a tracked poll whose select menu is elsewhere,
     * in that channel too.
     */
    method ClosePollButton(customId: string, channelId: string, fetched: Option<PollMessage>) returns (r: Option<Closed>)
      modifies this
      ensures var id := IdAfterColon(customId);
        && (r.None? <==> id.None? || fetched.None?)
        && (r.None? ==> polls == old(polls))
        && (r.Some? && id.value in old(polls) ==>
              var data := old(polls)[id.value];
              && polls == old(polls) - {id.value}
              && r.value.results == ResultLines(data.options, Polls.CountsOf(Parsed(Values(data.votes)), |data.options|))
              && r.value.alsoTo == (if data.generalChannelId.Some? && data.generalChannelId.value != "" && data.generalChannelId.value != channelId
                                    then data.generalChannelId else None))
        && (r.Some? && id.value !in old(polls) ==>
              && polls == old(polls)
              && r.value.results == UntrackedResults(fetched.value.content, fetched.value.reactions)
              && r.value.alsoTo.None?)
        && (r.Some? ==> r.value.announcement == "**Poll Results:**\n" + Join(r.value.results, "\n"))
    {
      var messageId := IdAfterColon(customId);
      if messageId.None? || fetched.None? {
        return None;
      }
      var pollMessage := fetched.value;
      var results: seq<string>;
      var alsoTo: Option<string> := None;
      if messageId.value in polls {
        var data := polls[messageId.value];
        var counts := Polls.Tally(Parsed(Values(data.votes)), |data.options|);
        results := ResultLines(data.options, counts);
        if data.generalChannelId.Some? && data.generalChannelId.value != "" && data.generalChannelId.value != channelId {
          alsoTo := data.generalChannelId;
        }
        polls := polls - {messageId.value};
      } else {
        results := ReadReactions(LinesFrom(pollMessage.content, 2), pollMessage.reactions);
      }
      r := Some(Closed(results, "**Poll Results:**\n" + Join(results, "\n"), alsoTo));
    }
  }

  /** The loop of the untracked branch of `handleClosePollButton`. */
  method ReadReactions(lines: seq<string>, reactions: map<string, int>) returns (results: seq<string>)
    ensures results == ReadBack(lines, reactions, 0)
  {
    results := [];
    var i := 0;
    while i < |lines| && i < MAX_OPTIONS
      invariant 0 <= i <= MAX_OPTIONS
      invariant results + ReadBack(lines, reactions, i) == ReadBack(lines, reactions, 0)
      decreases MAX_OPTIONS - i
    {
      var emoji := NumberEmoji(i);
      if emoji !in reactions {
        break;
      }
      var count := Max0(reactions[emoji] - 1);
      var option := Trim(ReplaceFirst(lines[i], emoji + " ", ""));
      results := results + [ResultLine(option, count)];
      i := i + 1;
    }
  }

  /**
   * Closing a tracked poll counts each voter once, for the option their
   * choice names: the counts add up to at most the number of voters.
   */
  lemma TrackedCountsBounded(data: PollRecord)
    requires DistinctKeys(data.votes)
    ensures Polls.Sum(Polls.CountsOf(Parsed(Values(data.votes)), |data.options|)) <= |Keys(data.votes)|
  {
    Polls.CountsAddUp(Parsed(Values(data.votes)), |data.options|);
  }
}
