/**
 * Button polls (`pollManager.js`): Staff open a modal with a question and up
 * to four options; each option becomes a `vote-N` button; a vote replaces
 * the voter's previous one; the poll's embed lists every option with its
 * number of votes.
 */
module Polls {
  import opened Wrappers
  import opened Strings
  import opened Sorting
  import opened Objects

  // ---------------------------------------------------------------------------
  // Counting votes
  // ---------------------------------------------------------------------------

  /** How many of the votes name option `i`. */
  function CountOf(votes: seq<Option<int>>, i: int): (n: nat)
    ensures n <= |votes|
  {
    if votes == [] then 0
    else CountOf(votes[..|votes| - 1], i) + (if votes[|votes| - 1] == Some(i) then 1 else 0)
  }

  /** Whether a vote names one of `n` options. */
  predicate Names(v: Option<int>, n: nat) {
    v.Some? && 0 <= v.value < n
  }

  /** How many of the votes name one of `n` options. */
  function Counted(votes: seq<Option<int>>, n: nat): (c: nat)
    ensures c <= |votes|
  {
    if votes == [] then 0
    else Counted(votes[..|votes| - 1], n) + (if Names(votes[|votes| - 1], n) then 1 else 0)
  }

  /** One counter per option. */
  function CountsOf(votes: seq<Option<int>>, n: nat): (r: seq<nat>)
    ensures |r| == n && forall i :: 0 <= i < n ==> r[i] == CountOf(votes, i)
  {
    seq(n, i requires 0 <= i < n => CountOf(votes, i))
  }

  function Sum(s: seq<nat>): nat {
    if s == [] then 0 else s[0] + Sum(s[1..])
  }

  lemma {:induction false} SumIncrement(s: seq<nat>, k: nat)
    requires k < |s|
    ensures Sum(s[k := s[k] + 1]) == Sum(s) + 1
    decreases |s|
  {
    if k > 0 {
      assert s[k := s[k] + 1][1..] == s[1..][k - 1 := s[1..][k - 1] + 1];
      SumIncrement(s[1..], k - 1);
    }
  }

  lemma {:induction false} SumZeros(n: nat)
    ensures Sum(seq(n, i => 0)) == 0
    decreases n
  {
    if n > 0 {
      assert seq(n, i => 0)[1..] == seq(n - 1, i => 0);
      SumZeros(n - 1);
    }
  }

  /**
   * The counters add up to the number of votes that name an option, so never
   * to more than the number of votes: a vote that names no option is
   * dropped, and none is counted twice.
   */
  lemma {:induction false} CountsAddUp(votes: seq<Option<int>>, n: nat)
    ensures Sum(CountsOf(votes, n)) == Counted(votes, n) <= |votes|
    decreases |votes|
  {
    if votes == [] {
      assert CountsOf(votes, n) == seq(n, i => 0);
      SumZeros(n);
    } else {
      var init, v := votes[..|votes| - 1], votes[|votes| - 1];
      CountsAddUp(init, n);
      var before := CountsOf(init, n);
      if Names(v, n) {
        assert CountsOf(votes, n) == before[v.value := before[v.value] + 1];
        SumIncrement(before, v.value);
      } else {
        assert CountsOf(votes, n) == before;
      }
    }
  }

  /** `new Array(n).fill(0)` followed by the counting loop of `buildResults`. */
  method Tally(votes: seq<Option<int>>, n: nat) returns (counts: seq<nat>)
    ensures counts == CountsOf(votes, n)
  {
    counts := seq(n, i => 0);
    var j := 0;
    while j < |votes|
      invariant 0 <= j <= |votes|
      invariant |counts| == n && forall i :: 0 <= i < n ==> counts[i] == CountOf(votes[..j], i)
    {
      var idx := votes[j];
      assert votes[..j + 1][..j] == votes[..j];
      if idx.Some? && 0 <= idx.value < n {
        counts := counts[idx.value := counts[idx.value] + 1];
      }
      j := j + 1;
    }
    assert votes[..j] == votes;
  }

  // ---------------------------------------------------------------------------
  // buildResults
  // ---------------------------------------------------------------------------

  /** `${i + 1}. **${opt}** – ${n} vote`, with an `s` unless `n` is 1. */
  function ResultLine(i: nat, opt: string, n: nat): (r: string)
    ensures EndsWith(r, if n == 1 then " 1 vote" else " votes")
  {
    var r := NatToString(i + 1) + ". **" + opt + "** \U{2013} " + NatToString(n) + " vote" + (if n == 1 then "" else "s");
    if n == 1 then
      assert NatToString(1) == "1";
      assert r == (NatToString(i + 1) + ". **" + opt + "** \U{2013}") + " 1 vote";
      r
    else
      assert r == (NatToString(i + 1) + ". **" + opt + "** \U{2013} " + NatToString(n)) + " votes";
      r
  }

  /** One line per option, in order, with that option's count. */
  function ResultLines(options: seq<string>, counts: seq<nat>): (r: seq<string>)
    requires |counts| == |options|
    ensures |r| == |options| && forall i :: 0 <= i < |options| ==> r[i] == ResultLine(i, options[i], counts[i])
  {
    seq(|options|, i requires 0 <= i < |options| => ResultLine(i, options[i], counts[i]))
  }

  /** The poll's embed: its title and its description. */
  datatype Embed = Embed(title: string, description: string)

  /**
   * `buildResults(question, options, votes)`: the question as the title and
   * one line per option, each with the number of current votes for it.
   */
  method BuildResults(question: string, options: seq<string>, votes: Entries<Option<int>>) returns (embed: Embed)
    ensures embed.title == question
    ensures embed.description == Join(ResultLines(options, CountsOf(Values(votes), |options|)), "\n")
  {
    var counts := Tally(Values(votes), |options|);
    embed := Embed(question, Join(ResultLines(options, counts), "\n"));
  }

  // ---------------------------------------------------------------------------
  // Creating a poll and voting
  // ---------------------------------------------------------------------------

  /** Only members with the Staff role may open the poll modal. */
  predicate IsStaff(roles: seq<string>) {
    "Staff" in roles
  }

  /**
   * The option-gathering loop of `handleCreatePollModal`: `fields` are the
   * values of `poll-opt1` to `poll-opt4`; the non-empty ones are kept in
   * order.
   */
  method GatherOptions(fields: seq<string>) returns (options: seq<string>)
    requires |fields| == 4
    ensures options == Filter(fields, NonEmpty)
  {
    options := [];
    var i := 1;
    while i <= 4
      invariant 1 <= i <= 5
      invariant options == Filter(fields[..i - 1], NonEmpty)
    {
      var val := fields[i - 1];
      FilterAppend(fields[..i - 1], val, NonEmpty);
      assert fields[..i] == fields[..i - 1] + [val];
      if val != "" {
        options := options + [val];
      }
      i := i + 1;
    }
    assert fields[..4] == fields;
  }

  /** `parseInt(customId.split('-')[1], 10)`; `None` stands for `NaN`. */
  function VoteIndex(customId: string): (r: Option<int>)
    ensures '-' !in customId ==> r.None?
  {
    var parts := Split(customId, "-");
    assert '-' !in customId ==> parts == [customId] by {
      if '-' !in customId {
        SplitWord(customId, [], '-');
        assert customId + [] == customId;
      }
    }
    if |parts| < 2 then None else ParseInt(parts[1])
  }

  /** The button of option `k` carries `vote-k`, which reads back as `k`. */
  lemma VoteIndexOfButton(k: nat)
    ensures VoteIndex("vote-" + NatToString(k)) == Some(k)
  {
    var d := NatToString(k);
    assert "vote-" + d == Join(["vote", d], "-");
    SplitJoin(["vote", d], '-');
    assert Split("vote-" + d, "-")[1] == d;
    ParseIntOfNatToString(k);
  }

  datatype Poll = Poll(question: string, options: seq<string>, votes: Entries<Option<int>>)

  /** The open polls, keyed by the id of the message that shows them (`polls`). */
  class PollBoard {
    var polls: map<string, Poll>

    constructor()
      ensures polls == map[]
    {
      polls := map[];
    }

    /**
     * `handleCreatePollModal`: at least two options are needed; the poll is
     * then stored under the id of the message posted for it, with no votes.
     */
    method CreatePollModal(question: string, fields: seq<string>, messageId: string) returns (created: bool)
      requires |fields| == 4
      modifies this
      ensures created <==> |Filter(fields, NonEmpty)| >= 2
      ensures created ==> polls == old(polls)[messageId := Poll(question, Filter(fields, NonEmpty), [])]
      ensures !created ==> polls == old(polls)
    {
      var options := GatherOptions(fields);
      if |options| < 2 {
        return false;
      }
      polls := polls[messageId := Poll(question, options, [])];
      created := true;
    }

    /**
     * `handleVoteButton`: a vote on a message that holds no poll is refused;
     * otherwise the voter's vote becomes the button's index and the embed is
     * rebuilt from the new votes.
     */
    method VoteButton(customId: string, messageId: string, userId: string) returns (recorded: bool, embed: Option<Embed>)
      modifies this
      ensures recorded <==> messageId in old(polls)
      ensures !recorded ==> polls == old(polls) && embed.None?
      ensures recorded ==>
        var p := old(polls)[messageId];
        var p' := p.(votes := Assign(p.votes, userId, VoteIndex(customId)));
        && polls == old(polls)[messageId := p']
        && embed == Some(Embed(p.question, Join(ResultLines(p.options, CountsOf(Values(p'.votes), |p.options|)), "\n")))
    {
      var index := VoteIndex(customId);
      if messageId !in polls {
        return false, None;
      }
      var poll := polls[messageId];
      poll := poll.(votes := Assign(poll.votes, userId, index));
      polls := polls[messageId := poll];
      var e := BuildResults(poll.question, poll.options, poll.votes);
      recorded, embed := true, Some(e);
    }
  }

  /**
   * Each user holds one vote, the latest: after a vote the voter's entry is
   * the new index, the entries stay one per user, and the counts add up to
   * at most the number of voters.
   */
  lemma OneVotePerUser(p: Poll, userId: string, customId: string)
    requires DistinctKeys(p.votes)
    ensures var votes := Assign(p.votes, userId, VoteIndex(customId));
      && DistinctKeys(votes)
      && Get(votes, userId) == Some(VoteIndex(customId))
      && Sum(CountsOf(Values(votes), |p.options|)) <= |votes|
  {
    var votes := Assign(p.votes, userId, VoteIndex(customId));
    AssignKeepsDistinct(p.votes, userId, VoteIndex(customId));
    CountsAddUp(Values(votes), |p.options|);
  }
}
