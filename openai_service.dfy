/**
 * The chat log kept by `getOpenAIResponse` (`features/openaiService.js`):
 * one module-level conversation shared by every caller, which starts with a
 * system prompt, grows by the user's message and the model's reply on each
 * call, and is cut back to its 20 most recent entries by dropping the oldest.
 */
module OpenAIService {
  import opened Wrappers
  import opened Chat

  const MAX_LOG := 20

  const SYSTEM_PROMPT := "You are a general friendly assistant who is knowledgeable about code."

  /** The entry the log starts with. */
  const INITIAL := Message(System, Some(SYSTEM_PROMPT))

  /** The last `MAX_LOG` entries of `s`, or all of them when there are fewer. */
  function Recent(s: seq<Message>): (r: seq<Message>)
    ensures |r| == if |s| <= MAX_LOG then |s| else MAX_LOG
    ensures r == s[|s| - |r|..]
  {
    if |s| <= MAX_LOG then s else s[|s| - MAX_LOG..]
  }

  /**
   * `log.push(m); if (log.length > 20) log.shift();` applied to the recent
   * entries of a history gives the recent entries of the longer history.
   */
  lemma PushShiftKeepsRecent(all: seq<Message>, m: Message)
    ensures var l := Recent(all) + [m];
      (if |l| > MAX_LOG then l[1..] else l) == Recent(all + [m])
  {
    var l := Recent(all) + [m];
    var r := Recent(all + [m]);
    if |l| > MAX_LOG {
      assert |all| >= MAX_LOG;
      forall i | 0 <= i < |r| ensures l[1..][i] == r[i] {
        assert r[i] == (all + [m])[|all| + 1 - MAX_LOG + i];
      }
    } else {
      assert |all| < MAX_LOG;
    }
  }

  /**
   * A full log loses exactly its oldest entry when one more is logged: so the
   * system prompt, being the oldest, is the first entry to go.
   */
  lemma FullLogDropsOldest(all: seq<Message>, m: Message)
    requires |all| >= MAX_LOG
    ensures Recent(all + [m]) == Recent(all)[1..] + [m]
  {
    var r := Recent(all + [m]);
    var l := Recent(all)[1..] + [m];
    forall i | 0 <= i < |r| ensures r[i] == l[i] {
      if i < MAX_LOG - 1 {
        assert r[i] == all[|all| + 1 - MAX_LOG + i];
        assert l[i] == Recent(all)[i + 1] == all[|all| - MAX_LOG + i + 1];
      }
    }
  }

  /** The system prompt stays the first entry until more than 20 entries have been logged. */
  lemma InitialKeptWhileShort(all: seq<Message>)
    requires |all| >= 1 && all[0] == INITIAL
    ensures |all| <= MAX_LOG <==> Recent(all) == all
    ensures |all| <= MAX_LOG ==> Recent(all)[0] == INITIAL
  {
  }

  /** The shared log; `all` is every entry ever logged, which the log keeps the tail of. */
  class ChatLog {
    var log: seq<Message>
    ghost var all: seq<Message>

    ghost predicate Valid()
      reads this
    {
      |all| >= 1 && all[0] == INITIAL && log == Recent(all)
    }

    constructor()
      ensures Valid() && log == [INITIAL] && all == [INITIAL]
    {
      log := [INITIAL];
      all := [INITIAL];
    }

    /**
     * `getOpenAIResponse(userMessage)`. `complete` stands for the chat
     * completion request: given the log as sent, it throws
     * (`CompletionFailed`) or yields the first choice's content, which may be
     * `null`. The user's message is logged before the request and stays
     * logged when the request throws; the content is logged with the system
     * role, `null` included, and returned as it came.
     */
    method GetOpenAIResponse(userMessage: string, complete: seq<Message> -> Completion) returns (response: Completion)
      requires Valid()
      modifies this
      ensures Valid()
      ensures response == complete(Recent(old(all) + [Message(User, Some(userMessage))]))
      ensures all == old(all) + [Message(User, Some(userMessage))]
                   + (if response.Completed? then [Message(System, response.content)] else [])
      ensures |log| <= MAX_LOG
    {
      var asked := Message(User, Some(userMessage));
      PushShiftKeepsRecent(all, asked);
      log := log + [asked];
      if |log| > MAX_LOG {
        log := log[1..];
      }
      all := all + [asked];
      response := complete(log);
      if response.Completed? {
        var answered := Message(System, response.content);
        PushShiftKeepsRecent(all, answered);
        log := log + [answered];
        if |log| > MAX_LOG {
          log := log[1..];
        }
        all := all + [answered];
      }
    }
  }
}
