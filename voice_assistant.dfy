/**
 * The "Ask Jeffrey" voice assistant: per-guild voice state with a speech
 * queue and a `playing` flag, the set of `guild:user` keys whose utterance is
 * being processed, the recording pipeline (size and length thresholds,
 * transcription, an answer from the knowledge snippets) and the voice-state
 * handler that connects and disconnects.
 *
 * Discord connections and the audio player are reduced to what the bot does
 * with them: a log of voice actions, and the texts handed to the player.
 * Speech synthesis, transcription, the knowledge search and the chat model
 * are oracle inputs.
 */
module VoiceAssistant {
  import opened Wrappers
  import opened Strings
  import opened Chat
  import Wav
  import CS = ClassSummaries
  import VS = VoiceSessions
  import Knowledge

  type Byte = Wav.Byte

  const SAMPLE_RATE: nat := 48000
  const CHANNELS: nat := 2
  const BIT_DEPTH: nat := 16
  const MAX_RESPONSE_CHARS: nat := 900
  const MIN_RECORDING_BYTES: nat := 8000
  const MIN_TRANSCRIPT_CHARS: nat := 5
  const SNIPPET_BODY_CHARS: nat := 240
  const SEARCH_LIMIT: nat := 3
  const DEFAULT_CHANNEL_NAME := "Ask Jeffrey"
  const SYSTEM_PROMPT := "You are Jeffrey, a helpful classroom assistant. Answer succinctly (max 150 words) using the supplied knowledge snippets when relevant. If information is missing, say so politely."
  const FALLBACK_ANSWER := "I’m not sure how to answer that right now, but I’ll keep learning!"
  const ERROR_ANSWER := "I ran into a problem while trying to answer that. Could you try again?"

  /** The fixed capture format of the assistant's recordings. */
  const FORMAT: Wav.Format := Wav.Format(SAMPLE_RATE, CHANNELS, BIT_DEPTH)

  // ---------------------------------------------------------------------------
  // pcmToWav
  // ---------------------------------------------------------------------------

  /**
   * `pcmToWav`: the canonical 44-byte header for 48 kHz, 2-channel, 16-bit
   * PCM, then the PCM. The 32-bit size fields bound the recording.
   */
  method PcmToWav(pcm: seq<Byte>) returns (wav: seq<Byte>)
    requires |pcm| + 36 < 0x1_0000_0000
    ensures wav == Wav.HeaderBytes(FORMAT, |pcm|) + pcm
    ensures |wav| == Wav.HEADER_SIZE + |pcm| && wav[Wav.HEADER_SIZE..] == pcm
    ensures Wav.ReadU32LE(wav, 4) == |pcm| + 36 && Wav.ReadU32LE(wav, 40) == |pcm|
    ensures Wav.ReadU32LE(wav, 24) == 48000 && Wav.ReadU16LE(wav, 22) == 2 && Wav.ReadU16LE(wav, 34) == 16
    ensures Wav.ReadU32LE(wav, 28) == 192000 && Wav.ReadU16LE(wav, 32) == 4
  {
    Wav.CaptureFormatFields(|pcm|);
    wav := Wav.PcmToWav(pcm, FORMAT);
    Wav.HeaderReadBack(FORMAT, pcm);
  }

  // ---------------------------------------------------------------------------
  // buildAnswer
  // ---------------------------------------------------------------------------

  /** The knowledge-snippet context: numbered `Snippet` entries with 240-character bodies. */
  function SnippetContext(snips: seq<CS.Snippet>): string {
    Knowledge.Listing("Snippet", snips, SNIPPET_BODY_CHARS)
  }

  /** The chat request: the persona, the snippets when there are any, then the question. */
  function Messages(context: string, question: string): (r: seq<Message>)
    ensures |r| == (if context == "" then 2 else 3)
    ensures r[0] == Message(System, Some(SYSTEM_PROMPT)) && r[|r| - 1] == Message(User, Some(question))
    ensures context != "" ==> r[1] == Message(System, Some("Knowledge snippets:\n" + context))
  {
    [Message(System, Some(SYSTEM_PROMPT))]
    + (if context != "" then [Message(System, Some("Knowledge snippets:\n" + context))] else [])
    + [Message(User, Some(question))]
  }

  /**
   * `buildAnswer`, together with the `.catch` of its caller. A search that
   * throws counts as no snippets (`found` is `None`); a chat request that
   * throws gives the apology; a missing or empty reply gives the fallback
   * sentence; any answer is cut to 900 characters.
   */
  function Answer(found: Option<seq<CS.Snippet>>, question: string, engine: seq<Message> -> Completion): (r: string)
    ensures r != "" && |r| <= MAX_RESPONSE_CHARS
    ensures var reply := engine(Messages(SnippetContext(found.GetOr([])), question));
      && (reply.CompletionFailed? ==> r == ERROR_ANSWER)
      && (reply.Completed? && (reply.content.None? || reply.content.value == "") ==> r == FALLBACK_ANSWER)
      && (reply.Completed? && reply.content.Some? && reply.content.value != "" ==>
            r <= reply.content.value && |r| == (if |reply.content.value| <= MAX_RESPONSE_CHARS then |reply.content.value| else MAX_RESPONSE_CHARS))
  {
    var messages := Messages(SnippetContext(found.GetOr([])), question);
    match engine(messages)
    case CompletionFailed => ERROR_ANSWER
    case Completed(content) =>
      var answer := if content.Some? && content.value != "" then content.value else FALLBACK_ANSWER;
      Take(answer, MAX_RESPONSE_CHARS)
  }

  /** The snippets are offered to the model exactly when the search found some. */
  lemma SnippetsOfferedIffFound(found: Option<seq<CS.Snippet>>, question: string)
    ensures |Messages(SnippetContext(found.GetOr([])), question)| == 3 <==> found.Some? && found.value != []
  {
  }

  // ---------------------------------------------------------------------------
  // The speech queue
  // ---------------------------------------------------------------------------

  /** The speech side of a guild's state: what is queued, whether it plays, and what the player was given. */
  datatype Speech = Speech(queue: seq<string>, playing: bool, played: seq<string>)

  /**
   * The position of the first queued text that reaches the player: speech
   * synthesis succeeds for it (`synth`) and there is a player to hand it to.
   */
  function FirstSpoken(queue: seq<string>, synth: string -> bool, player: bool): (r: Option<nat>)
    ensures r.Some? ==> r.value < |queue| && player && synth(queue[r.value])
    ensures r.Some? ==> forall j :: 0 <= j < r.value ==> !synth(queue[j])
    ensures r.None? ==> !player || forall j :: 0 <= j < |queue| ==> !synth(queue[j])
    decreases |queue|
  {
    if queue == [] then None
    else if player && synth(queue[0]) then Some(0)
    else match FirstSpoken(queue[1..], synth, player)
      case None => None
      case Some(k) => Some(k + 1)
  }

  /**
   * What `playNext` leaves behind: every text up to and including the first
   * one spoken is taken off the queue and that one is played; when none can
   * be spoken the queue is emptied and playback stops.
   */
  function AfterPlayNext(s: Speech, synth: string -> bool, player: bool): Speech {
    match FirstSpoken(s.queue, synth, player)
    case None => Speech([], false, s.played)
    case Some(k) => Speech(s.queue[k + 1..], true, s.played + [s.queue[k]])
  }

  /** `enqueueSpeech`: an empty text is ignored; otherwise it joins the tail, and an idle player starts. */
  function AfterEnqueue(s: Speech, text: string, synth: string -> bool, player: bool): Speech {
    if text == "" then s
    else if s.playing then s.(queue := s.queue + [text])
    else AfterPlayNext(s.(queue := s.queue + [text]), synth, player)
  }

  /** `playNext` only ever shortens a non-empty queue, and what remains is a tail of it. */
  lemma PlayNextShrinks(s: Speech, synth: string -> bool, player: bool)
    requires s.queue != []
    ensures var r := AfterPlayNext(s, synth, player);
      |r.queue| < |s.queue| && r.queue == s.queue[|s.queue| - |r.queue|..]
  {
  }

  /** After `playNext` the player is busy exactly when one text more was handed to it, and that text could be spoken. */
  lemma PlayNextPlaysOne(s: Speech, synth: string -> bool, player: bool)
    ensures var r := AfterPlayNext(s, synth, player);
      && (r.playing <==> |r.played| == |s.played| + 1)
      && r.played[..|s.played|] == s.played
      && (r.playing ==> player && synth(r.played[|s.played|]) && r.played[|s.played|] in s.queue)
  {
  }

  /** While something plays, a new text waits at the tail of the queue and nothing else changes. */
  lemma EnqueueWhilePlaying(s: Speech, text: string, synth: string -> bool, player: bool)
    requires s.playing && text != ""
    ensures AfterEnqueue(s, text, synth, player) == Speech(s.queue + [text], true, s.played)
  {
  }

  /** An idle guild with an empty queue speaks a new text at once when it can be spoken. */
  lemma EnqueueWhenIdle(s: Speech, text: string, synth: string -> bool, player: bool)
    requires !s.playing && s.queue == [] && text != "" && player && synth(text)
    ensures AfterEnqueue(s, text, synth, player) == Speech([], true, s.played + [text])
  {
    assert (s.queue + [text])[0] == text;
  }

  // ---------------------------------------------------------------------------
  // Per-guild state
  // ---------------------------------------------------------------------------

  /** A guild's entry of `assistantState`. */
  class GuildState {
    var channelId: Option<string>
    /** Whether `connection` is set. */
    var connected: bool
    /** Whether `audioPlayer` is set. */
    var hasPlayer: bool
    var queue: seq<string>
    var playing: bool
    /** Every text handed to the audio player, in order. */
    var played: seq<string>

    /** `{}`: nothing set yet. */
    constructor ()
      ensures channelId.None? && !connected && !hasPlayer
      ensures SpeechNow() == Speech([], false, [])
    {
      channelId := None;
      connected := false;
      hasPlayer := false;
      queue := [];
      playing := false;
      played := [];
    }

    function SpeechNow(): Speech
      reads this
    {
      Speech(queue, playing, played)
    }

    /**
     * `playNext`: stop on an empty queue; otherwise take the head, and either
     * play it or, when synthesis (or the missing player) fails, go on with
     * the rest. The recursion ends because every call shortens the queue.
     */
    method PlayNext(synth: string -> bool)
      modifies this
      ensures SpeechNow() == AfterPlayNext(old(SpeechNow()), synth, hasPlayer)
      ensures channelId == old(channelId) && connected == old(connected) && hasPlayer == old(hasPlayer)
      decreases |queue|
    {
      if queue == [] {
        playing := false;
        return;
      }
      ghost var q := queue;
      var text := queue[0];
      queue := queue[1..];
      if hasPlayer && synth(text) {
        playing := true;
        played := played + [text];
      } else {
        playing := false;
        if queue != [] {
          PlayNext(synth);
          match FirstSpoken(q[1..], synth, hasPlayer)
          case None =>
          case Some(k) => assert q[1..][k + 1..] == q[k + 2..];
        }
      }
    }

    /** `enqueueSpeech`. */
    method Enqueue(text: string, synth: string -> bool)
      modifies this
      ensures SpeechNow() == AfterEnqueue(old(SpeechNow()), text, synth, hasPlayer)
      ensures channelId == old(channelId) && connected == old(connected) && hasPlayer == old(hasPlayer)
    {
      if text == "" {
        return;
      }
      queue := queue + [text];
      if !playing {
        PlayNext(synth);
      }
    }

    /**
     * The player's `Idle` handler: the next text plays when one is queued,
     * and playback stops otherwise, which is what `playNext` does in both cases.
     */
    method OnIdle(synth: string -> bool)
      modifies this
      ensures SpeechNow() == AfterPlayNext(old(SpeechNow()), synth, hasPlayer)
      ensures channelId == old(channelId) && connected == old(connected) && hasPlayer == old(hasPlayer)
    {
      if queue != [] {
        PlayNext(synth);
      } else {
        playing := false;
      }
    }
  }

  // ---------------------------------------------------------------------------
  // The assistant
  // ---------------------------------------------------------------------------

  /** What the bot asks of Discord's voice layer. */
  datatype VoiceAction =
    | JoinChannel(guildId: string, channelId: string)
    | DestroyConnection(guildId: string)
    | StopPlayer(guildId: string)

  /** How one run of the recording pipeline ends. */
  datatype PipelineEnd =
    | StreamFailed
    | RecordingTooShort
    | ProcessingFailed
    | TranscriptTooShort
    | Answered(answer: string)

  /** The `processingUsers` key of a user in a guild. */
  function ProcessingKey(guildId: string, userId: string): string {
    guildId + ":" + userId
  }

  /** The channel name the assistant listens in: the configured one or `Ask Jeffrey`, in lower case. */
  function TargetName(configured: Option<string>): (r: string)
    ensures configured.Some? && configured.value != "" ==> r == Lower(configured.value)
    ensures !(configured.Some? && configured.value != "") ==> r == Lower(DEFAULT_CHANNEL_NAME)
  {
    Lower(if configured.Some? && configured.value != "" then configured.value else DEFAULT_CHANNEL_NAME)
  }

  predicate NoHumans(members: seq<VS.Member>) {
    forall i :: 0 <= i < |members| ==> members[i].bot
  }

  /**
   * How the recording pipeline of one utterance ends: a stream error; a
   * recording under 8000 bytes; a failure while wrapping, transcribing or
   * answering (a recording too long for the WAV size fields, or a
   * transcription that throws); a trimmed transcript under five characters;
   * or an answer.
   */
  function PipelineOutcome(streamError: bool, pcm: seq<Byte>, transcribe: seq<Byte> -> VS.Transcription,
                           found: Option<seq<CS.Snippet>>, engine: seq<Message> -> Completion): (r: PipelineEnd)
    ensures r.Answered? ==> !streamError && |pcm| >= MIN_RECORDING_BYTES && r.answer != "" && |r.answer| <= MAX_RESPONSE_CHARS
    ensures !streamError && |pcm| < MIN_RECORDING_BYTES ==> r == RecordingTooShort
    ensures r.Answered? ==> |pcm| + 36 < 0x1_0000_0000
    ensures r.Answered? ==> (
      Wav.CaptureFormatFields(|pcm|);
      var heard := transcribe(Wav.HeaderBytes(FORMAT, |pcm|) + pcm);
      heard.Transcribed? && |Trim(heard.text)| >= MIN_TRANSCRIPT_CHARS && r.answer == Answer(found, Trim(heard.text), engine))
    ensures !streamError && MIN_RECORDING_BYTES <= |pcm| && |pcm| + 36 < 0x1_0000_0000 ==> (
      Wav.CaptureFormatFields(|pcm|);
      var heard := transcribe(Wav.HeaderBytes(FORMAT, |pcm|) + pcm);
      && (heard.TranscriptionFailed? ==> r == ProcessingFailed)
      && (heard.Transcribed? && |Trim(heard.text)| < MIN_TRANSCRIPT_CHARS ==> r == TranscriptTooShort)
      && (heard.Transcribed? && |Trim(heard.text)| >= MIN_TRANSCRIPT_CHARS ==> r.Answered?))
  {
    if streamError then StreamFailed
    else if |pcm| < MIN_RECORDING_BYTES then RecordingTooShort
    else if |pcm| + 36 >= 0x1_0000_0000 then ProcessingFailed
    else
      Wav.CaptureFormatFields(|pcm|);
      match transcribe(Wav.HeaderBytes(FORMAT, |pcm|) + pcm)
      case TranscriptionFailed => ProcessingFailed
      case Transcribed(text) =>
        var transcript := Trim(text);
        if |transcript| < MIN_TRANSCRIPT_CHARS then TranscriptTooShort
        else Answered(Answer(found, transcript, engine))
  }

  /**
   * The voice actions `ensureConnection` takes for channel `ch` of guild `g`
   * whose connection was `connected` to `current`: none when it already is
   * on `ch`, else the old connection destroyed (if any) and `ch` joined.
   */
  function ConnectActions(g: string, connected: bool, current: Option<string>, ch: string): seq<VoiceAction> {
    if connected && current == Some(ch) then []
    else (if connected then [DestroyConnection(g)] else []) + [JoinChannel(g, ch)]
  }

  /** The voice actions `disconnect` takes for guild `g`: none without a state, else its connection and player. */
  function DisconnectActions(g: string, present: bool, connected: bool, hasPlayer: bool): seq<VoiceAction> {
    if !present then []
    else (if connected then [DestroyConnection(g)] else []) + (if hasPlayer then [StopPlayer(g)] else [])
  }

  /** A non-bot member entering the voice channel whose lower-cased name is `name`. */
  predicate JoinsAssistant(newChannel: Option<VS.Channel>, memberIsBot: bool, name: string) {
    newChannel.Some? && newChannel.value.isVoice && Lower(newChannel.value.name) == name && !memberIsBot
  }

  /** Anyone leaving that channel for another channel or none, and no non-bot member left in it. */
  predicate LeavesEmpty(oldChannel: Option<VS.Channel>, newChannel: Option<VS.Channel>, name: string) {
    && oldChannel.Some? && oldChannel.value.isVoice && Lower(oldChannel.value.name) == name
    && (newChannel.None? || newChannel.value.id != oldChannel.value.id)
    && NoHumans(oldChannel.value.members)
  }

  /** The speech state a guild has before `ensureState`: its own, or a fresh empty one. */
  function SpeechBefore(states: map<string, GuildState>, g: string): Speech
    reads set h | h in states :: states[h]
  {
    if g in states then states[g].SpeechNow() else Speech([], false, [])
  }

  class Assistant {
    /** `assistantState`. */
    var states: map<string, GuildState>
    /** `processingUsers`. */
    var processing: set<string>
    /** The voice actions taken so far, in order. */
    var actions: seq<VoiceAction>

    /**
     * Each guild has a state object of its own, and a guild connected to a
     * channel always knows the channel and has its player.
     */
    predicate Valid()
      reads this, set g | g in states :: states[g]
    {
      && (forall g, h :: g in states && h in states && g != h ==> states[g] != states[h])
      && (forall g :: g in states ==> states[g].connected ==> states[g].hasPlayer && states[g].channelId.Some?)
    }

    constructor ()
      ensures Valid() && states == map[] && processing == {} && actions == []
    {
      states := map[];
      processing := {};
      actions := [];
    }

    /** `ensureState`: the guild's state, created empty on first use. */
    method EnsureState(g: string) returns (st: GuildState)
      requires Valid()
      modifies this
      ensures Valid()
      ensures g in old(states) ==> st == old(states)[g] && states == old(states)
      ensures g !in old(states) ==> fresh(st) && states == old(states)[g := st]
      ensures g !in old(states) ==> st.SpeechNow() == Speech([], false, []) && !st.hasPlayer && !st.connected
      ensures processing == old(processing) && actions == old(actions)
    {
      if g !in states {
        st := new GuildState();
        states := states[g := st];
      } else {
        st := states[g];
      }
    }

    /**
     * `ensureConnection`: a state already connected to this channel is
     * reused untouched; otherwise any old connection is destroyed, the bot
     * joins the channel, and the player is created if missing.
     */
    method EnsureConnection(ch: VS.Channel) returns (st: GuildState)
      requires Valid()
      modifies this, if ch.guildId in states then {states[ch.guildId]} else {}
      ensures Valid()
      ensures forall h :: h in states && h != ch.guildId ==> h in old(states) && states[h] == old(states)[h] && unchanged(states[h])
      ensures ch.guildId in states && st == states[ch.guildId]
      ensures st.connected && st.channelId == Some(ch.id) && st.hasPlayer
      ensures states == old(states)[ch.guildId := st]
      ensures ch.guildId in old(states) ==> st == old(states)[ch.guildId] && st.SpeechNow() == old(st.SpeechNow())
      ensures ch.guildId !in old(states) ==> fresh(st) && st.SpeechNow() == Speech([], false, [])
      ensures var present := ch.guildId in old(states);
        actions == old(actions) + ConnectActions(ch.guildId, present && old(states[ch.guildId].connected),
                                                 if present then old(states[ch.guildId].channelId) else None, ch.id)
      ensures processing == old(processing)
    {
      st := EnsureState(ch.guildId);
      if st.connected && st.channelId == Some(ch.id) {
        return;
      }
      if st.connected {
        actions := actions + [DestroyConnection(ch.guildId)];
      }
      actions := actions + [JoinChannel(ch.guildId, ch.id)];
      st.connected := true;
      st.channelId := Some(ch.id);
      st.hasPlayer := true;
    }

    /**
     * The receiver's `speaking` start event: ignored while the user's key is
     * being processed, or when the member is unknown or a bot; otherwise the
     * key is taken and a pipeline starts.
     */
    method OnSpeakingStart(g: string, userId: string, member: Option<VS.Member>) returns (started: bool)
      modifies this
      ensures started <==> ProcessingKey(g, userId) !in old(processing) && member.Some? && !member.value.bot
      ensures processing == old(processing) + (if started then {ProcessingKey(g, userId)} else {})
      ensures states == old(states) && actions == old(actions)
    {
      var key := ProcessingKey(g, userId);
      if key in processing {
        return false;
      }
      if member.None? || member.value.bot {
        return false;
      }
      processing := processing + {key};
      started := true;
    }

    /**
     * The end of the recording pipeline of `userId` in guild `g`, given how
     * it ended (`PipelineOutcome`, as computed by `Process`): whatever the
     * outcome, the user's processing key is released; an answer is queued as
     * speech on the guild's state.
     */
    method FinishPipeline(g: string, userId: string, end: PipelineEnd, synth: string -> bool)
      requires Valid()
      modifies this, if g in states then {states[g]} else {}
      ensures Valid()
      ensures forall h :: h in states && h != g ==> h in old(states) && states[h] == old(states)[h] && unchanged(states[h])
      ensures processing == old(processing) - {ProcessingKey(g, userId)}
      ensures actions == old(actions)
      ensures !end.Answered? ==> states == old(states)
      ensures end.Answered? ==>
        && g in states && (g in old(states) ==> states == old(states))
        && states[g].SpeechNow() == AfterEnqueue(old(SpeechBefore(states, g)), end.answer, synth,
                                                 g in old(states) && old(states[g].hasPlayer))
    {
      if end.Answered? {
        Speak(g, end.answer, synth);
      }
      processing := processing - {ProcessingKey(g, userId)};
    }

    /** `ensureState` then `enqueueSpeech`: the answer is queued on the guild's state, created if missing. */
    method Speak(g: string, answer: string, synth: string -> bool)
      requires Valid()
      modifies this, if g in states then {states[g]} else {}
      ensures Valid()
      ensures forall h :: h in states && h != g ==> h in old(states) && states[h] == old(states)[h] && unchanged(states[h])
      ensures processing == old(processing) && actions == old(actions)
      ensures g in states && (g in old(states) ==> states == old(states))
      ensures g !in old(states) ==> states == old(states)[g := states[g]]
      ensures states[g].SpeechNow() == AfterEnqueue(old(SpeechBefore(states, g)), answer, synth,
                                                    g in old(states) && old(states[g].hasPlayer))
    {
      ghost var before := SpeechBefore(states, g);
      ghost var player := g in states && states[g].hasPlayer;
      var st := EnsureState(g);
      assert st.SpeechNow() == before && st.hasPlayer == player;
      label enqueue:
      st.Enqueue(answer, synth);
      forall h | h in states
        ensures states[h].connected ==> states[h].hasPlayer && states[h].channelId.Some?
      {
        assert old@enqueue(states[h].connected ==> states[h].hasPlayer && states[h].channelId.Some?);
      }
    }

    /** The steps of the pipeline up to the answer, each failure ending it early. */
    static method Process(streamError: bool, pcm: seq<Byte>, transcribe: seq<Byte> -> VS.Transcription,
                          found: Option<seq<CS.Snippet>>, engine: seq<Message> -> Completion)
      returns (end: PipelineEnd)
      ensures end == PipelineOutcome(streamError, pcm, transcribe, found, engine)
    {
      if streamError {
        return StreamFailed;
      }
      if |pcm| < MIN_RECORDING_BYTES {
        return RecordingTooShort;
      }
      if |pcm| + 36 >= 0x1_0000_0000 {
        return ProcessingFailed;
      }
      var wav := PcmToWav(pcm);
      match transcribe(wav)
      case TranscriptionFailed =>
        end := ProcessingFailed;
      case Transcribed(text) =>
        var transcript := Trim(text);
        if |transcript| < MIN_TRANSCRIPT_CHARS {
          end := TranscriptTooShort;
        } else {
          end := Answered(Answer(found, transcript, engine));
        }
    }

    /** `disconnect`: the connection is destroyed, the player stopped, and the guild's state dropped. */
    method Disconnect(g: string)
      requires Valid()
      modifies this
      ensures Valid()
      ensures states == old(states) - {g}
      ensures var present := g in old(states);
        actions == old(actions) + DisconnectActions(g, present, present && old(states[g].connected), present && old(states[g].hasPlayer))
      ensures processing == old(processing)
    {
      if g !in states {
        return;
      }
      var st := states[g];
      if st.connected {
        actions := actions + [DestroyConnection(g)];
      }
      if st.hasPlayer {
        actions := actions + [StopPlayer(g)];
      }
      states := states - {g};
    }

    /**
     * `handleVoiceUpdate`: a non-bot member entering the assistant's voice
     * channel makes the bot connect there; anyone leaving it for another
     * channel or none disconnects the bot when no non-bot member remains.
     */
    method HandleVoiceUpdate(guildId: Option<string>, oldChannel: Option<VS.Channel>, newChannel: Option<VS.Channel>,
                             memberIsBot: bool, configured: Option<string>)
      requires Valid()
      requires guildId.Some? && newChannel.Some? ==> newChannel.value.guildId == guildId.value
      modifies this, if guildId.Some? && guildId.value in states then {states[guildId.value]} else {}
      ensures Valid()
      ensures processing == old(processing)
      ensures guildId.None? ==> states == old(states) && actions == old(actions)
      ensures guildId.Some? ==>
        && states - {guildId.value} == old(states) - {guildId.value}
        && forall h :: h in states && h != guildId.value ==> h in old(states) && states[h] == old(states)[h] && unchanged(states[h])
      ensures guildId.Some? ==>
        var g := guildId.value;
        var name := TargetName(configured);
        var present := g in old(states);
        actions == old(actions)
             + (if JoinsAssistant(newChannel, memberIsBot, name)
                then ConnectActions(g, present && old(states[g].connected),
                                    if present then old(states[g].channelId) else None, newChannel.value.id)
                else [])
             + (if !LeavesEmpty(oldChannel, newChannel, name) then []
                else if JoinsAssistant(newChannel, memberIsBot, name) then DisconnectActions(g, true, true, true)
                else DisconnectActions(g, present, present && old(states[g].connected), present && old(states[g].hasPlayer)))
      ensures guildId.Some? && LeavesEmpty(oldChannel, newChannel, TargetName(configured)) ==> guildId.value !in states
      ensures guildId.Some? && !LeavesEmpty(oldChannel, newChannel, TargetName(configured))
              && JoinsAssistant(newChannel, memberIsBot, TargetName(configured)) ==>
        var g := guildId.value;
        && g in states && states[g].connected && states[g].channelId == Some(newChannel.value.id) && states[g].hasPlayer
        && (g in old(states) ==> states[g] == old(states[g]) && states[g].SpeechNow() == old(states[g].SpeechNow()))
        && (g !in old(states) ==> states[g].SpeechNow() == Speech([], false, []))
      ensures guildId.Some? && !LeavesEmpty(oldChannel, newChannel, TargetName(configured))
              && !JoinsAssistant(newChannel, memberIsBot, TargetName(configured)) ==>
        && states == old(states) && actions == old(actions)
        && (guildId.value in old(states) ==> unchanged(states[guildId.value]))
    {
      if guildId.None? {
        return;
      }
      var name := TargetName(configured);
      var join := if JoinsAssistant(newChannel, memberIsBot, name) then newChannel else None;
      UpdateGuild(guildId.value, join, LeavesEmpty(oldChannel, newChannel, name));
    }

    /**
     * The guild's part of `handleVoiceUpdate`, once the event is decided:
     * connect to `join` if a member entered the assistant's channel, then
     * disconnect if `leaves`, that channel having been left empty.
     */
    method UpdateGuild(g: string, join: Option<VS.Channel>, leaves: bool)
      requires Valid()
      requires join.Some? ==> join.value.guildId == g
      modifies this, if g in states then {states[g]} else {}
      ensures Valid()
      ensures processing == old(processing)
      ensures states - {g} == old(states) - {g}
      ensures forall h :: h in states && h != g ==> h in old(states) && states[h] == old(states)[h] && unchanged(states[h])
      ensures var present := g in old(states);
        actions == old(actions)
             + (if join.Some?
                then ConnectActions(g, present && old(states[g].connected),
                                    if present then old(states[g].channelId) else None, join.value.id)
                else [])
             + (if !leaves then []
                else if join.Some? then DisconnectActions(g, true, true, true)
                else DisconnectActions(g, present, present && old(states[g].connected), present && old(states[g].hasPlayer)))
      ensures leaves ==> g !in states
      ensures !leaves && join.Some? ==>
        && g in states && states[g].connected && states[g].channelId == Some(join.value.id) && states[g].hasPlayer
        && (g in old(states) ==> states[g] == old(states[g]) && states[g].SpeechNow() == old(states[g].SpeechNow()))
        && (g !in old(states) ==> states[g].SpeechNow() == Speech([], false, []))
      ensures !leaves && join.None? ==>
        && states == old(states) && actions == old(actions)
        && (g in old(states) ==> unchanged(states[g]))
    {
      if join.Some? {
        var st := EnsureConnection(join.value);
        assert states[g] == st && st.connected && st.hasPlayer;
      }
      if leaves {
        Disconnect(g);
      }
    }
  }
}
