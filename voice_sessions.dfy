/**
 * Recorded class sessions: the per-guild registry of active recordings, the
 * per-user recorders, transcription of what was recorded, the summary built
 * from it, and the voice-state handler that tracks who is in the room.
 *
 * Discord, the Opus decoder, temporary files and the OpenAI calls are
 * replaced by values: a channel is its id, name and members; a recording is
 * the PCM bytes decoded so far; transcription and summarisation are oracle
 * functions from their input to their outcome.
 */
module VoiceSessions {
  import opened Wrappers
  import opened Strings
  import opened Chat
  import Wav
  import CS = ClassSummaries

  type Byte = Wav.Byte

  datatype Member = Member(id: string, displayName: string, bot: bool)

  /** A guild channel as the bot sees it; `isVoice` is `isVoiceBased()`. */
  datatype Channel = Channel(id: string, guildId: string, name: string, isVoice: bool, members: seq<Member>)

  /**
   * A recorder's state: the users with a recording, in the order their first
   * utterance arrived, and the PCM file of each (absent until it exists).
   */
  datatype Recorder = Recorder(recordings: seq<string>, files: map<string, seq<Byte>>)

  /** A registry entry: the session row, the tracked channel, who is in it, and the recorder. */
  datatype ActiveRecord = ActiveRecord(session: CS.Session, channelId: string, participants: set<string>, recorder: Recorder)

  /**
   * What the transcription service answers for one WAV file: it throws, or it
   * replies with a text (`""` when the reply has no text or an empty one).
   */
  datatype Transcription = TranscriptionFailed | Transcribed(text: string)

  datatype Fragment = Fragment(userId: string, username: string, text: string)

  datatype Summary = Summary(summary: Option<string>, combined: string)

  datatype StopResult = StopResult(updated: Option<CS.Session>, transcripts: seq<Fragment>, summary: Option<string>, combined: string)

  const NOT_VOICE := "Target channel must be a voice channel."
  const ALREADY_ACTIVE := "A session is already in progress for this guild."
  const CHANNEL_EMPTY := "channel-empty"

  predicate Distinct(s: seq<string>) {
    forall i, j :: 0 <= i < j < |s| ==> s[i] != s[j]
  }

  /** A recorder whose files all fit a WAV header: `writeUInt32LE` throws beyond 32 bits. */
  predicate FilesEncodable(files: map<string, seq<Byte>>) {
    forall u :: u in files ==> |files[u]| + 36 < 0x1_0000_0000
  }

  // ---------------------------------------------------------------------------
  // The recorder
  // ---------------------------------------------------------------------------

  /**
   * A speaking event: the bot's own voice is ignored; otherwise the user's
   * recording is created on first use and the decoded PCM is appended to it.
   */
  function OnSpeaking(rec: Recorder, botId: string, userId: string, pcm: seq<Byte>): (r: Recorder)
    ensures userId == botId ==> r == rec
    ensures userId != botId ==>
      && r.recordings == (if userId in rec.recordings then rec.recordings else rec.recordings + [userId])
      && r.files == rec.files[userId := (if userId in rec.files then rec.files[userId] else []) + pcm]
  {
    if userId == botId then rec
    else
      var recordings := if userId in rec.recordings then rec.recordings else rec.recordings + [userId];
      var before := if userId in rec.files then rec.files[userId] else [];
      Recorder(recordings, rec.files[userId := before + pcm])
  }

  /** There is one recording per user: a speaking event never duplicates a user. */
  lemma OnSpeakingKeepsDistinct(rec: Recorder, botId: string, userId: string, pcm: seq<Byte>)
    requires Distinct(rec.recordings)
    ensures Distinct(OnSpeaking(rec, botId, userId, pcm).recordings)
    ensures botId !in rec.recordings ==> botId !in OnSpeaking(rec, botId, userId, pcm).recordings
  {
  }

  /** Every utterance is appended: the file grows by exactly the new PCM. */
  lemma OnSpeakingAppends(rec: Recorder, botId: string, userId: string, pcm: seq<Byte>)
    requires userId != botId && userId in rec.files
    ensures OnSpeaking(rec, botId, userId, pcm).files[userId] == rec.files[userId] + pcm
    ensures |OnSpeaking(rec, botId, userId, pcm).recordings| == |rec.recordings| + (if userId in rec.recordings then 0 else 1)
  {
  }

  // ---------------------------------------------------------------------------
  // Transcription and summary
  // ---------------------------------------------------------------------------

  /** The member's display name, or `User <id>` for an unknown member or an empty name. */
  function Username(names: map<string, string>, userId: string): (r: string)
    ensures r != ""
    ensures userId in names && names[userId] != "" ==> r == names[userId]
    ensures !(userId in names && names[userId] != "") ==> r == "User " + userId
  {
    if userId in names && names[userId] != "" then names[userId] else "User " + userId
  }

  /** The WAV file sent for transcription: the capture-format header, then the PCM. */
  function WavOf(pcm: seq<Byte>): seq<Byte>
    requires |pcm| + 36 < 0x1_0000_0000
  {
    Wav.CaptureFormatFields(|pcm|);
    Wav.HeaderBytes(Wav.CAPTURE_FORMAT, |pcm|) + pcm
  }

  /**
   * What one user's recording contributes: nothing when the file is missing
   * or empty, or when transcription throws or has no text; otherwise one
   * fragment with the trimmed text.
   */
  function FragmentOf(userId: string, files: map<string, seq<Byte>>, names: map<string, string>,
                      transcribe: seq<Byte> -> Transcription): (r: seq<Fragment>)
    requires FilesEncodable(files)
    ensures |r| <= 1
    ensures |r| == 1 <==> Kept(userId, files, transcribe)
    ensures |r| == 1 ==> r[0] == Fragment(userId, Username(names, userId), Trim(transcribe(WavOf(files[userId])).text))
  {
    if userId !in files || files[userId] == [] then []
    else match transcribe(WavOf(files[userId]))
      case TranscriptionFailed => []
      case Transcribed(text) =>
        if text == "" then [] else [Fragment(userId, Username(names, userId), Trim(text))]
  }

  /** The fragments of `recordings`, in recording order. */
  function Fragments(recordings: seq<string>, files: map<string, seq<Byte>>, names: map<string, string>,
                     transcribe: seq<Byte> -> Transcription): (r: seq<Fragment>)
    requires FilesEncodable(files)
    ensures |r| <= |recordings|
  {
    if recordings == [] then []
    else Fragments(recordings[..|recordings| - 1], files, names, transcribe)
         + FragmentOf(recordings[|recordings| - 1], files, names, transcribe)
  }

  /** Whether the recording of `u` yields a fragment. */
  predicate Kept(u: string, files: map<string, seq<Byte>>, transcribe: seq<Byte> -> Transcription)
    requires FilesEncodable(files)
  {
    u in files && files[u] != [] && transcribe(WavOf(files[u])).Transcribed? && transcribe(WavOf(files[u])).text != ""
  }

  function Ids(frags: seq<Fragment>): (r: seq<string>)
    ensures |r| == |frags|
  {
    seq(|frags|, i requires 0 <= i < |frags| => frags[i].userId)
  }

  function KeptIds(recordings: seq<string>, files: map<string, seq<Byte>>, transcribe: seq<Byte> -> Transcription): seq<string>
    requires FilesEncodable(files)
  {
    if recordings == [] then []
    else KeptIds(recordings[..|recordings| - 1], files, transcribe)
         + (if Kept(recordings[|recordings| - 1], files, transcribe) then [recordings[|recordings| - 1]] else [])
  }

  /**
   * The fragments are exactly the kept recordings, in recording order, one per
   * user; each carries the user's name and the trimmed transcription.
   */
  lemma {:induction false} FragmentsAreKeptRecordings(recordings: seq<string>, files: map<string, seq<Byte>>,
                                                      names: map<string, string>, transcribe: seq<Byte> -> Transcription)
    requires FilesEncodable(files)
    ensures var frags := Fragments(recordings, files, names, transcribe);
      && Ids(frags) == KeptIds(recordings, files, transcribe)
      && forall i :: 0 <= i < |frags| ==> WellFormed(frags[i], files, names, transcribe)
  {
    if recordings != [] {
      var init := recordings[..|recordings| - 1];
      var u := recordings[|recordings| - 1];
      FragmentsAreKeptRecordings(init, files, names, transcribe);
      var prev := Fragments(init, files, names, transcribe);
      var last := FragmentOf(u, files, names, transcribe);
      assert Fragments(recordings, files, names, transcribe) == prev + last;
      assert KeptIds(recordings, files, transcribe) == KeptIds(init, files, transcribe) + (if Kept(u, files, transcribe) then [u] else []);
      LastFragment(u, files, names, transcribe);
      IdsAppend(prev, last);
      AllWellFormedAppend(prev, last, files, names, transcribe);
    }
  }

  lemma LastFragment(u: string, files: map<string, seq<Byte>>, names: map<string, string>, transcribe: seq<Byte> -> Transcription)
    requires FilesEncodable(files)
    ensures var last := FragmentOf(u, files, names, transcribe);
      && Ids(last) == (if Kept(u, files, transcribe) then [u] else [])
      && forall i :: 0 <= i < |last| ==> WellFormed(last[i], files, names, transcribe)
  {
  }

  lemma IdsAppend(a: seq<Fragment>, b: seq<Fragment>)
    ensures Ids(a + b) == Ids(a) + Ids(b)
  {
  }

  lemma AllWellFormedAppend(a: seq<Fragment>, b: seq<Fragment>, files: map<string, seq<Byte>>,
                            names: map<string, string>, transcribe: seq<Byte> -> Transcription)
    requires FilesEncodable(files)
    requires forall i :: 0 <= i < |a| ==> WellFormed(a[i], files, names, transcribe)
    requires forall i :: 0 <= i < |b| ==> WellFormed(b[i], files, names, transcribe)
    ensures forall i :: 0 <= i < |a + b| ==> WellFormed((a + b)[i], files, names, transcribe)
  {
    forall i | 0 <= i < |a + b| ensures WellFormed((a + b)[i], files, names, transcribe) {
      if i < |a| { assert (a + b)[i] == a[i]; } else { assert (a + b)[i] == b[i - |a|]; }
    }
  }

  /** The fragments of one more recording are those before it, then its own. */
  lemma FragmentsSnoc(recordings: seq<string>, i: nat, files: map<string, seq<Byte>>,
                      names: map<string, string>, transcribe: seq<Byte> -> Transcription)
    requires FilesEncodable(files) && i < |recordings|
    ensures Fragments(recordings[..i + 1], files, names, transcribe)
         == Fragments(recordings[..i], files, names, transcribe) + FragmentOf(recordings[i], files, names, transcribe)
  {
    var prefix := recordings[..i + 1];
    assert prefix[..i] == recordings[..i] && prefix[i] == recordings[i];
  }

  /** A fragment of a kept recording, named after its user, holding the trimmed transcription. */
  predicate WellFormed(f: Fragment, files: map<string, seq<Byte>>, names: map<string, string>, transcribe: seq<Byte> -> Transcription)
    requires FilesEncodable(files)
  {
    && Kept(f.userId, files, transcribe)
    && f.username == Username(names, f.userId)
    && f.text == Trim(transcribe(WavOf(files[f.userId])).text)
  }

  /** The kept ids are drawn from the recordings in order, so distinct recordings give distinct fragments. */
  lemma {:induction false} KeptIdsDistinct(recordings: seq<string>, files: map<string, seq<Byte>>, transcribe: seq<Byte> -> Transcription)
    requires FilesEncodable(files) && Distinct(recordings)
    ensures Distinct(KeptIds(recordings, files, transcribe))
    ensures forall u :: u in KeptIds(recordings, files, transcribe) ==> u in recordings && Kept(u, files, transcribe)
  {
    if recordings != [] {
      var init := recordings[..|recordings| - 1];
      var u := recordings[|recordings| - 1];
      KeptIdsDistinct(init, files, transcribe);
      forall j | 0 <= j < |init| ensures init[j] != u {
        assert init[j] == recordings[j];
      }
      forall x | x in init ensures x in recordings { var j :| 0 <= j < |init| && init[j] == x; assert recordings[j] == x; }
    }
  }

  /**
   * One iteration of `transcribeRecordings`: a missing or empty file is
   * skipped; otherwise the PCM is wrapped as WAV and transcribed.
   */
  method TranscribeOne(userId: string, files: map<string, seq<Byte>>, names: map<string, string>,
                       transcribe: seq<Byte> -> Transcription) returns (piece: seq<Fragment>)
    requires FilesEncodable(files)
    ensures piece == FragmentOf(userId, files, names, transcribe)
  {
    piece := [];
    if userId in files && files[userId] != [] {
      var pcm := files[userId];
      Wav.CaptureFormatFields(|pcm|);
      var wav := Wav.PcmToWav(pcm, Wav.CAPTURE_FORMAT);
      assert wav == WavOf(pcm);
      var username := Username(names, userId);
      var outcome := transcribe(wav);
      if outcome.Transcribed? && outcome.text != "" {
        piece := [Fragment(userId, username, Trim(outcome.text))];
      }
    }
  }

  /** `transcribeRecordings`: one pass over the recordings in insertion order. */
  method TranscribeRecordings(rec: Recorder, names: map<string, string>, transcribe: seq<Byte> -> Transcription)
    returns (results: seq<Fragment>)
    requires FilesEncodable(rec.files)
    ensures results == Fragments(rec.recordings, rec.files, names, transcribe)
  {
    results := [];
    var i := 0;
    while i < |rec.recordings|
      invariant 0 <= i <= |rec.recordings|
      invariant results == Fragments(rec.recordings[..i], rec.files, names, transcribe)
    {
      var userId := rec.recordings[i];
      FragmentsSnoc(rec.recordings, i, rec.files, names, transcribe);
      var piece := TranscribeOne(userId, rec.files, names, transcribe);
      results := results + piece;
      i := i + 1;
    }
    assert rec.recordings[..i] == rec.recordings;
  }

  function Line(f: Fragment): string {
    f.username + ": " + f.text
  }

  function Lines(frags: seq<Fragment>): (r: seq<string>)
    ensures |r| == |frags|
  {
    seq(|frags|, i requires 0 <= i < |frags| => Line(frags[i]))
  }

  /** The transcript: one `name: text` line per fragment, joined with newlines. */
  function Combined(frags: seq<Fragment>): string {
    Join(Lines(frags), "\n")
  }

  const SUMMARY_INSTRUCTIONS := "\n\nPlease provide a concise summary (under 250 words) highlighting key points, decisions, action items, and questions raised. Include bullet points and mention specific dates or names when present."

  /** The summarisation prompt: optional topic and date lines, then the transcript and the instructions. */
  function Prompt(topic: Option<string>, date: Option<string>, combined: string): string {
    var lines := (if topic.Some? && topic.value != "" then ["Class topic: " + topic.value] else [])
      + (if date.Some? then ["Class date: " + date.value] else [])
      + ["Transcript:"] + (if combined != "" then [combined] else []) + [SUMMARY_INSTRUCTIONS];
    Join(lines, "\n")
  }

  /**
   * `generateSummary`: no fragments means no summary and an empty transcript;
   * otherwise the engine is asked, and a failure is `Err`. An empty content
   * counts as no summary.
   */
  function GenerateSummary(frags: seq<Fragment>, topic: Option<string>, date: Option<string>,
                           engine: string -> Completion): (r: Result<Summary, ()>)
    ensures frags == [] ==> r == Ok(Summary(None, ""))
    ensures frags != [] ==> (r.Ok? ==> r.value.combined == Combined(frags)) && (r.Err? <==> engine(Prompt(topic, date, Combined(frags))).CompletionFailed?)
    ensures r.Ok? && r.value.summary.Some? ==> r.value.summary.value != ""
  {
    if frags == [] then Ok(Summary(None, ""))
    else
      var combined := Combined(frags);
      match engine(Prompt(topic, date, combined))
      case CompletionFailed => Err(())
      case Completed(content) => Ok(Summary(OrNull(content), combined))
  }

  /** With no fragments the engine is never consulted: any two engines give the same answer. */
  lemma NoFragmentsNoEngine(topic: Option<string>, date: Option<string>, e1: string -> Completion, e2: string -> Completion)
    ensures GenerateSummary([], topic, date, e1) == GenerateSummary([], topic, date, e2) == Ok(Summary(None, ""))
  {
  }

  /** What `stopSession` keeps of the summary step: a failure keeps the transcript and drops the summary. */
  function StopSummary(frags: seq<Fragment>, topic: Option<string>, date: Option<string>, engine: string -> Completion): (r: Summary)
    ensures r.combined == Combined(frags) || (frags == [] && r.combined == "")
  {
    match GenerateSummary(frags, topic, date, engine)
    case Ok(s) => s
    case Err(_) => Summary(None, Combined(frags))
  }

  /** A line is never empty, so a non-empty set of fragments gives a non-empty transcript. */
  lemma CombinedNonEmpty(frags: seq<Fragment>)
    requires frags != []
    ensures Combined(frags) != ""
  {
    var lines := Lines(frags);
    assert |Line(frags[0])| >= 2;
    if |lines| > 1 {
      JoinCons(lines[0], lines[1..], "\n");
      assert lines == [lines[0]] + lines[1..];
    }
  }

  /** The summary step keeps the transcript, whatever the engine does. */
  lemma StopSummaryTranscript(frags: seq<Fragment>, topic: Option<string>, date: Option<string>, engine: string -> Completion)
    ensures StopSummary(frags, topic, date, engine).combined == Combined(frags)
    ensures engine(Prompt(topic, date, Combined(frags))).CompletionFailed? && frags != [] ==> StopSummary(frags, topic, date, engine).summary.None?
  {
  }

  /** The closing meta: the session's meta, then `reason` and `ended_by` (null when absent). */
  function ClosingMeta(meta: CS.Meta, reason: Option<string>, endedBy: Option<string>): (m: CS.Meta)
    ensures m.Keys == meta.Keys + {"reason", "ended_by"}
    ensures forall k :: k in meta && k != "reason" && k != "ended_by" ==> m[k] == meta[k]
    ensures m["reason"] == (if OrNull(reason).Some? then CS.Text(reason.value) else CS.Null)
    ensures m["ended_by"] == (if OrNull(endedBy).Some? then CS.Text(endedBy.value) else CS.Null)
  {
    meta["reason" := NullOr(reason)]["ended_by" := NullOr(endedBy)]
  }

  function NullOr(s: Option<string>): CS.MetaValue {
    if OrNull(s).Some? then CS.Text(s.value) else CS.Null
  }

  /** The snippet title: the topic, else `Session <id>`. */
  function SnippetTitle(session: CS.Session): (t: string)
    ensures t != ""
    ensures session.topic.Some? && session.topic.value != "" ==> t == session.topic.value
  {
    if session.topic.Some? && session.topic.value != "" then session.topic.value else "Session " + NatToString(session.id)
  }

  /** A snippet is stored only when there is a summary or a transcript. */
  predicate StoresSnippet(s: Summary) {
    (s.summary.Some? && s.summary.value != "") || s.combined != ""
  }

  /** The snippet content: the transcript, else the summary, else empty. */
  function SnippetContent(s: Summary): (c: string)
    ensures StoresSnippet(s) ==> c != ""
    ensures s.combined != "" ==> c == s.combined
  {
    if s.combined != "" then s.combined
    else if s.summary.Some? && s.summary.value != "" then s.summary.value
    else ""
  }

  // ---------------------------------------------------------------------------
  // The registry
  // ---------------------------------------------------------------------------

  /** The ids of the non-bot members. */
  function HumanIds(members: seq<Member>): set<string> {
    if members == [] then {}
    else HumanIds(members[..|members| - 1]) + (if members[|members| - 1].bot then {} else {members[|members| - 1].id})
  }

  /** The participant table after joining every non-bot member, in member order. */
  function JoinHumans(ps: map<CS.Key, CS.Participant>, sessionId: nat, members: seq<Member>, at: int): map<CS.Key, CS.Participant>
  {
    if members == [] then ps
    else
      var before := JoinHumans(ps, sessionId, members[..|members| - 1], at);
      var m := members[|members| - 1];
      if m.bot then before else CS.AfterJoin(before, (sessionId, m.id), at)
  }

  /** Whether a voice-state change enters or leaves the tracked channel. */
  function Movement(oldChannel: Option<string>, newChannel: Option<string>, tracked: string): (r: (bool, bool))
    ensures !(r.0 && r.1)
    ensures r.0 <==> newChannel == Some(tracked) && oldChannel != Some(tracked)
    ensures r.1 <==> oldChannel == Some(tracked) && newChannel != Some(tracked)
  {
    (newChannel == Some(tracked) && oldChannel != Some(tracked),
     oldChannel == Some(tracked) && newChannel != Some(tracked))
  }

  /**
   * What archiving a stopped session does to the store's sessions and
   * snippets: the row (when it exists) is closed with the summary, the
   * transcript, the end time and the closing metadata, and a snippet is
   * upserted when the summary is worth keeping.
   */
  ghost predicate Archived(sessions0: seq<CS.Session>, snippets0: seq<CS.Snippet>, serial0: nat,
                           sessions1: seq<CS.Session>, snippets1: seq<CS.Snippet>, updated: Option<CS.Session>,
                           session: CS.Session, s: Summary, reason: Option<string>, endedBy: Option<string>, now: int)
  {
    && (!(1 <= session.id <= |sessions0|) ==> updated.None? && sessions1 == sessions0)
    && (1 <= session.id <= |sessions0| ==>
         var closed := sessions0[session.id - 1].(
           summary := s.summary, transcript := Some(s.combined), endedAt := Some(now),
           meta := ClosingMeta(session.meta, reason, endedBy));
         updated == Some(closed) && sessions1 == sessions0[session.id - 1 := closed])
    && snippets1 == (if StoresSnippet(s)
         then CS.AfterStoreSnippet(snippets0, serial0, session.id, session.guildId,
                                   Some(SnippetTitle(session)), s.summary, SnippetContent(s), now)
         else snippets0)
  }

  /**
   * The store side of `stopSession`: the row is closed with the summary, the
   * transcript and the closing meta, and a knowledge snippet is stored when
   * there is a summary or a transcript.
   */
  method Archive(store: CS.Store, session: CS.Session, s: Summary, reason: Option<string>, endedBy: Option<string>, now: int)
    returns (updated: Option<CS.Session>)
    requires store.Valid()
    modifies store
    ensures store.Valid()
    ensures Archived(old(store.sessions), old(store.snippets), old(store.snippetSerial), store.sessions, store.snippets,
                     updated, session, s, reason, endedBy, now)
    ensures store.participants == old(store.participants) && store.deliveries == old(store.deliveries)
    ensures store.snippetSerial == old(store.snippetSerial) + (if StoresSnippet(s) then 1 else 0)
  {
    updated := store.CloseSession(session.id, s.summary, Some(s.combined), Some(ClosingMeta(session.meta, reason, endedBy)), now);
    if StoresSnippet(s) {
      store.StoreKnowledgeSnippet(session.id, session.guildId, Some(SnippetTitle(session)), s.summary, SnippetContent(s), now);
    }
  }

  /** The tracked participants after a move: a join adds the member, a leave removes them. */
  function AfterMove(ps: set<string>, mv: (bool, bool), userId: string): set<string> {
    if mv.0 then ps + {userId} else if mv.1 then ps - {userId} else ps
  }

  /** The participant table after a move: a join row for an entry, a leave time for an exit. */
  function MovedRows(ps: map<CS.Key, CS.Participant>, sessionId: nat, mv: (bool, bool), userId: string, at: int): map<CS.Key, CS.Participant> {
    if mv.0 then CS.AfterJoin(ps, (sessionId, userId), at)
    else if mv.1 then CS.AfterLeave(ps, (sessionId, userId), at)
    else ps
  }

  /** Whether a voice-state change starts a recording: a non-bot member entering the channel named `autoName`. */
  predicate AutoStarts(entered: Option<Channel>, memberIsBot: bool, autoName: string) {
    entered.Some? && !memberIsBot && autoName != "" && Lower(entered.value.name) == Lower(autoName)
  }

  /** The row `createSession` returns for a session started in `channel`. */
  function StartedRow(id: nat, channel: Channel, topic: Option<string>, initiatedBy: Option<string>, now: int): CS.Session {
    CS.Session(id, channel.guildId, channel.id, OrNull(initiatedBy), OrNull(topic),
               now, None, None, None, None, map["started_by" := NullOr(initiatedBy)])
  }

  class Registry {
    /** The bot's own user id; its voice is never recorded. */
    const botId: string
    /** `activeSessions`: at most one entry per guild. */
    var active: map<string, ActiveRecord>

    /** Every recorder has one recording per user, never the bot's, and files that fit a WAV header. */
    predicate Valid()
      reads this
    {
      forall g :: g in active ==>
        && Distinct(active[g].recorder.recordings)
        && botId !in active[g].recorder.recordings
        && FilesEncodable(active[g].recorder.files)
    }

    constructor(botId: string)
      ensures this.botId == botId && active == map[] && Valid()
    {
      this.botId := botId;
      active := map[];
    }

    /** `getActiveSession`. */
    function GetActiveSession(guildId: string): (r: Option<ActiveRecord>)
      reads this
      ensures r.Some? <==> guildId in active
      ensures r.Some? ==> r.value == active[guildId]
    {
      if guildId in active then Some(active[guildId]) else None
    }

    /**
     * A speaking event in the guild's recorded channel. A decoded utterance
     * whose file would no longer fit a WAV header is not appended.
     */
    method OnSpeakingStart(guildId: string, userId: string, pcm: seq<Byte>)
      requires Valid()
      modifies this
      ensures Valid()
      ensures guildId !in old(active) || userId == botId ==> active == old(active)
      ensures guildId in old(active) && userId != botId ==>
        var rec := old(active)[guildId].recorder;
        var grown := OnSpeaking(rec, botId, userId, pcm);
        active == old(active)[guildId := old(active)[guildId].(recorder := if FilesEncodable(grown.files) then grown else rec)]
    {
      if guildId in active && userId != botId {
        var rec := active[guildId].recorder;
        OnSpeakingKeepsDistinct(rec, botId, userId, pcm);
        var grown := OnSpeaking(rec, botId, userId, pcm);
        if FilesEncodable(grown.files) {
          active := active[guildId := active[guildId].(recorder := grown)];
        } else {
          active := active[guildId := active[guildId].(recorder := rec)];
        }
      }
    }

    /**
     * `startSession`: a non-voice channel or a guild already recording is
     * refused and nothing changes; otherwise a session row is created, the
     * guild is registered, and every non-bot member is added as a participant.
     */
    method StartSession(store: CS.Store, channel: Channel, topic: Option<string>, initiatedBy: Option<string>, now: int)
      returns (r: Result<CS.Session, string>)
      requires Valid() && store.Valid()
      modifies this, store
      ensures Valid() && store.Valid()
      ensures !channel.isVoice ==> r == Err(NOT_VOICE) && active == old(active) && unchanged(store)
      ensures channel.isVoice && channel.guildId in old(active) ==> r == Err(ALREADY_ACTIVE) && active == old(active) && unchanged(store)
      ensures channel.isVoice && channel.guildId !in old(active) ==>
        && r.Ok?
        && r.value == StartedRow(|old(store.sessions)| + 1, channel, topic, initiatedBy, now)
        && active == old(active)[channel.guildId := ActiveRecord(r.value, channel.id, HumanIds(channel.members), Recorder([], map[]))]
        && store.sessions == old(store.sessions) + [r.value]
        && store.participants == JoinHumans(old(store.participants), r.value.id, channel.members, now)
        && store.deliveries == old(store.deliveries) && store.snippets == old(store.snippets)
        && store.snippetSerial == old(store.snippetSerial)
    {
      if !channel.isVoice {
        return Err(NOT_VOICE);
      }
      if channel.guildId in active {
        return Err(ALREADY_ACTIVE);
      }
      var row := store.CreateSession(channel.guildId, channel.id, OrNull(initiatedBy), topic,
                                     map["started_by" := NullOr(initiatedBy)], now);
      active := active[channel.guildId := ActiveRecord(row, channel.id, {}, Recorder([], map[]))];
      AddHumans(store, channel.guildId, row, channel.members, now);
      r := Ok(row);
    }

    /** The member loop of `startSession`: each non-bot member is added and recorded as joined. */
    method AddHumans(store: CS.Store, g: string, row: CS.Session, members: seq<Member>, now: int)
      requires Valid() && store.Valid()
      requires g in active && active[g].participants == {}
      modifies this, store
      ensures Valid() && store.Valid()
      ensures active == old(active)[g := old(active)[g].(participants := HumanIds(members))]
      ensures store.participants == JoinHumans(old(store.participants), row.id, members, now)
      ensures store.sessions == old(store.sessions) && store.deliveries == old(store.deliveries)
      ensures store.snippets == old(store.snippets) && store.snippetSerial == old(store.snippetSerial)
    {
      var i := 0;
      while i < |members|
        invariant 0 <= i <= |members|
        invariant Valid() && store.Valid()
        invariant active == old(active)[g := old(active)[g].(participants := HumanIds(members[..i]))]
        invariant store.participants == JoinHumans(old(store.participants), row.id, members[..i], now)
        invariant store.sessions == old(store.sessions) && store.deliveries == old(store.deliveries)
        invariant store.snippets == old(store.snippets) && store.snippetSerial == old(store.snippetSerial)
      {
        var member := members[i];
        assert members[..i + 1][..i] == members[..i];
        assert HumanIds(members[..i + 1]) == HumanIds(members[..i]) + (if member.bot then {} else {member.id});
        if !member.bot {
          active := active[g := active[g].(participants := active[g].participants + {member.id})];
          store.RecordParticipantJoin(row.id, member.id, now);
        } else {
          assert HumanIds(members[..i + 1]) == HumanIds(members[..i]);
        }
        i := i + 1;
      }
      assert members[..i] == members;
    }

    /**
     * `stopSession`: nothing to stop gives `None`. Otherwise the guild's entry
     * is removed first, the recordings are transcribed and summarised, the
     * session row is closed, and a knowledge snippet is stored when there is a
     * summary or a transcript. `startedIso` is the session start as ISO text.
     */
    method StopSession(store: CS.Store, guildId: string, reason: Option<string>, endedBy: Option<string>,
                       names: map<string, string>, transcribe: seq<Byte> -> Transcription,
                       engine: string -> Completion, startedIso: string, now: int)
      returns (r: Option<StopResult>)
      requires Valid() && store.Valid()
      modifies this, store
      ensures Valid() && store.Valid()
      ensures guildId !in active
      ensures guildId !in old(active) ==> r.None? && active == old(active) && unchanged(store)
      ensures guildId in old(active) ==>
        var record := old(active)[guildId];
        var session := record.session;
        var frags := Fragments(record.recorder.recordings, record.recorder.files, names, transcribe);
        var s := StopSummary(frags, session.topic, Some(startedIso), engine);
        && active == old(active) - {guildId}
        && r.Some?
        && r.value.transcripts == frags
        && r.value.summary == s.summary && r.value.combined == s.combined
        && Archived(old(store.sessions), old(store.snippets), old(store.snippetSerial), store.sessions, store.snippets,
                    r.value.updated, session, s, reason, endedBy, now)
        && store.participants == old(store.participants) && store.deliveries == old(store.deliveries)
        && store.snippetSerial == old(store.snippetSerial) + (if StoresSnippet(s) then 1 else 0)
    {
      if guildId !in active {
        return None;
      }
      var record := active[guildId];
      assert FilesEncodable(record.recorder.files);
      active := active - {guildId};
      var session := record.session;
      var transcripts := TranscribeRecordings(record.recorder, names, transcribe);
      var s := StopSummary(transcripts, session.topic, Some(startedIso), engine);
      var updated := Archive(store, session, s, reason, endedBy, now);
      r := Some(StopResult(updated, transcripts, s.summary, s.combined));
    }

    /**
     * The participant bookkeeping of `handleVoiceUpdate` for a guild with an
     * active session: a move into the tracked channel adds the member and
     * records a join, a move out removes them and records a leave.
     */
    method TrackMove(store: CS.Store, g: string, userId: string, oldChannel: Option<string>, newChannel: Option<string>, now: int)
      requires Valid() && store.Valid() && g in active
      modifies this, store
      ensures Valid() && store.Valid()
      ensures var record := old(active)[g];
        var mv := Movement(oldChannel, newChannel, record.channelId);
        && active == old(active)[g := record.(participants := AfterMove(record.participants, mv, userId))]
        && store.participants == MovedRows(old(store.participants), record.session.id, mv, userId, now)
      ensures store.sessions == old(store.sessions) && store.deliveries == old(store.deliveries)
      ensures store.snippets == old(store.snippets) && store.snippetSerial == old(store.snippetSerial)
    {
      var record := active[g];
      var sessionId := record.session.id;
      var mv := Movement(oldChannel, newChannel, record.channelId);
      if mv.0 {
        active := active[g := active[g].(participants := active[g].participants + {userId})];
        store.RecordParticipantJoin(sessionId, userId, now);
      }
      if mv.1 {
        active := active[g := active[g].(participants := active[g].participants - {userId})];
        store.RecordParticipantLeave(sessionId, userId, now);
      }
    }

    /**
     * The auto-start of `handleVoiceUpdate`: `startSession` on the channel
     * entered, then the member who entered is added and recorded as joined
     * once more. A channel that is not a voice channel makes `startSession`
     * throw, and nothing changes.
     */
    method AutoStart(store: CS.Store, g: string, userId: string, entered: Channel, now: int)
      requires Valid() && store.Valid() && g !in active && entered.guildId == g
      modifies this, store
      ensures Valid() && store.Valid()
      ensures !entered.isVoice ==> active == old(active) && unchanged(store)
      ensures entered.isVoice ==>
        var row := StartedRow(|old(store.sessions)| + 1, entered, None, Some(userId), now);
        && active == old(active)[g := ActiveRecord(row, entered.id, HumanIds(entered.members) + {userId}, Recorder([], map[]))]
        && store.sessions == old(store.sessions) + [row]
        && store.participants == CS.AfterJoin(JoinHumans(old(store.participants), row.id, entered.members, now), (row.id, userId), now)
        && store.deliveries == old(store.deliveries) && store.snippets == old(store.snippets)
        && store.snippetSerial == old(store.snippetSerial)
    {
      var started := StartSession(store, entered, None, Some(userId), now);
      if g in active {
        var current := active[g];
        active := active[g := current.(participants := current.participants + {userId})];
        store.RecordParticipantJoin(current.session.id, userId, now);
      }
    }

    /**
     * `handleVoiceUpdate`. For a guild with an active session: a move into the
     * tracked channel adds the member and records a join, a move out removes
     * them and records a leave, and when the channel can be found and has no
     * non-bot member left the session is stopped with reason `channel-empty`.
     * For a guild without one: a non-bot member entering the channel named
     * `autoName` (compared in lower case) starts a session and is recorded as
     * a participant. `humansLeft` is the number of non-bot members of the
     * tracked channel, `None` when no such channel is found; `entered` is the
     * channel the member is now in, if any.
     */
    method HandleVoiceUpdate(store: CS.Store, guildId: Option<string>, userId: string, memberIsBot: bool,
                             oldChannel: Option<string>, newChannel: Option<string>, entered: Option<Channel>,
                             humansLeft: Option<nat>, autoName: string,
                             names: map<string, string>, transcribe: seq<Byte> -> Transcription,
                             engine: string -> Completion, startedIso: string, now: int)
      requires Valid() && store.Valid()
      requires entered.Some? && guildId.Some? ==> entered.value.guildId == guildId.value
      modifies this, store
      ensures Valid() && store.Valid()
      ensures guildId.None? ==> active == old(active) && unchanged(store)
      ensures guildId.Some? && guildId.value in old(active) ==>
        var g := guildId.value;
        var record := old(active)[g];
        var mv := Movement(oldChannel, newChannel, record.channelId);
        && store.participants == MovedRows(old(store.participants), record.session.id, mv, userId, now)
        && store.deliveries == old(store.deliveries)
        && (humansLeft != Some(0) ==>
              && active == old(active)[g := record.(participants := AfterMove(record.participants, mv, userId))]
              && store.sessions == old(store.sessions) && store.snippets == old(store.snippets)
              && store.snippetSerial == old(store.snippetSerial))
      ensures guildId.Some? && guildId.value in old(active) && humansLeft == Some(0) ==>
        var g := guildId.value;
        var record := old(active)[g];
        var frags := Fragments(record.recorder.recordings, record.recorder.files, names, transcribe);
        var s := StopSummary(frags, record.session.topic, Some(startedIso), engine);
        && active == old(active) - {g}
        && store.snippetSerial == old(store.snippetSerial) + (if StoresSnippet(s) then 1 else 0)
        && exists updated :: Archived(old(store.sessions), old(store.snippets), old(store.snippetSerial),
                                      store.sessions, store.snippets, updated, record.session, s, Some(CHANNEL_EMPTY), None, now)
      ensures guildId.Some? && guildId.value !in old(active) ==>
        var g := guildId.value;
        && (!(AutoStarts(entered, memberIsBot, autoName) && entered.value.isVoice) ==> active == old(active) && unchanged(store))
        && (AutoStarts(entered, memberIsBot, autoName) && entered.value.isVoice ==>
              var row := StartedRow(|old(store.sessions)| + 1, entered.value, None, Some(userId), now);
              && active == old(active)[g := ActiveRecord(row, entered.value.id, HumanIds(entered.value.members) + {userId}, Recorder([], map[]))]
              && store.sessions == old(store.sessions) + [row]
              && store.participants == CS.AfterJoin(JoinHumans(old(store.participants), row.id, entered.value.members, now), (row.id, userId), now)
              && store.deliveries == old(store.deliveries) && store.snippets == old(store.snippets)
              && store.snippetSerial == old(store.snippetSerial))
    {
      if guildId.None? {
        return;
      }
      var g := guildId.value;
      if g in active {
        TrackMove(store, g, userId, oldChannel, newChannel, now);
        if humansLeft == Some(0) {
          var stopped := StopSession(store, g, Some(CHANNEL_EMPTY), None, names, transcribe, engine, startedIso, now);
        }
        return;
      }
      if AutoStarts(entered, memberIsBot, autoName) {
        AutoStart(store, g, userId, entered.value, now);
      }
    }
  }
}
