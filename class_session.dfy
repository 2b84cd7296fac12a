/**
 * The `/class_session` staff command: choosing a stored session to
 * broadcast, the recipient menu and its preview, the open menus
 * (`BROADCAST_MAP`, keyed by the menu message's id) and their buttons, the
 * summary DMs with their delivery records, and the session list.
 *
 * Discord is reduced to values: a guild member is its id, names, bot flag
 * and role names; whether a DM reaches a user is an oracle.
 */
module ClassSession {
  import opened Wrappers
  import opened Strings
  import CS = ClassSummaries
  import Knowledge

  const MAX_OPTIONS: nat := 25
  const PREVIEW_CHARS: nat := 300
  const LIST_LIMIT: nat := 5
  const LIST_SUMMARY_CHARS: nat := 140
  const MENU_LIFETIME_MS: nat := 600000
  const DEFAULT_STUDENT_ROLE := "Students"
  const SELECT_PREFIX := "class-summary-select"
  const SEND_PREFIX := "class-summary-send"
  const CANCEL_PREFIX := "class-summary-cancel"
  const NO_SESSIONS := "No stored sessions found yet."
  const NO_TEXT := "This session does not have a summary or transcript yet."
  const NO_SUMMARY_YET := "No summary yet"
  const NO_SESSIONS_RECORDED := "No sessions recorded yet."
  const NO_CONTENT := "No summary content available yet."
  const SENT_OK := "Summary sent successfully."

  datatype GuildMember = GuildMember(id: string, displayName: string, username: string, bot: bool, roles: seq<string>)

  /** One option of the recipient select menu. */
  datatype SelectOption = SelectOption(text: string, description: string, value: string, isDefault: bool)

  /** A `BROADCAST_MAP` entry. */
  datatype Entry = Entry(ownerId: string, sessionId: nat, selected: seq<string>, memberIds: seq<string>, baseContent: string)

  /** The menu `handleBroadcast` replies with. */
  datatype Menu = Menu(session: CS.Session, content: string, preselect: seq<string>, maxValues: nat,
                       options: seq<SelectOption>, memberIds: seq<string>)

  /** What becomes of one recipient of the summary DM. */
  datatype Reach = NotInGuild | DmFailed | Reached

  /** How `handleComponent` answers a button or menu interaction. */
  datatype ComponentReply =
    | NotOwner
    | Expired
    | SelectionUpdated(content: string)
    | Cancelled
    | SessionNotFound
    | Sent(failures: nat)
    | Ignored

  function Min(a: nat, b: nat): nat {
    if a <= b then a else b
  }

  predicate Truthy(s: Option<string>) {
    s.Some? && s.value != ""
  }

  // ---------------------------------------------------------------------------
  // handleBroadcast
  // ---------------------------------------------------------------------------

  /**
   * `buildSelectOptions`: one option per member among the first 25, in
   * order, labelled with the display name (or the username), pre-selected
   * exactly when the member's id is in `preselect`.
   */
  function SelectOptions(members: seq<GuildMember>, preselect: seq<string>): (r: seq<SelectOption>)
    ensures |r| == Min(|members|, MAX_OPTIONS)
    ensures forall i :: 0 <= i < |r| ==>
      && r[i].value == members[i].id
      && r[i].description == members[i].username
      && r[i].text == (if members[i].displayName != "" then members[i].displayName else members[i].username)
      && (r[i].isDefault <==> members[i].id in preselect)
  {
    var shown := members[..Min(|members|, MAX_OPTIONS)];
    seq(|shown|, i requires 0 <= i < |shown| =>
      SelectOption(if shown[i].displayName != "" then shown[i].displayName else shown[i].username,
                   shown[i].username, shown[i].id, shown[i].id in preselect))
  }

  /**
   * The session `handleBroadcast` works on: the one named by a non-zero
   * `session_id` option; otherwise the newest of this channel, or failing
   * that the newest of the guild.
   */
  function ChooseSession(store: CS.Store, requested: Option<int>, guildId: string, channelId: string): (r: Option<CS.Session>)
    reads store
    requires store.Valid()
    ensures r.Some? ==> r.value in store.sessions
    ensures requested.Some? && requested.value != 0 ==>
      r == (if requested.value >= 1 then store.GetSession(requested.value) else None)
    ensures requested.None? || requested.value == 0 ==>
      && (r.None? <==> !exists s :: s in store.sessions && s.guildId == guildId)
      && (r.Some? ==> r.value.guildId == guildId)
      && (CS.LatestForChannel(store.sessions, guildId, channelId).Some? ==> r == CS.LatestForChannel(store.sessions, guildId, channelId))
      && (r.Some? && CS.LatestForChannel(store.sessions, guildId, channelId).None? ==>
            forall s :: s in store.sessions && s.guildId == guildId ==> s.startedAt <= r.value.startedAt)
  {
    if requested.Some? && requested.value != 0 then
      if requested.value >= 1 then store.GetSession(requested.value) else None
    else
      match CS.LatestForChannel(store.sessions, guildId, channelId)
      case Some(s) => Some(s)
      case None =>
        var list := CS.ListSessions(store.sessions, guildId, 1, 0);
        CS.ListSessionsHead(store.sessions, guildId, 1);
        if list == [] then None else Some(list[0])
  }

  /** The preview: the summary, or else the first 300 characters of the transcript and an ellipsis, or else nothing. */
  function Preview(s: CS.Session): (r: string)
    ensures Truthy(s.summary) ==> r == s.summary.value
    ensures !Truthy(s.summary) && Truthy(s.transcript) ==>
      |r| == Min(|s.transcript.value|, PREVIEW_CHARS) + 1 && r[..|r| - 1] <= s.transcript.value && r[|r| - 1] == '…'
    ensures !Truthy(s.summary) && !Truthy(s.transcript) ==> r == ""
  {
    if Truthy(s.summary) then s.summary.value
    else if Truthy(s.transcript) then Take(s.transcript.value, PREVIEW_CHARS) + "…"
    else ""
  }

  predicate HasRole(m: GuildMember, roleName: string) {
    exists i :: 0 <= i < |m.roles| && Lower(m.roles[i]) == Lower(roleName)
  }

  /** The recipients on offer: the non-bot members holding the student role (compared in lower case), in member order. */
  function Candidates(members: seq<GuildMember>, roleName: string): (r: seq<GuildMember>)
    ensures |r| <= |members|
    ensures forall m :: m in r <==> m in members && !m.bot && HasRole(m, roleName)
  {
    if members == [] then []
    else
      var rest := Candidates(members[..|members| - 1], roleName);
      var m := members[|members| - 1];
      assert forall x :: x in members <==> x in members[..|members| - 1] || x == m;
      if !m.bot && HasRole(m, roleName) then rest + [m] else rest
  }

  function Ids(members: seq<GuildMember>): (r: seq<string>)
    ensures |r| == |members| && forall i :: 0 <= i < |members| ==> r[i] == members[i].id
  {
    seq(|members|, i requires 0 <= i < |members| => members[i].id)
  }

  function NoRoleMessage(roleName: string): string {
    "No members with the “" + roleName + "” role were found."
  }

  /** The text of the menu message. */
  function MenuContent(s: CS.Session): (r: string)
    ensures "Summary ready to send for **" + OrElse(s.topic, "Session #" + NatToString(s.id)) + "**\n\n" <= r
    ensures EndsWith(r, Preview(s))
  {
    var heading := "Summary ready to send for **" + OrElse(s.topic, "Session #" + NatToString(s.id)) + "**\n\n";
    assert (heading + Preview(s))[|heading + Preview(s)| - |Preview(s)|..] == Preview(s);
    heading + Preview(s)
  }

  /**
   * The checks and the menu of `handleBroadcast`: no session, a session with
   * neither summary nor transcript, and no student to send to are errors;
   * otherwise the first 25 candidates are pre-selected.
   */
  function PrepareBroadcast(chosen: Option<CS.Session>, members: seq<GuildMember>, roleName: string): (r: Result<Menu, string>)
    ensures chosen.None? ==> r == Err(NO_SESSIONS)
    ensures chosen.Some? && !Truthy(chosen.value.summary) && !Truthy(chosen.value.transcript) ==> r == Err(NO_TEXT)
    ensures chosen.Some? && (Truthy(chosen.value.summary) || Truthy(chosen.value.transcript)) ==>
      (r.Err? <==> Candidates(members, roleName) == []) && (r.Err? ==> r.error == NoRoleMessage(roleName))
    ensures r.Ok? ==>
      var cands := Candidates(members, roleName);
      && r.value.session == chosen.value
      && r.value.memberIds == Ids(cands)
      && r.value.preselect == Ids(cands)[..Min(|cands|, MAX_OPTIONS)]
      && 1 <= r.value.maxValues == Min(MAX_OPTIONS, |cands|) == |r.value.options|
      && r.value.options == SelectOptions(cands, r.value.preselect)
      && r.value.content == MenuContent(chosen.value)
  {
    if chosen.None? then Err(NO_SESSIONS)
    else
      var s := chosen.value;
      if !Truthy(s.summary) && !Truthy(s.transcript) then Err(NO_TEXT)
      else
        var cands := Candidates(members, roleName);
        if cands == [] then Err(NoRoleMessage(roleName))
        else
          var preselect := Ids(cands)[..Min(|cands|, MAX_OPTIONS)];
          Ok(Menu(s, MenuContent(s), preselect, Min(MAX_OPTIONS, |cands|), SelectOptions(cands, preselect), Ids(cands)))
  }

  /** Every option on a fresh menu starts out selected. */
  lemma MenuPreselectsAll(chosen: Option<CS.Session>, members: seq<GuildMember>, roleName: string)
    requires PrepareBroadcast(chosen, members, roleName).Ok?
    ensures var menu := PrepareBroadcast(chosen, members, roleName).value;
      forall i :: 0 <= i < |menu.options| ==> menu.options[i].isDefault && menu.options[i].value in menu.preselect
  {
    var menu := PrepareBroadcast(chosen, members, roleName).value;
    var cands := Candidates(members, roleName);
    forall i | 0 <= i < |menu.options| ensures menu.options[i].isDefault && menu.options[i].value in menu.preselect {
      assert menu.preselect[i] == cands[i].id;
    }
  }

  // ---------------------------------------------------------------------------
  // Sending the summary
  // ---------------------------------------------------------------------------

  /** The DM each recipient gets: the topic in bold, then the summary, the transcript or a placeholder. */
  function DmContent(s: CS.Session): (r: string)
    ensures "**" + OrElse(s.topic, "Class Summary") + "**\n\n" <= r
    ensures Truthy(s.summary) ==> EndsWith(r, s.summary.value)
    ensures !Truthy(s.summary) && Truthy(s.transcript) ==> EndsWith(r, s.transcript.value)
    ensures !Truthy(s.summary) && !Truthy(s.transcript) ==> EndsWith(r, NO_CONTENT)
  {
    var heading := "**" + OrElse(s.topic, "Class Summary") + "**\n\n";
    var body := OrElse(s.summary, OrElse(s.transcript, NO_CONTENT));
    assert (heading + body)[|heading + body| - |body|..] == body;
    heading + body
  }

  /** Who is sent the summary: the selection, or every candidate when nothing is selected. */
  function Recipients(e: Entry): (r: seq<string>)
    ensures e.selected != [] ==> r == e.selected
    ensures e.selected == [] ==> r == e.memberIds
  {
    if e.selected != [] then e.selected else e.memberIds
  }

  /** The recipients whose DM (or its delivery record) failed, in order. */
  function Failures(recipients: seq<string>, content: string, reach: (string, string) -> Reach): (r: seq<string>)
    ensures |r| <= |recipients|
    ensures forall u :: u in r <==> u in recipients && reach(u, content) == DmFailed
  {
    if recipients == [] then []
    else
      var init := recipients[..|recipients| - 1];
      var u := recipients[|recipients| - 1];
      assert forall x :: x in recipients <==> x in init || x == u;
      Failures(init, content, reach) + (if reach(u, content) == DmFailed then [u] else [])
  }

  /** The deliveries table after recording each reached recipient, in order. */
  function Delivered(ds: map<CS.Key, CS.Delivery>, sessionId: nat, recipients: seq<string>, content: string,
                     sender: string, reach: (string, string) -> Reach, now: int): map<CS.Key, CS.Delivery>
  {
    if recipients == [] then ds
    else
      var before := Delivered(ds, sessionId, recipients[..|recipients| - 1], content, sender, reach, now);
      var u := recipients[|recipients| - 1];
      if reach(u, content) == Reached then CS.AfterDeliver(before, (sessionId, u), Some(sender), now) else before
  }

  /**
   * Sending adds a delivery row for exactly the recipients reached, each
   * stamped with the sender and the time, and leaves every other row alone.
   */
  lemma {:induction false} DeliveredRows(ds: map<CS.Key, CS.Delivery>, sessionId: nat, recipients: seq<string>, content: string,
                                         sender: string, reach: (string, string) -> Reach, now: int)
    ensures var r := Delivered(ds, sessionId, recipients, content, sender, reach, now);
      && (forall k :: k in r <==> k in ds || (k.0 == sessionId && k.1 in recipients && reach(k.1, content) == Reached))
      && (forall u :: u in recipients && reach(u, content) == Reached ==> r[(sessionId, u)] == CS.Delivery(now, OrNull(Some(sender))))
      && (forall k :: k in ds && !(k.0 == sessionId && k.1 in recipients && reach(k.1, content) == Reached) ==> r[k] == ds[k])
    decreases |recipients|
  {
    if recipients != [] {
      var init := recipients[..|recipients| - 1];
      var u := recipients[|recipients| - 1];
      assert forall x :: x in recipients <==> x in init || x == u;
      DeliveredRows(ds, sessionId, init, content, sender, reach, now);
    }
  }

  /**
   * The send loop of `handleComponent`: each recipient who is a member is
   * sent the DM, and a delivery is recorded when it arrives; failures are
   * collected.
   */
  method SendSummaries(store: CS.Store, sessionId: nat, recipients: seq<string>, content: string, sender: string,
                       reach: (string, string) -> Reach, now: int)
    returns (failures: seq<string>)
    requires store.Valid()
    modifies store
    ensures store.Valid()
    ensures failures == Failures(recipients, content, reach)
    ensures store.deliveries == Delivered(old(store.deliveries), sessionId, recipients, content, sender, reach, now)
    ensures store.sessions == old(store.sessions) && store.participants == old(store.participants)
    ensures store.snippets == old(store.snippets) && store.snippetSerial == old(store.snippetSerial)
  {
    failures := [];
    var i := 0;
    while i < |recipients|
      invariant 0 <= i <= |recipients|
      invariant store.Valid()
      invariant failures == Failures(recipients[..i], content, reach)
      invariant store.deliveries == Delivered(old(store.deliveries), sessionId, recipients[..i], content, sender, reach, now)
      invariant store.sessions == old(store.sessions) && store.participants == old(store.participants)
      invariant store.snippets == old(store.snippets) && store.snippetSerial == old(store.snippetSerial)
    {
      var userId := recipients[i];
      SendStep(old(store.deliveries), sessionId, recipients, i, content, sender, reach, now);
      var outcome := reach(userId, content);
      if outcome == DmFailed {
        failures := failures + [userId];
      } else if outcome == Reached {
        store.RecordDelivery(sessionId, userId, Some(sender), now);
      }
      i := i + 1;
    }
    assert recipients[..i] == recipients;
  }

  /** One more recipient: a failure is collected, a reached recipient gets a delivery row, and nothing else changes. */
  lemma SendStep(ds: map<CS.Key, CS.Delivery>, sessionId: nat, recipients: seq<string>, i: nat, content: string,
                 sender: string, reach: (string, string) -> Reach, now: int)
    requires i < |recipients|
    ensures var u := recipients[i];
      && Failures(recipients[..i + 1], content, reach) ==
           Failures(recipients[..i], content, reach) + (if reach(u, content) == DmFailed then [u] else [])
      && Delivered(ds, sessionId, recipients[..i + 1], content, sender, reach, now) ==
           var before := Delivered(ds, sessionId, recipients[..i], content, sender, reach, now);
           if reach(u, content) == Reached then CS.AfterDeliver(before, (sessionId, u), Some(sender), now) else before
  {
    assert recipients[..i + 1][..i] == recipients[..i];
  }

  /** The reply after sending. */
  function SentMessage(failures: nat): string {
    if failures > 0 then "Summary sent, but " + NatToString(failures) + " user(s) could not be reached." else SENT_OK
  }

  // ---------------------------------------------------------------------------
  // Custom ids
  // ---------------------------------------------------------------------------

  /** The `prefix:ownerId:sessionId` id of the menu's components. */
  function CustomId(prefix: string, ownerId: string, sessionId: nat): string {
    prefix + ":" + ownerId + ":" + NatToString(sessionId)
  }

  /** The parts of a custom id, as `split(':')` gives them. */
  function Parts(customId: string): (r: seq<string>)
    ensures r != []
  {
    Split(customId, ":")
  }

  /** The owner named by a custom id; `None` is `undefined`. */
  function OwnerOf(customId: string): Option<string> {
    var parts := Parts(customId);
    if |parts| > 1 then Some(parts[1]) else None
  }

  /** `Number(sessionId)` for the digit strings the bot writes; anything else finds no session. */
  function SessionIdOf(customId: string): Option<nat> {
    var parts := Parts(customId);
    if |parts| > 2 && parts[2] != "" && AllDigits(parts[2]) then Some(DigitsValue(parts[2])) else None
  }

  /** The ids the bot builds read back as their prefix, owner and session (for owners without `:`). */
  lemma CustomIdRoundTrip(prefix: string, ownerId: string, sessionId: nat)
    requires ':' !in prefix && ':' !in ownerId
    ensures Parts(CustomId(prefix, ownerId, sessionId)) == [prefix, ownerId, NatToString(sessionId)]
    ensures OwnerOf(CustomId(prefix, ownerId, sessionId)) == Some(ownerId)
    ensures SessionIdOf(CustomId(prefix, ownerId, sessionId)) == Some(sessionId)
  {
    var n := NatToString(sessionId);
    assert ':' !in n;
    SplitNoSeparator(n);
    SplitThrough(ownerId, n);
    SplitThrough(prefix, ownerId + ":" + n);
    assert CustomId(prefix, ownerId, sessionId) == prefix + ":" + (ownerId + ":" + n);
    DigitsValueOfNatToString(sessionId);
  }

  lemma {:induction false} SplitNoSeparator(s: string)
    requires ':' !in s
    ensures Split(s, ":") == [s]
  {
    if s != [] {
      assert s[0] in s;
      assert s[..1][0] == s[0] != ':';
      SplitNoSeparator(s[1..]);
      assert [s[0]] + s[1..] == s;
    }
  }

  lemma {:induction false} SplitThrough(a: string, rest: string)
    requires ':' !in a
    ensures Split(a + ":" + rest, ":") == [a] + Split(rest, ":")
  {
    if a == [] {
      assert ("" + ":" + rest)[..1] == ":";
      assert ("" + ":" + rest)[1..] == rest;
    } else {
      assert (a + ":" + rest)[0] == a[0];
      assert (a + ":" + rest)[1..] == a[1..] + ":" + rest;
      SplitThrough(a[1..], rest);
      assert [a[0]] + a[1..] == a;
    }
  }

  // ---------------------------------------------------------------------------
  // BROADCAST_MAP
  // ---------------------------------------------------------------------------

  class Broadcasts {
    /** `BROADCAST_MAP`: the open menus, by message id. */
    var entries: map<string, Entry>

    constructor ()
      ensures entries == map[]
    {
      entries := map[];
    }

    /**
     * `handleBroadcast`: choose the session, check it and the candidates,
     * and open a menu owned by the caller under the reply's message id.
     */
    method Broadcast(store: CS.Store, requested: Option<int>, guildId: string, channelId: string,
                     members: seq<GuildMember>, roleName: string, ownerId: string, messageId: string)
      returns (r: Result<Menu, string>)
      requires store.Valid()
      modifies this
      ensures r == PrepareBroadcast(ChooseSession(store, requested, guildId, channelId), members, roleName)
      ensures r.Err? ==> entries == old(entries)
      ensures r.Ok? ==> entries == old(entries)[messageId := Entry(ownerId, r.value.session.id, r.value.preselect, r.value.memberIds, r.value.content)]
    {
      var chosen := ChooseSession(store, requested, guildId, channelId);
      r := PrepareBroadcast(chosen, members, roleName);
      if r.Ok? {
        entries := entries[messageId := Entry(ownerId, r.value.session.id, r.value.preselect, r.value.memberIds, r.value.content)];
      }
    }

    /** The ten-minute timer: the menu is dropped only if it still belongs to the same session and owner. */
    method Expire(messageId: string, sessionId: nat, ownerId: string)
      modifies this
      ensures messageId in old(entries) && old(entries)[messageId].sessionId == sessionId && old(entries)[messageId].ownerId == ownerId ==>
        entries == old(entries) - {messageId}
      ensures !(messageId in old(entries) && old(entries)[messageId].sessionId == sessionId && old(entries)[messageId].ownerId == ownerId) ==>
        entries == old(entries)
    {
      if messageId in entries && entries[messageId].sessionId == sessionId && entries[messageId].ownerId == ownerId {
        entries := entries - {messageId};
      }
    }

    /**
     * `handleComponent`: only the owner named in the custom id may use the
     * menu, and only while it is open; a selection replaces the chosen
     * recipients, cancel closes the menu, and send DMs the summary, stamps
     * `last_broadcast` and closes the menu.
     */
    method HandleComponent(store: CS.Store, customId: string, userId: string, messageId: string,
                           values: seq<string>, reach: (string, string) -> Reach, now: int)
      returns (reply: ComponentReply)
      requires store.Valid()
      modifies this, store
      ensures store.Valid()
      ensures OwnerOf(customId) != Some(userId) ==> reply == NotOwner && entries == old(entries) && unchanged(store)
      ensures OwnerOf(customId) == Some(userId) && messageId !in old(entries) ==>
        reply == Expired && entries == old(entries) && unchanged(store)
      ensures OwnerOf(customId) == Some(userId) && messageId in old(entries) ==>
        var entry := old(entries)[messageId];
        var prefix := Parts(customId)[0];
        && (prefix == SELECT_PREFIX ==>
              && entries == old(entries)[messageId := entry.(selected := values)]
              && reply == SelectionUpdated(entry.baseContent + "\n\nRecipients selected: " + NatToString(|values|))
              && unchanged(store))
        && (prefix == CANCEL_PREFIX ==> entries == old(entries) - {messageId} && reply == Cancelled && unchanged(store))
        && (prefix == SEND_PREFIX ==>
              var session := if SessionIdOf(customId).Some? then old(store.GetSession(SessionIdOf(customId).value)) else None;
              && (session.None? ==> reply == SessionNotFound && entries == old(entries) && unchanged(store))
              && (session.Some? ==>
                    var content := DmContent(session.value);
                    var recipients := Recipients(entry);
                    && reply == Sent(|Failures(recipients, content, reach)|)
                    && entries == old(entries) - {messageId}
                    && store.deliveries == Delivered(old(store.deliveries), session.value.id, recipients, content, userId, reach, now)
                    && store.sessions == old(store.sessions)[session.value.id - 1 := session.value.(lastBroadcast := Some(now))]
                    && store.participants == old(store.participants)
                    && store.snippets == old(store.snippets) && store.snippetSerial == old(store.snippetSerial)))
        && (prefix !in {SELECT_PREFIX, CANCEL_PREFIX, SEND_PREFIX} ==> reply == Ignored && entries == old(entries) && unchanged(store))
    {
      if OwnerOf(customId) != Some(userId) {
        return NotOwner;
      }
      if messageId !in entries {
        return Expired;
      }
      var entry := entries[messageId];
      var prefix := Parts(customId)[0];
      if prefix == SELECT_PREFIX {
        entries := entries[messageId := entry.(selected := values)];
        return SelectionUpdated(entry.baseContent + "\n\nRecipients selected: " + NatToString(|values|));
      }
      if prefix == CANCEL_PREFIX {
        entries := entries - {messageId};
        return Cancelled;
      }
      if prefix != SEND_PREFIX {
        return Ignored;
      }
      var sid := SessionIdOf(customId);
      if sid.None? || store.GetSession(sid.value).None? {
        return SessionNotFound;
      }
      var session := store.GetSession(sid.value).value;
      var content := DmContent(session);
      var failures := SendSummaries(store, session.id, Recipients(entry), content, userId, reach, now);
      StampBroadcast(store, session, now);
      entries := entries - {messageId};
      reply := Sent(|failures|);
    }
  }

  /** `updateSession(id, { last_broadcast })` on a session that exists. */
  method StampBroadcast(store: CS.Store, session: CS.Session, now: int)
    requires store.Valid() && 1 <= session.id <= |store.sessions| && store.sessions[session.id - 1] == session
    modifies store
    ensures store.Valid()
    ensures store.sessions == old(store.sessions)[session.id - 1 := session.(lastBroadcast := Some(now))]
    ensures store.deliveries == old(store.deliveries) && store.participants == old(store.participants)
    ensures store.snippets == old(store.snippets) && store.snippetSerial == old(store.snippetSerial)
  {
    var payload := [Some(CS.SetLastBroadcast(now))];
    assert CS.Defined(payload) == [CS.SetLastBroadcast(now)];
    var _ := store.UpdateSession(session.id, payload);
  }

  // ---------------------------------------------------------------------------
  // handleList
  // ---------------------------------------------------------------------------

  /** The summary shown in the list: its first two lines joined by a space, or a placeholder. */
  function ListSummary(s: CS.Session): (r: string)
    ensures '\n' !in r
  {
    if Truthy(s.summary) then
      var lines := Split(s.summary.value, "\n");
      var firstTwo := lines[..Min(|lines|, 2)];
      SplitPiecesAvoidSeparator(s.summary.value, '\n');
      JoinAvoids(firstTwo, " ", '\n');
      Join(firstTwo, " ")
    else NO_SUMMARY_YET
  }

  /** A join of parts free of `c`, with a separator free of `c`, is free of `c`. */
  lemma {:induction false} JoinAvoids(parts: seq<string>, sep: string, c: char)
    requires c !in sep && forall i :: 0 <= i < |parts| ==> c !in parts[i]
    ensures c !in Join(parts, sep)
    decreases |parts|
  {
    if |parts| > 1 {
      JoinAvoids(parts[1..], sep, c);
    }
  }

  /** At most 140 characters of `s`, with an ellipsis when something was cut. */
  function Clip(s: string): (r: string)
    ensures |s| <= LIST_SUMMARY_CHARS ==> r == s
    ensures |s| > LIST_SUMMARY_CHARS ==> |r| == LIST_SUMMARY_CHARS + 1 && r[..LIST_SUMMARY_CHARS] == s[..LIST_SUMMARY_CHARS] && r[LIST_SUMMARY_CHARS] == '…'
  {
    Take(s, LIST_SUMMARY_CHARS) + (if |s| > LIST_SUMMARY_CHARS then "…" else "")
  }

  /** One line pair of the list: id, topic and time, then the clipped summary. */
  function ListLine(s: CS.Session): (r: string)
    ensures "• **ID " + NatToString(s.id) + "** – " + OrElse(s.topic, "Untitled") + " – " <= r
    ensures EndsWith(r, "\n  " + Clip(ListSummary(s)))
  {
    var when := if s.endedAt.Some? then s.endedAt.value else s.startedAt;
    var head := "• **ID " + NatToString(s.id) + "** – " + OrElse(s.topic, "Untitled") + " – " + Knowledge.When(when);
    var tail := "\n  " + Clip(ListSummary(s));
    assert (head + tail)[|head + tail| - |tail|..] == tail;
    head + tail
  }

  /** The list's entries: one line pair per session, in the given order. */
  function ListLines(listed: seq<CS.Session>): (r: seq<string>)
    ensures |r| == |listed|
    ensures forall i :: 0 <= i < |listed| ==> r[i] == ListLine(listed[i])
  {
    seq(|listed|, i requires 0 <= i < |listed| => ListLine(listed[i]))
  }

  /** The sessions `handleList` shows: the guild's five newest. */
  function Listed(sessions: seq<CS.Session>, guildId: string): (r: seq<CS.Session>)
    ensures |r| <= LIST_LIMIT
    ensures forall s :: s in r ==> s in sessions && s.guildId == guildId
    ensures forall i, j :: 0 <= i < j < |r| ==> r[i].startedAt >= r[j].startedAt
    ensures forall s, t :: s in sessions && s.guildId == guildId && s !in r && t in r ==> s.startedAt <= t.startedAt
  {
    CS.ListSessionsNewest(sessions, guildId, LIST_LIMIT);
    CS.ListSessions(sessions, guildId, LIST_LIMIT, 0)
  }

  /**
   * `handleList`: the notice exactly when the guild has no listed session,
   * otherwise one entry per listed session, in listing order, one per line.
   */
  function ListReply(sessions: seq<CS.Session>, guildId: string): (r: string)
    ensures Listed(sessions, guildId) == [] <==> r == NO_SESSIONS_RECORDED
    ensures Listed(sessions, guildId) != [] ==> r == Join(ListLines(Listed(sessions, guildId)), "\n")
  {
    var listed := Listed(sessions, guildId);
    if listed == [] then NO_SESSIONS_RECORDED
    else
      var lines := ListLines(listed);
      JoinStartsWithFirst(lines, "\n");
      assert Join(lines, "\n")[0] == '•';
      Join(lines, "\n")
  }
}
