/**
 * The class-summary store: the `voice_sessions`, `voice_session_participants`,
 * `voice_session_deliveries` and `knowledge_snippets` tables and the queries
 * the bot runs against them. Each table is a field of `Store`; each query is a
 * method that changes those fields as Postgres would, or a function that reads
 * them. Clock readings (`NOW()`, `new Date()`) are parameters.
 */
module ClassSummaries {
  import opened Wrappers
  import opened Strings
  import Sorting

  /** A value in the JSONB `meta` column; the bot only ever stores strings and nulls there. */
  datatype MetaValue = Null | Text(text: string)

  type Meta = map<string, MetaValue>

  /** A row of `voice_sessions`; `id` is its BIGSERIAL key. */
  datatype Session = Session(
    id: nat,
    guildId: string,
    channelId: string,
    recorderId: Option<string>,
    topic: Option<string>,
    startedAt: int,
    endedAt: Option<int>,
    summary: Option<string>,
    transcript: Option<string>,
    lastBroadcast: Option<int>,
    meta: Meta)

  /** A row of `voice_session_participants`, keyed by `(session_id, user_id)`. */
  datatype Participant = Participant(joinedAt: Option<int>, leftAt: Option<int>)

  /** A row of `voice_session_deliveries`, keyed by `(session_id, user_id)`. */
  datatype Delivery = Delivery(deliveredAt: int, deliveredBy: Option<string>)

  /** A row of `knowledge_snippets`, unique on `(source, source_id)`. */
  datatype Snippet = Snippet(
    id: nat,
    guildId: string,
    source: string,
    sourceId: nat,
    title: Option<string>,
    summary: Option<string>,
    content: string,
    createdAt: int)

  type Key = (nat, string)

  const VOICE_SESSION_SOURCE := "voice_session"

  // ---------------------------------------------------------------------------
  // updateSession: building the UPDATE statement
  // ---------------------------------------------------------------------------

  /** One defined entry of the payload handed to `updateSession`. */
  datatype Assignment =
    | SetSummary(summary: Option<string>)
    | SetTranscript(transcript: Option<string>)
    | SetMeta(meta: Meta)
    | SetEndedAt(endedAt: int)
    | SetLastBroadcast(lastBroadcast: int)

  /**
   * A query parameter. `Json(m)` is `JSON.stringify(m)`, which the statement
   * casts back with `::jsonb`.
   */
  datatype Param = NullParam | TextParam(text: string) | TimeParam(time: int) | Json(obj: Meta) | IdParam(id: nat)

  /** The UPDATE a payload turns into: the SET clauses, the placeholder of the id, and the values. */
  datatype UpdateQuery = UpdateQuery(setClauses: seq<string>, idPlaceholder: nat, values: seq<Param>)

  function Column(a: Assignment): string {
    match a
    case SetSummary(_) => "summary"
    case SetTranscript(_) => "transcript"
    case SetMeta(_) => "meta"
    case SetEndedAt(_) => "ended_at"
    case SetLastBroadcast(_) => "last_broadcast"
  }

  /** The SET clause for `a` bound to placeholder `$n`; `meta` is cast to JSONB. */
  function Clause(a: Assignment, n: nat): string {
    Column(a) + " = $" + NatToString(n) + (if a.SetMeta? then "::jsonb" else "")
  }

  function ParamOf(a: Assignment): Param {
    match a
    case SetSummary(s) => if s.Some? then TextParam(s.value) else NullParam
    case SetTranscript(t) => if t.Some? then TextParam(t.value) else NullParam
    case SetMeta(m) => Json(m)
    case SetEndedAt(t) => TimeParam(t)
    case SetLastBroadcast(t) => TimeParam(t)
  }

  /**
   * The entries of a payload whose value is not `undefined`, in order; `None`
   * stands for an entry whose value is `undefined`.
   */
  function Defined(payload: seq<Option<Assignment>>): (defs: seq<Assignment>)
    ensures |defs| <= |payload|
  {
    if payload == [] then []
    else if payload[0].Some? then [payload[0].value] + Defined(payload[1..])
    else Defined(payload[1..])
  }

  lemma DefinedAppend(payload: seq<Option<Assignment>>, e: Option<Assignment>)
    ensures Defined(payload + [e]) == Defined(payload) + (if e.Some? then [e.value] else [])
  {
    if payload != [] {
      assert (payload + [e])[1..] == payload[1..] + [e];
      DefinedAppend(payload[1..], e);
    } else {
      assert [e][1..] == [];
    }
  }

  /** The SET clauses of the defined entries, numbered from `$1`. */
  function Clauses(defs: seq<Assignment>): (r: seq<string>)
    ensures |r| == |defs|
  {
    seq(|defs|, i requires 0 <= i < |defs| => Clause(defs[i], i + 1))
  }

  function Params(defs: seq<Assignment>): (r: seq<Param>)
    ensures |r| == |defs|
  {
    seq(|defs|, i requires 0 <= i < |defs| => ParamOf(defs[i]))
  }

  /**
   * Placeholder `$k` of an UPDATE binds the `k`-th value: clause `i` names
   * `$(i+1)` and value `i` is its parameter, and the id's placeholder is
   * `$(n+1)`, bound to the last value.
   */
  lemma PlaceholdersBind(sessionId: nat, defs: seq<Assignment>)
    ensures var values := Params(defs) + [IdParam(sessionId)];
      && |values| == |defs| + 1
      && (forall i :: 0 <= i < |defs| ==> Clauses(defs)[i] == Clause(defs[i], i + 1) && values[i] == ParamOf(defs[i]))
      && values[|defs|] == IdParam(sessionId)
  {
  }

  lemma ClausesAppend(defs: seq<Assignment>, a: Assignment)
    ensures Clauses(defs + [a]) == Clauses(defs) + [Clause(a, |defs| + 1)]
    ensures Params(defs + [a]) == Params(defs) + [ParamOf(a)]
  {
    assert forall i :: 0 <= i < |defs| ==> (defs + [a])[i] == defs[i];
  }

  /** What one more payload entry adds to the clauses and values built so far. */
  lemma AssemblyStep(payload: seq<Option<Assignment>>, k: nat)
    requires k < |payload|
    ensures var defs := Defined(payload[..k]);
      if payload[k].Some? then
        && Defined(payload[..k + 1]) == defs + [payload[k].value]
        && Clauses(Defined(payload[..k + 1])) == Clauses(defs) + [Clause(payload[k].value, |defs| + 1)]
        && Params(Defined(payload[..k + 1])) == Params(defs) + [ParamOf(payload[k].value)]
      else Defined(payload[..k + 1]) == defs
  {
    DefinedAppend(payload[..k], payload[k]);
    assert payload[..k + 1] == payload[..k] + [payload[k]];
    if payload[k].Some? {
      ClausesAppend(Defined(payload[..k]), payload[k].value);
    }
  }

  /**
   * `updateSession`'s statement assembly: undefined entries are skipped, the
   * defined ones get placeholders `$1..$n` in payload order, and the session id
   * is bound last, as `$n+1`. No defined entry means no statement.
   */
  method BuildUpdate(sessionId: nat, payload: seq<Option<Assignment>>) returns (q: Option<UpdateQuery>)
    ensures q.None? <==> Defined(payload) == []
    ensures q.Some? ==>
      && q.value.setClauses == Clauses(Defined(payload))
      && q.value.idPlaceholder == |Defined(payload)| + 1
      && q.value.values == Params(Defined(payload)) + [IdParam(sessionId)]
  {
    var fields, values, idx := Assemble(payload);
    if |fields| == 0 {
      return None;
    }
    values := values + [IdParam(sessionId)];
    q := Some(UpdateQuery(fields, idx, values));
  }

  /** The loop of `updateSession` over the payload entries. */
  method Assemble(payload: seq<Option<Assignment>>) returns (fields: seq<string>, values: seq<Param>, idx: nat)
    ensures fields == Clauses(Defined(payload)) && |fields| == |Defined(payload)|
    ensures values == Params(Defined(payload))
    ensures idx == |Defined(payload)| + 1
  {
    fields, values, idx := [], [], 1;
    var k := 0;
    while k < |payload|
      invariant 0 <= k <= |payload|
      invariant idx == |Defined(payload[..k])| + 1
      invariant fields == Clauses(Defined(payload[..k]))
      invariant values == Params(Defined(payload[..k]))
    {
      AssemblyStep(payload, k);
      if payload[k].Some? {
        var a := payload[k].value;
        fields := fields + [Clause(a, idx)];
        values := values + [ParamOf(a)];
        idx := idx + 1;
      }
      k := k + 1;
    }
    assert payload[..k] == payload;
  }

  /** The row after one SET clause. */
  function Set(row: Session, a: Assignment): Session {
    match a
    case SetSummary(s) => row.(summary := s)
    case SetTranscript(t) => row.(transcript := t)
    case SetMeta(m) => row.(meta := m)
    case SetEndedAt(t) => row.(endedAt := Some(t))
    case SetLastBroadcast(t) => row.(lastBroadcast := Some(t))
  }

  /** The row after its SET clauses are applied, left to right. */
  function Apply(row: Session, defs: seq<Assignment>): Session
    decreases |defs|
  {
    if defs == [] then row else Apply(Set(row, defs[0]), defs[1..])
  }

  /** Applying assignments never changes the identity of a row: id, guild, channel, start. */
  lemma {:induction false} ApplyKeepsIdentity(row: Session, defs: seq<Assignment>)
    ensures var r := Apply(row, defs);
      r.id == row.id && r.guildId == row.guildId && r.channelId == row.channelId
      && r.recorderId == row.recorderId && r.topic == row.topic && r.startedAt == row.startedAt
    decreases |defs|
  {
    if defs != [] {
      ApplyKeepsIdentity(Set(row, defs[0]), defs[1..]);
    }
  }

  /**
   * `closeSession`'s payload: summary and transcript always (null when
   * absent), meta only when given, and the end time.
   */
  function ClosePayload(summary: Option<string>, transcript: Option<string>, meta: Option<Meta>, endedAt: int): (p: seq<Option<Assignment>>)
    ensures |p| == 4
  {
    [Some(SetSummary(summary)), Some(SetTranscript(transcript)),
     if meta.Some? then Some(SetMeta(meta.value)) else None,
     Some(SetEndedAt(endedAt))]
  }

  /**
   * Closing sets summary, transcript and end time to what was given, replaces
   * the meta only when one is given, and leaves every other column alone.
   */
  lemma CloseResult(row: Session, summary: Option<string>, transcript: Option<string>, meta: Option<Meta>, endedAt: int)
    ensures Defined(ClosePayload(summary, transcript, meta, endedAt)) != []
    ensures Apply(row, Defined(ClosePayload(summary, transcript, meta, endedAt)))
         == row.(summary := summary, transcript := transcript, endedAt := Some(endedAt),
                 meta := if meta.Some? then meta.value else row.meta)
  {
    var p := ClosePayload(summary, transcript, meta, endedAt);
    DefinedOfFour(p);
    var r1 := Set(row, SetSummary(summary));
    var r2 := Set(r1, SetTranscript(transcript));
    var r3 := if meta.Some? then Set(r2, SetMeta(meta.value)) else r2;
    var r4 := Set(r3, SetEndedAt(endedAt));
    assert r4 == row.(summary := summary, transcript := transcript, endedAt := Some(endedAt),
                      meta := if meta.Some? then meta.value else row.meta);
    var e := [SetEndedAt(endedAt)];
    ApplyOne(r3, SetEndedAt(endedAt));
    if meta.Some? {
      var d := [SetSummary(summary), SetTranscript(transcript), SetMeta(meta.value), SetEndedAt(endedAt)];
      assert Defined(p) == d;
      ApplyCons(row, d);
      ApplyCons(r1, d[1..]);
      ApplyCons(r2, d[1..][1..]);
      assert d[1..][1..][1..] == e;
    } else {
      var d := [SetSummary(summary), SetTranscript(transcript), SetEndedAt(endedAt)];
      assert Defined(p) == d;
      ApplyCons(row, d);
      ApplyCons(r1, d[1..]);
      assert d[1..][1..] == e;
    }
  }

  lemma ApplyCons(row: Session, defs: seq<Assignment>)
    requires defs != []
    ensures Apply(row, defs) == Apply(Set(row, defs[0]), defs[1..])
  {
  }

  lemma ApplyOne(row: Session, a: Assignment)
    ensures Apply(row, [a]) == Set(row, a)
  {
    assert [a][1..] == [];
  }

  /** Closing builds a statement with three or four SET clauses; the id is the last parameter. */
  lemma ClosePlaceholders(summary: Option<string>, transcript: Option<string>, meta: Option<Meta>, endedAt: int)
    ensures |Defined(ClosePayload(summary, transcript, meta, endedAt))| == if meta.Some? then 4 else 3
  {
    var p := ClosePayload(summary, transcript, meta, endedAt);
    DefinedOfFour(p);
    if meta.Some? {
      assert Defined(p) == [SetSummary(summary), SetTranscript(transcript), SetMeta(meta.value), SetEndedAt(endedAt)];
    } else {
      assert Defined(p) == [SetSummary(summary), SetTranscript(transcript), SetEndedAt(endedAt)];
    }
  }

  lemma DefinedOfFour(p: seq<Option<Assignment>>)
    requires |p| == 4 && p[0].Some? && p[1].Some? && p[3].Some?
    ensures Defined(p) == [p[0].value, p[1].value] + (if p[2].Some? then [p[2].value] else []) + [p[3].value]
  {
    var p1, p2, p3 := p[1..], p[2..], p[3..];
    assert p1[1..] == p2 && p2[1..] == p3 && p3[1..] == [];
    assert Defined(p3) == [p[3].value];
    assert Defined(p2) == (if p[2].Some? then [p[2].value] else []) + [p[3].value];
    assert Defined(p1) == [p[1].value] + Defined(p2);
    assert Defined(p) == [p[0].value] + Defined(p1);
  }

  // ---------------------------------------------------------------------------
  // The upserts, as functions of a table
  // ---------------------------------------------------------------------------

  function Min(a: int, b: int): int { if a <= b then a else b }

  /**
   * `recordParticipantJoin`: insert, or on conflict keep the earlier join time
   * (`LEAST` ignores a null); `left_at` is not touched.
   */
  function AfterJoin(ps: map<Key, Participant>, k: Key, at: int): (r: map<Key, Participant>)
    ensures k in r && r[k].joinedAt.Some?
    ensures r[k].joinedAt.value <= at
    ensures k in ps && ps[k].joinedAt.Some? ==> r[k].joinedAt.value <= ps[k].joinedAt.value
    ensures r[k].joinedAt.value == at || (k in ps && r[k].joinedAt == ps[k].joinedAt)
    ensures r[k].leftAt == if k in ps then ps[k].leftAt else None
    ensures r.Keys == ps.Keys + {k}
    ensures forall j :: j in ps && j != k ==> r[j] == ps[j]
  {
    if k in ps then
      var old_ := ps[k];
      var joined := if old_.joinedAt.Some? then Min(old_.joinedAt.value, at) else at;
      ps[k := old_.(joinedAt := Some(joined))]
    else
      ps[k := Participant(Some(at), None)]
  }

  /** Two joins in either order leave the same row: `LEAST` is commutative. */
  lemma JoinOrderIrrelevant(ps: map<Key, Participant>, k: Key, t1: int, t2: int)
    ensures AfterJoin(AfterJoin(ps, k, t1), k, t2) == AfterJoin(AfterJoin(ps, k, t2), k, t1)
  {
  }

  /** Repeating a join changes nothing. */
  lemma JoinIdempotent(ps: map<Key, Participant>, k: Key, t: int)
    ensures AfterJoin(AfterJoin(ps, k, t), k, t) == AfterJoin(ps, k, t)
  {
  }

  /** `recordParticipantLeave`: sets `left_at` on an existing row; no row, no effect. */
  function AfterLeave(ps: map<Key, Participant>, k: Key, at: int): (r: map<Key, Participant>)
    ensures r.Keys == ps.Keys
    ensures k in ps ==> r[k] == ps[k].(leftAt := Some(at))
    ensures forall j :: j in ps && j != k ==> r[j] == ps[j]
  {
    if k in ps then ps[k := ps[k].(leftAt := Some(at))] else ps
  }

  /** A join after a leave keeps the recorded leave time: re-joining does not clear `left_at`. */
  lemma RejoinKeepsLeftAt(ps: map<Key, Participant>, k: Key, t1: int, t2: int)
    requires k in ps
    ensures AfterJoin(AfterLeave(ps, k, t1), k, t2)[k].leftAt == Some(t1)
  {
  }

  /** `recordDelivery`: insert, or on conflict refresh `delivered_at` and `delivered_by`. */
  function AfterDeliver(ds: map<Key, Delivery>, k: Key, deliveredBy: Option<string>, now: int): (r: map<Key, Delivery>)
    ensures r.Keys == ds.Keys + {k}
    ensures r[k] == Delivery(now, OrNull(deliveredBy))
    ensures forall j :: j in ds && j != k ==> r[j] == ds[j]
  {
    ds[k := Delivery(now, OrNull(deliveredBy))]
  }

  /** A repeated delivery adds no row, and the later one wins. */
  lemma DeliverTwice(ds: map<Key, Delivery>, k: Key, b1: Option<string>, b2: Option<string>, t1: int, t2: int)
    ensures AfterDeliver(AfterDeliver(ds, k, b1, t1), k, b2, t2) == AfterDeliver(ds, k, b2, t2)
    ensures |AfterDeliver(AfterDeliver(ds, k, b1, t1), k, b2, t2).Keys| == |AfterDeliver(ds, k, b1, t1).Keys|
  {
    assert AfterDeliver(AfterDeliver(ds, k, b1, t1), k, b2, t2).Keys == AfterDeliver(ds, k, b1, t1).Keys;
  }

  /** The `UNIQUE (source, source_id)` constraint. */
  predicate SnippetKeysUnique(snips: seq<Snippet>) {
    forall i, j :: 0 <= i < j < |snips| ==> (snips[i].source, snips[i].sourceId) != (snips[j].source, snips[j].sourceId)
  }

  /** The position of the snippet with this key, if there is one. */
  function FindSnippet(snips: seq<Snippet>, source: string, sourceId: nat): (r: Option<nat>)
    ensures r.Some? ==> r.value < |snips| && snips[r.value].source == source && snips[r.value].sourceId == sourceId
    ensures r.None? ==> forall i :: 0 <= i < |snips| ==> (snips[i].source, snips[i].sourceId) != (source, sourceId)
  {
    if snips == [] then None
    else if snips[0].source == source && snips[0].sourceId == sourceId then Some(0)
    else
      var r := FindSnippet(snips[1..], source, sourceId);
      if r.Some? then Some(r.value + 1) else None
  }

  /**
   * `storeKnowledgeSnippet`: the table after the upsert on
   * `('voice_session', sessionId)`. A new row takes the id `serial`; on
   * conflict summary, content and title are replaced and everything else kept.
   */
  function AfterStoreSnippet(snips: seq<Snippet>, serial: nat, sessionId: nat, guildId: string,
                             title: Option<string>, summary: Option<string>, content: string, now: int): (r: seq<Snippet>)
    ensures FindSnippet(snips, VOICE_SESSION_SOURCE, sessionId).Some? ==> |r| == |snips|
    ensures FindSnippet(snips, VOICE_SESSION_SOURCE, sessionId).None? ==> |r| == |snips| + 1
  {
    var t := OrNull(title);
    var s := OrNull(summary);
    match FindSnippet(snips, VOICE_SESSION_SOURCE, sessionId)
    case Some(i) => snips[i := snips[i].(summary := s, content := content, title := t)]
    case None => snips + [Snippet(serial, guildId, VOICE_SESSION_SOURCE, sessionId, t, s, content, now)]
  }

  /**
   * After storing, exactly one snippet carries the key, with the new title,
   * summary and content; a repeat keeps its id, guild and creation time, and
   * every other snippet is untouched.
   */
  lemma StoreSnippetResult(snips: seq<Snippet>, serial: nat, sessionId: nat, guildId: string,
                           title: Option<string>, summary: Option<string>, content: string, now: int)
    requires SnippetKeysUnique(snips)
    ensures var r := AfterStoreSnippet(snips, serial, sessionId, guildId, title, summary, content, now);
      && SnippetKeysUnique(r)
      && |r| >= |snips|
      && (forall i :: 0 <= i < |snips| && (snips[i].source, snips[i].sourceId) != (VOICE_SESSION_SOURCE, sessionId) ==> r[i] == snips[i])
      && var j := FindSnippet(r, VOICE_SESSION_SOURCE, sessionId);
      && j.Some?
      && r[j.value].title == OrNull(title) && r[j.value].summary == OrNull(summary) && r[j.value].content == content
      && (if FindSnippet(snips, VOICE_SESSION_SOURCE, sessionId).Some?
          then j == FindSnippet(snips, VOICE_SESSION_SOURCE, sessionId)
               && r[j.value].id == snips[j.value].id && r[j.value].guildId == snips[j.value].guildId
               && r[j.value].createdAt == snips[j.value].createdAt
          else j == Some(|snips|) && r[j.value].id == serial && r[j.value].guildId == guildId && r[j.value].createdAt == now)
  {
    var r := AfterStoreSnippet(snips, serial, sessionId, guildId, title, summary, content, now);
    var found := FindSnippet(snips, VOICE_SESSION_SOURCE, sessionId);
    if found.Some? {
      var i := found.value;
      forall a, b | 0 <= a < b < |r| ensures (r[a].source, r[a].sourceId) != (r[b].source, r[b].sourceId) {
        assert (r[a].source, r[a].sourceId) == (snips[a].source, snips[a].sourceId);
        assert (r[b].source, r[b].sourceId) == (snips[b].source, snips[b].sourceId);
      }
      FindUnique(r, i, VOICE_SESSION_SOURCE, sessionId);
    } else {
      FindUnique(r, |snips|, VOICE_SESSION_SOURCE, sessionId);
    }
  }

  /** With unique keys, the snippet at `i` is the one found for its key. */
  lemma FindUnique(snips: seq<Snippet>, i: nat, source: string, sourceId: nat)
    requires SnippetKeysUnique(snips) && i < |snips|
    requires snips[i].source == source && snips[i].sourceId == sourceId
    ensures FindSnippet(snips, source, sourceId) == Some(i)
  {
    if i > 0 {
      FindUnique(snips[1..], i - 1, source, sourceId);
    }
  }

  /** Storing the same snippet twice leaves the table as storing it once. */
  lemma StoreSnippetIdempotent(snips: seq<Snippet>, serial: nat, serial2: nat, sessionId: nat, guildId: string,
                               title: Option<string>, summary: Option<string>, content: string, now: int, now2: int)
    requires SnippetKeysUnique(snips)
    ensures var once := AfterStoreSnippet(snips, serial, sessionId, guildId, title, summary, content, now);
      AfterStoreSnippet(once, serial2, sessionId, guildId, title, summary, content, now2) == once
  {
    var once := AfterStoreSnippet(snips, serial, sessionId, guildId, title, summary, content, now);
    StoreSnippetResult(snips, serial, sessionId, guildId, title, summary, content, now);
    var j := FindSnippet(once, VOICE_SESSION_SOURCE, sessionId).value;
    assert once[j := once[j].(summary := OrNull(summary), content := content, title := OrNull(title))] == once;
  }

  // ---------------------------------------------------------------------------
  // The reads
  // ---------------------------------------------------------------------------

  function NewestFirst(s: Session): int { -s.startedAt }

  function SnippetNewestFirst(s: Snippet): int { -s.createdAt }

  /** The sessions of one guild, in table order. */
  function GuildSessions(sessions: seq<Session>, guildId: string): (r: seq<Session>)
    ensures forall s :: s in r <==> s in sessions && s.guildId == guildId
  {
    Sorting.Filter(sessions, (s: Session) => s.guildId == guildId)
  }

  /**
   * `listSessions`: the guild's sessions, newest first by `started_at`, from
   * `offset`, at most `limit` of them.
   */
  function ListSessions(sessions: seq<Session>, guildId: string, limit: nat, offset: nat): (r: seq<Session>)
    ensures |r| <= limit
    ensures forall s :: s in r ==> s in sessions && s.guildId == guildId
    ensures forall i, j :: 0 <= i < j < |r| ==> r[i].startedAt >= r[j].startedAt
    ensures var n := |GuildSessions(sessions, guildId)|;
      |r| == if n <= offset then 0 else if n - offset <= limit then n - offset else limit
    ensures multiset(r) <= multiset(GuildSessions(sessions, guildId))
  {
    var sorted := Sorting.SortBy(GuildSessions(sessions, guildId), NewestFirst);
    Sorting.SortedWindow(sorted, NewestFirst, offset, limit);
    Sorting.Window(sorted, offset, limit)
  }

  /**
   * From offset 0 the listing holds the guild's newest sessions: a session of
   * the guild it leaves out started no later than every session it lists.
   */
  lemma ListSessionsNewest(sessions: seq<Session>, guildId: string, limit: nat)
    ensures var r := ListSessions(sessions, guildId, limit, 0);
      forall s, t :: s in sessions && s.guildId == guildId && s !in r && t in r ==> s.startedAt <= t.startedAt
  {
    var sorted := Sorting.SortBy(GuildSessions(sessions, guildId), NewestFirst);
    Sorting.LeadingWindowLeast(sorted, NewestFirst, limit);
    forall s, t | s in sessions && s.guildId == guildId && s !in ListSessions(sessions, guildId, limit, 0) && t in ListSessions(sessions, guildId, limit, 0)
      ensures s.startedAt <= t.startedAt
    {
      assert s in sorted;
      assert NewestFirst(t) <= NewestFirst(s);
    }
  }

  /**
   * Paging: the page of `a` sessions from `offset` followed by the page of
   * `b` sessions after it is the page of `a + b` sessions from `offset`, so
   * the page at `offset` is the guild's newest-first list with its first
   * `offset` sessions skipped.
   */
  lemma {:induction false} ListSessionsPages(sessions: seq<Session>, guildId: string, a: nat, b: nat, offset: nat)
    ensures ListSessions(sessions, guildId, a, offset) + ListSessions(sessions, guildId, b, offset + a)
            == ListSessions(sessions, guildId, a + b, offset)
  {
    Sorting.WindowsAdjacent(Sorting.SortBy(GuildSessions(sessions, guildId), NewestFirst), offset, a, b);
  }

  /** With offset 0 and room for them all, every session of the guild is listed. */
  lemma ListSessionsComplete(sessions: seq<Session>, guildId: string, limit: nat)
    requires |sessions| <= limit
    ensures forall s :: s in sessions && s.guildId == guildId ==> s in ListSessions(sessions, guildId, limit, 0)
  {
    var filtered := GuildSessions(sessions, guildId);
    var sorted := Sorting.SortBy(filtered, NewestFirst);
    forall s | s in sessions && s.guildId == guildId ensures s in ListSessions(sessions, guildId, limit, 0) {
      assert s in multiset(sorted);
      assert Sorting.Window(sorted, 0, limit) == sorted;
    }
  }

  /**
   * With room for one row, the listing is empty only when the guild has no
   * session at all, and its first row is the guild's newest session.
   */
  lemma ListSessionsHead(sessions: seq<Session>, guildId: string, limit: nat)
    requires limit >= 1
    ensures var r := ListSessions(sessions, guildId, limit, 0);
      && (r != [] <==> exists s :: s in sessions && s.guildId == guildId)
      && (r != [] ==> forall s :: s in sessions && s.guildId == guildId ==> s.startedAt <= r[0].startedAt)
  {
    var filtered := GuildSessions(sessions, guildId);
    var sorted := Sorting.SortBy(filtered, NewestFirst);
    var r := Sorting.Window(sorted, 0, limit);
    assert r == ListSessions(sessions, guildId, limit, 0);
    if exists s :: s in sessions && s.guildId == guildId {
      var s :| s in sessions && s.guildId == guildId;
      assert s in filtered;
      assert s in sorted;
    }
    if r != [] {
      Sorting.SortedHeadLeast(sorted, NewestFirst);
      assert r[0] == sorted[0];
      forall s | s in sessions && s.guildId == guildId ensures s.startedAt <= r[0].startedAt {
        assert s in filtered;
        assert s in sorted;
      }
    }
  }

  /**
   * `getLatestSessionForChannel`: the newest session of this guild and channel
   * (`ORDER BY started_at DESC LIMIT 1`), if any.
   */
  function LatestForChannel(sessions: seq<Session>, guildId: string, channelId: string): (r: Option<Session>)
    ensures r.Some? <==> exists s :: s in sessions && s.guildId == guildId && s.channelId == channelId
    ensures r.Some? ==> r.value in sessions && r.value.guildId == guildId && r.value.channelId == channelId
    ensures r.Some? ==> forall s :: s in sessions && s.guildId == guildId && s.channelId == channelId ==> s.startedAt <= r.value.startedAt
  {
    var filtered := Sorting.Filter(sessions, (s: Session) => s.guildId == guildId && s.channelId == channelId);
    var sorted := Sorting.SortBy(filtered, NewestFirst);
    if sorted == [] then None
    else
      Sorting.SortedHeadLeast(sorted, NewestFirst);
      assert sorted[0] in filtered;
      Some(sorted[0])
  }

  /** The snippets of one guild that the text search matches, in table order. */
  function MatchingSnippets(snips: seq<Snippet>, guildId: string, matches: Snippet -> bool): (r: seq<Snippet>)
    ensures forall s :: s in r <==> s in snips && s.guildId == guildId && matches(s)
  {
    Sorting.Filter(snips, (s: Snippet) => s.guildId == guildId && matches(s))
  }

  /**
   * `searchKnowledge`: the guild's snippets the text search matches, newest
   * first by `created_at`, at most `limit`. Postgres full-text matching of the
   * query is the parameter `matches`.
   */
  function SearchKnowledge(snips: seq<Snippet>, guildId: string, matches: Snippet -> bool, limit: nat): (r: seq<Snippet>)
    ensures forall s :: s in r ==> s in snips && s.guildId == guildId && matches(s)
    ensures forall i, j :: 0 <= i < j < |r| ==> r[i].createdAt >= r[j].createdAt
    ensures var n := |MatchingSnippets(snips, guildId, matches)|;
      |r| == if n <= limit then n else limit
    ensures forall s, t :: s in snips && s.guildId == guildId && matches(s) && s !in r && t in r ==> s.createdAt <= t.createdAt
    ensures multiset(r) <= multiset(MatchingSnippets(snips, guildId, matches))
  {
    var sorted := Sorting.SortBy(MatchingSnippets(snips, guildId, matches), SnippetNewestFirst);
    Sorting.SortedWindow(sorted, SnippetNewestFirst, 0, limit);
    Sorting.LeadingWindowLeast(sorted, SnippetNewestFirst, limit);
    var r := Sorting.Window(sorted, 0, limit);
    assert forall s, t :: s in snips && s.guildId == guildId && matches(s) && s !in r && t in r ==> SnippetNewestFirst(t) <= SnippetNewestFirst(s) by {
      forall s | s in snips && s.guildId == guildId && matches(s) ensures s in sorted {
      }
    }
    r
  }

  // ---------------------------------------------------------------------------
  // The database
  // ---------------------------------------------------------------------------

  class Store {
    /** `voice_sessions`; the session with id `n` is at position `n - 1`. */
    var sessions: seq<Session>
    var participants: map<Key, Participant>
    var deliveries: map<Key, Delivery>
    var snippets: seq<Snippet>
    /** The next value of the `knowledge_snippets` id sequence. */
    var snippetSerial: nat

    predicate Valid()
      reads this
    {
      && (forall i :: 0 <= i < |sessions| ==> sessions[i].id == i + 1)
      && SnippetKeysUnique(snippets)
      && (forall i :: 0 <= i < |snippets| ==> snippets[i].id < snippetSerial)
    }

    constructor()
      ensures Valid()
      ensures sessions == [] && participants == map[] && deliveries == map[] && snippets == []
    {
      sessions := [];
      participants := map[];
      deliveries := map[];
      snippets := [];
      snippetSerial := 1;
    }

    /** `getSession`. */
    function GetSession(id: nat): (r: Option<Session>)
      reads this
      requires Valid()
      ensures r.Some? <==> 1 <= id <= |sessions|
      ensures r.Some? ==> r.value.id == id && r.value in sessions
    {
      if 1 <= id <= |sessions| then Some(sessions[id - 1]) else None
    }

    /** `createSession`: a new row with the next id, an empty topic stored as null. */
    method CreateSession(guildId: string, channelId: string, recorderId: Option<string>, topic: Option<string>, meta: Meta, now: int)
      returns (row: Session)
      requires Valid()
      modifies this
      ensures Valid()
      ensures row == Session(|old(sessions)| + 1, guildId, channelId, recorderId, OrNull(topic), now, None, None, None, None, meta)
      ensures sessions == old(sessions) + [row]
      ensures participants == old(participants) && deliveries == old(deliveries)
      ensures snippets == old(snippets) && snippetSerial == old(snippetSerial)
    {
      row := Session(|sessions| + 1, guildId, channelId, recorderId, OrNull(topic), now, None, None, None, None, meta);
      sessions := sessions + [row];
    }

    /**
     * `updateSession`: runs the statement `BuildUpdate` assembles. Nothing to
     * set means no query and `null`; an unknown id matches no row and gives `null`.
     */
    method UpdateSession(sessionId: nat, payload: seq<Option<Assignment>>) returns (r: Option<Session>)
      requires Valid()
      modifies this
      ensures Valid()
      ensures Defined(payload) == [] || !(1 <= sessionId <= |old(sessions)|) ==> r.None? && sessions == old(sessions)
      ensures Defined(payload) != [] && 1 <= sessionId <= |old(sessions)| ==>
        && sessions == old(sessions)[sessionId - 1 := Apply(old(sessions)[sessionId - 1], Defined(payload))]
        && r == Some(sessions[sessionId - 1])
      ensures participants == old(participants) && deliveries == old(deliveries)
      ensures snippets == old(snippets) && snippetSerial == old(snippetSerial)
    {
      var q := BuildUpdate(sessionId, payload);
      if q.None? || !(1 <= sessionId <= |sessions|) {
        return None;
      }
      var row := Apply(sessions[sessionId - 1], Defined(payload));
      ApplyKeepsIdentity(sessions[sessionId - 1], Defined(payload));
      sessions := sessions[sessionId - 1 := row];
      r := Some(row);
    }

    /** `closeSession`. */
    method CloseSession(sessionId: nat, summary: Option<string>, transcript: Option<string>, meta: Option<Meta>, endedAt: int)
      returns (r: Option<Session>)
      requires Valid()
      modifies this
      ensures Valid()
      ensures !(1 <= sessionId <= |old(sessions)|) ==> r.None? && sessions == old(sessions)
      ensures 1 <= sessionId <= |old(sessions)| ==>
        var row := old(sessions)[sessionId - 1];
        var closed := row.(summary := summary, transcript := transcript, endedAt := Some(endedAt),
                           meta := if meta.Some? then meta.value else row.meta);
        sessions == old(sessions)[sessionId - 1 := closed] && r == Some(closed)
      ensures participants == old(participants) && deliveries == old(deliveries)
      ensures snippets == old(snippets) && snippetSerial == old(snippetSerial)
    {
      if 1 <= sessionId <= |sessions| {
        CloseResult(sessions[sessionId - 1], summary, transcript, meta, endedAt);
      } else {
        CloseResult(Session(0, "", "", None, None, 0, None, None, None, None, map[]), summary, transcript, meta, endedAt);
      }
      r := UpdateSession(sessionId, ClosePayload(summary, transcript, meta, endedAt));
    }

    /** `recordParticipantJoin`. */
    method RecordParticipantJoin(sessionId: nat, userId: string, joinedAt: int)
      requires Valid()
      modifies this
      ensures Valid()
      ensures participants == AfterJoin(old(participants), (sessionId, userId), joinedAt)
      ensures sessions == old(sessions) && deliveries == old(deliveries)
      ensures snippets == old(snippets) && snippetSerial == old(snippetSerial)
    {
      participants := AfterJoin(participants, (sessionId, userId), joinedAt);
    }

    /** `recordParticipantLeave`. */
    method RecordParticipantLeave(sessionId: nat, userId: string, leftAt: int)
      requires Valid()
      modifies this
      ensures Valid()
      ensures participants == AfterLeave(old(participants), (sessionId, userId), leftAt)
      ensures sessions == old(sessions) && deliveries == old(deliveries)
      ensures snippets == old(snippets) && snippetSerial == old(snippetSerial)
    {
      participants := AfterLeave(participants, (sessionId, userId), leftAt);
    }

    /** `recordDelivery`; `now` is the database's `NOW()`. */
    method RecordDelivery(sessionId: nat, userId: string, deliveredBy: Option<string>, now: int)
      requires Valid()
      modifies this
      ensures Valid()
      ensures deliveries == AfterDeliver(old(deliveries), (sessionId, userId), deliveredBy, now)
      ensures sessions == old(sessions) && participants == old(participants)
      ensures snippets == old(snippets) && snippetSerial == old(snippetSerial)
    {
      deliveries := AfterDeliver(deliveries, (sessionId, userId), deliveredBy, now);
    }

    /** `getDeliveries`: the users the session was delivered to. */
    function DeliveredTo(sessionId: nat): (r: set<string>)
      reads this
      ensures forall u :: u in r <==> (sessionId, u) in deliveries
    {
      set k | k in deliveries && k.0 == sessionId :: k.1
    }

    /**
     * `storeKnowledgeSnippet`. The INSERT draws an id from the sequence even
     * when it ends in the conflict branch, so the sequence always advances.
     */
    method StoreKnowledgeSnippet(sessionId: nat, guildId: string, title: Option<string>, summary: Option<string>, content: string, now: int)
      requires Valid()
      modifies this
      ensures Valid()
      ensures snippets == AfterStoreSnippet(old(snippets), old(snippetSerial), sessionId, guildId, title, summary, content, now)
      ensures snippetSerial == old(snippetSerial) + 1
      ensures sessions == old(sessions) && participants == old(participants) && deliveries == old(deliveries)
    {
      StoreSnippetResult(snippets, snippetSerial, sessionId, guildId, title, summary, content, now);
      var after := AfterStoreSnippet(snippets, snippetSerial, sessionId, guildId, title, summary, content, now);
      assert forall i :: 0 <= i < |after| ==> after[i].id <= snippetSerial by {
        forall i | 0 <= i < |after| ensures after[i].id <= snippetSerial {
          if i < |snippets| { assert after[i].id == snippets[i].id; }
        }
      }
      snippets := after;
      snippetSerial := snippetSerial + 1;
    }
  }
}
