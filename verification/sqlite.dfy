/**
 * crates/storage/src/sqlite/mod.rs: the relational store. The three tables
 * the core writes are maps: `emails` keyed by row id with a unique
 * (store_id, entry_id) index, `extracted_email_facts` keyed by email id, and
 * `app_config` keyed by name. Each upsert is a pure transition on its table;
 * the class `SqliteStore` holds the tables and applies them. A failing
 * statement is a `fault` parameter: the statement then changes nothing.
 *
 * The JSON columns hold their records; the two that the read queries parse
 * back (`client_or_project_json`, `risks_json`) are given their serde shape.
 * Timestamps are integers; where a row is rendered as JSON they are shown as
 * JSON numbers.
 */
module Sqlite {
  import opened Errors
  import opened JsonValue
  import opened Types

  // ---------------------------------------------------------------------
  // emails

  datatype EmailKey = EmailKey(storeId: string, entryId: string)

  /** The columns `save_email` writes, plus the row id. */
  datatype EmailRow = EmailRow(
    id: int,
    storeId: string,
    entryId: string,
    conversationId: Option<string>,
    folder: string,
    subject: string,
    sender: string,
    to: string,
    cc: Option<string>,
    bcc: Option<string>,
    sentAt: int,
    receivedAt: int,
    bodyText: string,
    bodyHtml: Option<string>,
    importance: int,
    categories: Option<string>,
    flags: Option<int>,
    internetMessageId: Option<string>,
    lastIndexedAt: int,
    hash: string)
  {
    function Key(): EmailKey { EmailKey(storeId, entryId) }
  }

  function KeyOf(e: Email): EmailKey { EmailKey(e.storeId, e.entryId) }

  /** The row the INSERT branch writes: every bound column of `e` (not `id`, not `excluded_reason`). */
  function InsertedRow(id: int, e: Email): EmailRow {
    EmailRow(id, e.storeId, e.entryId, e.conversationId, e.folder, e.subject, e.sender, e.to, e.cc, e.bcc,
      e.sentAt, e.receivedAt, e.bodyText, e.bodyHtml, e.importance, e.categories, e.flags,
      e.internetMessageId, e.lastIndexedAt, e.hash)
  }

  /** The DO UPDATE branch: six columns take the new values. */
  function UpdatedRow(row: EmailRow, e: Email): EmailRow {
    row.(folder := e.folder, subject := e.subject, receivedAt := e.receivedAt, bodyText := e.bodyText,
         lastIndexedAt := e.lastIndexedAt, hash := e.hash)
  }

  /** The email a row holds when read back in full; `excluded_reason` has no column, so the caller supplies it. */
  function RowEmail(row: EmailRow, excludedReason: Option<string>): Email {
    Email(row.id, row.storeId, row.entryId, row.conversationId, row.folder, row.subject, row.sender, row.to,
      row.cc, row.bcc, row.sentAt, row.receivedAt, row.bodyText, row.bodyHtml, row.importance, row.categories,
      row.flags, row.internetMessageId, row.lastIndexedAt, row.hash, excludedReason)
  }

  /** An inserted row stores every bound field of the email: reading it back gives the email under its new id. */
  lemma InsertedRowKeepsEmail(id: int, e: Email)
    ensures RowEmail(InsertedRow(id, e), e.excludedReason) == e.(id := id)
    ensures InsertedRow(id, e).Key() == KeyOf(e)
  {
  }

  /** An updated row holds the new email's six updated columns and the old row's others. */
  lemma UpdatedRowColumns(row: EmailRow, e: Email)
    ensures var u := UpdatedRow(row, e);
      RowEmail(u, e.excludedReason) == RowEmail(row, e.excludedReason).(folder := e.folder, subject := e.subject,
        receivedAt := e.receivedAt, bodyText := e.bodyText, lastIndexedAt := e.lastIndexedAt, hash := e.hash)
    ensures UpdatedRow(row, e).Key() == row.Key() && UpdatedRow(row, e).id == row.id
  {
  }

  datatype EmailTable = EmailTable(rows: map<int, EmailRow>, index: map<EmailKey, int>, nextId: int)
  {
    /** The row ids are the map keys, below `nextId`; `index` is the unique (store_id, entry_id) index. */
    ghost predicate Valid() {
      && 0 < nextId
      && (forall k :: k in index ==> index[k] in rows && rows[index[k]].Key() == k)
      && (forall i :: i in rows ==> rows[i].id == i && 0 < i < nextId && rows[i].Key() in index && index[rows[i].Key()] == i)
    }
  }

  const EmptyEmails := EmailTable(map[], map[], 1)

  /** At most one row per (store_id, entry_id). */
  lemma OneRowPerKey(t: EmailTable, i: int, j: int)
    requires t.Valid() && i in t.rows && j in t.rows
    requires t.rows[i].Key() == t.rows[j].Key()
    ensures i == j
  {
  }

  datatype Saved = Saved(table: EmailTable, id: int)

  /** `save_email`'s upsert and the id its RETURNING clause yields. */
  function SaveEmailTable(t: EmailTable, e: Email): (s: Saved)
    requires t.Valid()
    ensures s.table.Valid()
    ensures s.id in s.table.rows && s.table.rows[s.id].Key() == KeyOf(e)
    ensures KeyOf(e) in t.index ==> s.id == t.index[KeyOf(e)] && s.table.rows.Keys == t.rows.Keys
    ensures KeyOf(e) !in t.index ==> s.id !in t.rows && s.table.rows.Keys == t.rows.Keys + {s.id}
    ensures forall i :: i in t.rows && i != s.id ==> s.table.rows[i] == t.rows[i]
    ensures KeyOf(e) !in t.index ==> s.table.rows[s.id] == InsertedRow(s.id, e)
    ensures KeyOf(e) in t.index ==> s.table.rows[s.id] == UpdatedRow(t.rows[s.id], e)
  {
    var key := KeyOf(e);
    if key in t.index then
      var id := t.index[key];
      Saved(t.(rows := t.rows[id := UpdatedRow(t.rows[id], e)]), id)
    else
      var id := t.nextId;
      Saved(EmailTable(t.rows[id := InsertedRow(id, e)], t.index[key := id], id + 1), id)
  }

  /** A repeated save of the same (store_id, entry_id) keeps the first-inserted
      columns and takes folder, subject, received_at, body_text, last_indexed_at and hash. */
  lemma SaveEmailConflict(t: EmailTable, first: Email, e: Email)
    requires t.Valid() && KeyOf(first) == KeyOf(e)
    ensures var s1 := SaveEmailTable(t, first);
      var s2 := SaveEmailTable(s1.table, e);
      var row := s2.table.rows[s2.id];
      && s2.id == s1.id
      && s2.table.rows.Keys == s1.table.rows.Keys
      && row.folder == e.folder && row.subject == e.subject && row.receivedAt == e.receivedAt
      && row.bodyText == e.bodyText && row.lastIndexedAt == e.lastIndexedAt && row.hash == e.hash
      && row.sender == s1.table.rows[s1.id].sender && row.to == s1.table.rows[s1.id].to
      && row.cc == s1.table.rows[s1.id].cc && row.bcc == s1.table.rows[s1.id].bcc
      && row.sentAt == s1.table.rows[s1.id].sentAt && row.conversationId == s1.table.rows[s1.id].conversationId
      && row.bodyHtml == s1.table.rows[s1.id].bodyHtml && row.importance == s1.table.rows[s1.id].importance
      && row.categories == s1.table.rows[s1.id].categories && row.flags == s1.table.rows[s1.id].flags
      && row.internetMessageId == s1.table.rows[s1.id].internetMessageId
  {
  }

  /** Saving the same email twice is saving it once. */
  lemma SaveEmailIdempotent(t: EmailTable, e: Email)
    requires t.Valid()
    ensures SaveEmailTable(SaveEmailTable(t, e).table, e) == SaveEmailTable(t, e)
  {
    var s1 := SaveEmailTable(t, e);
    var row := s1.table.rows[s1.id];
    assert UpdatedRow(row, e) == row;
    assert s1.table.rows[s1.id := row] == s1.table.rows;
  }

  // ---------------------------------------------------------------------
  // extracted_email_facts

  /** The columns of `extracted_email_facts`: enum columns hold the variant's snake_case name. */
  datatype FactsRow = FactsRow(
    emailId: int,
    primaryType: string,
    intent: string,
    urgency: string,
    sentiment: string,
    clientOrProject: ProjectInfo,
    dueBy: Option<int>,
    needsResponse: bool,
    waitingOn: string,
    summary: string,
    keyPoints: seq<string>,
    risks: seq<Risk>,
    issues: seq<Issue>,
    blockers: seq<Blocker>,
    openQuestions: seq<OpenQuestion>,
    answeredQuestions: seq<AnsweredQuestion>,
    confidence: real,
    provenance: Provenance,
    createdAt: int)

  function FactsRowOf(f: EmailFact): (row: FactsRow)
    ensures row.emailId == f.emailId && row.createdAt == f.createdAt
    ensures PrimaryTypeFromName(row.primaryType) == Some(f.primaryType)
    ensures IntentFromName(row.intent) == Some(f.intent)
    ensures UrgencyFromName(row.urgency) == Some(f.urgency)
    ensures SentimentFromName(row.sentiment) == Some(f.sentiment)
    ensures WaitingOnFromName(row.waitingOn) == Some(f.waitingOn)
  {
    PrimaryTypeNames(f.primaryType, "");
    IntentNames(f.intent, "");
    UrgencyNames(f.urgency, "");
    SentimentNames(f.sentiment, "");
    WaitingOnNames(f.waitingOn, "");
    FactsRow(f.emailId, f.primaryType.Name(), f.intent.Name(), f.urgency.Name(), f.sentiment.Name(),
      f.clientOrProject, f.dueBy, f.needsResponse, f.waitingOn.Name(), f.summary, f.keyPoints,
      f.risks, f.issues, f.blockers, f.openQuestions, f.answeredQuestions, f.confidence,
      f.provenance, f.createdAt)
  }

  type FactsTable = map<int, FactsRow>

  /** `save_facts`: one row per email id; a conflict rewrites every column but `created_at`. */
  function SaveFactsTable(t: FactsTable, f: EmailFact): (t': FactsTable)
    ensures t'.Keys == t.Keys + {f.emailId}
    ensures forall i :: i in t && i != f.emailId ==> t'[i] == t[i]
    ensures f.emailId !in t ==> t'[f.emailId] == FactsRowOf(f)
  {
    if f.emailId in t then t[f.emailId := FactsRowOf(f).(createdAt := t[f.emailId].createdAt)]
    else t[f.emailId := FactsRowOf(f)]
  }

  /** After two saves for one email the row holds the second record's columns and the first `created_at`. */
  lemma SaveFactsTwice(t: FactsTable, f1: EmailFact, f2: EmailFact)
    requires f1.emailId == f2.emailId && f1.emailId !in t
    ensures SaveFactsTable(SaveFactsTable(t, f1), f2)[f2.emailId] == FactsRowOf(f2).(createdAt := f1.createdAt)
    ensures SaveFactsTable(SaveFactsTable(t, f1), f2).Keys == t.Keys + {f1.emailId}
  {
  }

  // ---------------------------------------------------------------------
  // app_config

  datatype ConfigRow = ConfigRow(value: string, updatedAt: int)

  type ConfigTable = map<string, ConfigRow>

  function SetConfigTable(t: ConfigTable, key: string, value: string, now: int): (t': ConfigTable)
    ensures t'.Keys == t.Keys + {key}
    ensures t'[key] == ConfigRow(value, now)
    ensures forall k :: k in t && k != key ==> t'[k] == t[k]
  {
    t[key := ConfigRow(value, now)]
  }

  function GetConfigTable(t: ConfigTable, key: string): (r: Option<string>)
    ensures r.None? <==> key !in t
    ensures r.Some? ==> r.value == t[key].value
  {
    if key in t then Some(t[key].value) else None
  }

  /** Reading a key after writing it gives the written value; other keys read as before. */
  lemma GetAfterSet(t: ConfigTable, key: string, value: string, now: int, other: string)
    requires other != key
    ensures GetConfigTable(SetConfigTable(t, key, value, now), key) == Some(value)
    ensures GetConfigTable(SetConfigTable(t, key, value, now), other) == GetConfigTable(t, other)
  {
  }

  // ---------------------------------------------------------------------
  // Rows as the read queries render them

  function IntJson(i: int): (v: Value)
    ensures AsF64(v) == Some(i as real)
  {
    if 0 <= i < U64_LIMIT then Number(PosInt(i))
    else if I64_MIN <= i < 0 then Number(NegInt(i))
    else Number(Float(i as real))
  }

  function OptStrJson(o: Option<string>): Value {
    if o.Some? then String(o.value) else Null
  }

  function ProjectJson(p: ProjectInfo): Value {
    Object(map["name" := String(p.name), "confidence" := Number(Float(p.confidence))])
  }

  function RiskJson(r: Risk): Value {
    Object(map["title" := String(r.title), "details" := String(r.details), "owner" := OptStrJson(r.owner),
               "severity" := String(r.severity.Name()), "confidence" := Number(Float(r.confidence))])
  }

  function RisksJson(rs: seq<Risk>): (v: Value)
    ensures v.Array? && |v.items| == |rs|
  {
    Array(seq(|rs|, i requires 0 <= i < |rs| => RiskJson(rs[i])))
  }

  /** The keys of a rendered row that come from `extracted_email_facts`. */
  const FactKeys: set<string> := {"primary_type", "intent", "urgency", "sentiment", "needs_response",
    "waiting_on", "due_by", "summary", "client_or_project", "risks"}

  const EmailKeys: set<string> := {"id", "subject", "sender", "received_at", "body_text"}

  function EmailFields(row: EmailRow): (m: map<string, Value>)
    ensures m.Keys == EmailKeys
    ensures m["id"] == IntJson(row.id)
  {
    map[
      "id" := IntJson(row.id),
      "subject" := String(row.subject),
      "sender" := String(row.sender),
      "received_at" := IntJson(row.receivedAt),
      "body_text" := String(row.bodyText)]
  }

  /** The joined columns; all null when the email has no facts row. */
  function FactFields(facts: Option<FactsRow>): (m: map<string, Value>)
    ensures m.Keys == FactKeys
    ensures facts.None? ==> forall k :: k in FactKeys ==> m[k] == Null
    ensures facts.Some? ==> m["sentiment"] == String(facts.value.sentiment) && m["urgency"] == String(facts.value.urgency)
  {
    match facts
    case None => map k | k in FactKeys :: Null
    case Some(f) =>
      map[
        "primary_type" := String(f.primaryType),
        "intent" := String(f.intent),
        "urgency" := String(f.urgency),
        "sentiment" := String(f.sentiment),
        "needs_response" := Bool(f.needsResponse),
        "waiting_on" := String(f.waitingOn),
        "due_by" := if f.dueBy.Some? then IntJson(f.dueBy.value) else Null,
        "summary" := String(f.summary),
        "client_or_project" := ProjectJson(f.clientOrProject),
        "risks" := RisksJson(f.risks)]
  }

  /** One row of the LEFT JOIN, as the object both read queries build. */
  function RowJson(row: EmailRow, facts: Option<FactsRow>): (v: Value)
    ensures v.Object? && v.fields.Keys == EmailKeys + FactKeys
  {
    Object(EmailFields(row) + FactFields(facts))
  }

  /** An email without facts is listed with every fact field null. */
  lemma NoFactsGivesNulls(row: EmailRow)
    ensures forall k :: k in FactKeys ==> RowJson(row, None).fields[k] == Null
    ensures AsStr(RowJson(row, None).fields["summary"]) == None
  {
  }

  function FactsOf(t: FactsTable, id: int): Option<FactsRow> {
    if id in t then Some(t[id]) else None
  }

  /** The rendered rows of `ids`, in that order. */
  function RowsJson(rows: map<int, EmailRow>, facts: FactsTable, ids: seq<int>): (vs: seq<Value>)
    requires forall k :: 0 <= k < |ids| ==> ids[k] in rows
    ensures |vs| == |ids|
  {
    if ids == [] then []
    else
      var pre, last := ids[..|ids| - 1], ids[|ids| - 1];
      assert forall k :: 0 <= k < |pre| ==> pre[k] == ids[k];
      RowsJson(rows, facts, pre) + [RowJson(rows[last], FactsOf(facts, last))]
  }

  /** The k-th rendered row is the row of the k-th id, joined with that email's facts. */
  lemma {:induction false} RowsJsonAt(rows: map<int, EmailRow>, facts: FactsTable, ids: seq<int>, k: int)
    requires forall i :: 0 <= i < |ids| ==> ids[i] in rows
    requires 0 <= k < |ids|
    ensures RowsJson(rows, facts, ids)[k] == RowJson(rows[ids[k]], FactsOf(facts, ids[k]))
  {
    var pre := ids[..|ids| - 1];
    if k < |ids| - 1 {
      assert pre[k] == ids[k];
      RowsJsonAt(rows, facts, pre, k);
    }
  }

  /** What `get_emails_by_ids` collects: the rows of the ids that exist, in input order. */
  function ByIds(rows: map<int, EmailRow>, facts: FactsTable, ids: seq<int>): seq<Value> {
    if ids == [] then []
    else ByIds(rows, facts, ids[..|ids| - 1]) + Found(rows, facts, ids[|ids| - 1])
  }

  /** The rendered row of one id, or nothing when the query finds no row. */
  function Found(rows: map<int, EmailRow>, facts: FactsTable, id: int): seq<Value> {
    if id in rows then [RowJson(rows[id], FactsOf(facts, id))] else []
  }

  lemma {:induction false} ByIdsAppend(rows: map<int, EmailRow>, facts: FactsTable, xs: seq<int>, ys: seq<int>)
    ensures ByIds(rows, facts, xs + ys) == ByIds(rows, facts, xs) + ByIds(rows, facts, ys)
    decreases |ys|
  {
    if ys == [] {
      assert xs + ys == xs;
    } else {
      assert (xs + ys)[..|xs + ys| - 1] == xs + ys[..|ys| - 1];
      ByIdsAppend(rows, facts, xs, ys[..|ys| - 1]);
    }
  }

  /** An id with no row contributes nothing; an id with a row contributes its rendered row. */
  lemma ByIdsSkipsMissing(rows: map<int, EmailRow>, facts: FactsTable, xs: seq<int>, id: int, ys: seq<int>)
    ensures id !in rows ==> ByIds(rows, facts, xs + [id] + ys) == ByIds(rows, facts, xs) + ByIds(rows, facts, ys)
    ensures id in rows ==>
      ByIds(rows, facts, xs + [id] + ys) == ByIds(rows, facts, xs) + [RowJson(rows[id], FactsOf(facts, id))] + ByIds(rows, facts, ys)
  {
    var before, found, after := ByIds(rows, facts, xs), Found(rows, facts, id), ByIds(rows, facts, ys);
    ByIdsAppend(rows, facts, xs + [id], ys);
    ByIdsAppend(rows, facts, xs, [id]);
    assert ByIds(rows, facts, [id]) == found by {
      assert [id][..0] == [];
    }
    assert ByIds(rows, facts, xs + [id] + ys) == before + found + after;
    if id !in rows {
      assert found == [];
      assert before + found + after == before + after;
    }
  }

  /** When every id has a row, nothing is skipped. */
  lemma {:induction false} ByIdsAllPresent(rows: map<int, EmailRow>, facts: FactsTable, ids: seq<int>)
    requires forall k :: 0 <= k < |ids| ==> ids[k] in rows
    ensures ByIds(rows, facts, ids) == RowsJson(rows, facts, ids)
  {
    if ids != [] {
      ByIdsAllPresent(rows, facts, ids[..|ids| - 1]);
    }
  }

  /** SQLite's LIMIT: a negative limit means no limit. */
  function Limited(limit: int, n: nat): (m: nat)
    ensures m <= n
    ensures limit >= 0 ==> m == if limit < n then limit else n
    ensures limit < 0 ==> m == n
  {
    if limit < 0 then n else if limit < n then limit else n
  }

  /** Row `i` of `s` was received no earlier than any other row of `s`. */
  predicate Newest(i: int, s: set<int>, rows: map<int, EmailRow>)
    requires s <= rows.Keys
  {
    i in s && forall j :: j in s ==> rows[j].receivedAt <= rows[i].receivedAt
  }

  /** A non-empty set of rows has a newest one. */
  lemma {:induction false} NewestExists(s: set<int>, rows: map<int, EmailRow>)
    requires s != {} && s <= rows.Keys
    ensures exists i :: Newest(i, s, rows)
    decreases |s|
  {
    if forall y :: y !in s {
      assert false;
    }
    var x :| x in s;
    var rest := s - {x};
    if rest == {} {
      assert s == {x};
      assert Newest(x, s, rows);
    } else {
      NewestExists(rest, rows);
      var y :| Newest(y, rest, rows);
      if rows[x].receivedAt <= rows[y].receivedAt {
        assert Newest(y, s, rows);
      } else {
        assert Newest(x, s, rows);
      }
    }
  }

  /** `ids` names rows of the table, each once, newest first. */
  predicate NewestFirst(rows: map<int, EmailRow>, ids: seq<int>) {
    && (forall k :: 0 <= k < |ids| ==> ids[k] in rows)
    && (forall k, m :: 0 <= k < m < |ids| ==> ids[k] != ids[m])
    && (forall k, m :: 0 <= k < m < |ids| ==> rows[ids[k]].receivedAt >= rows[ids[m]].receivedAt)
  }

  /** No row of `others` is newer than a row of `ids`. */
  predicate NoneNewer(rows: map<int, EmailRow>, others: set<int>, ids: seq<int>)
    requires others <= rows.Keys
    requires forall k :: 0 <= k < |ids| ==> ids[k] in rows
  {
    forall j, k :: j in others && 0 <= k < |ids| ==> rows[j].receivedAt <= rows[ids[k]].receivedAt
  }

  /** The state of the selection: `ids` are taken, `remaining` are the rest, and none of the rest is newer. */
  predicate Selection(rows: map<int, EmailRow>, remaining: set<int>, ids: seq<int>) {
    && remaining <= rows.Keys
    && NewestFirst(rows, ids)
    && (forall k :: 0 <= k < |ids| ==> ids[k] !in remaining)
    && (forall j :: j in rows ==> j in remaining || j in ids)
    && NoneNewer(rows, remaining, ids)
  }

  lemma SelectionStep(rows: map<int, EmailRow>, remaining: set<int>, ids: seq<int>, id: int)
    requires Selection(rows, remaining, ids)
    requires Newest(id, remaining, rows)
    ensures Selection(rows, remaining - {id}, ids + [id])
  {
    var ids' := ids + [id];
    assert forall k :: 0 <= k < |ids| ==> ids'[k] == ids[k];
    assert forall k :: 0 <= k < |ids| ==> rows[ids[k]].receivedAt >= rows[id].receivedAt;
  }

  /** The `n` newest rows, newest first (the ORDER BY received_at DESC LIMIT n of the read queries). */
  method SelectNewest(rows: map<int, EmailRow>, n: nat) returns (ids: seq<int>)
    requires n <= |rows|
    ensures |ids| == n
    ensures NewestFirst(rows, ids)
    ensures forall j, k :: j in rows && j !in ids && 0 <= k < |ids| ==> rows[j].receivedAt <= rows[ids[k]].receivedAt
  {
    var remaining := rows.Keys;
    ids := [];
    while |ids| < n
      invariant |ids| <= n
      invariant |remaining| == |rows| - |ids|
      invariant Selection(rows, remaining, ids)
      decreases n - |ids|
    {
      NewestExists(remaining, rows);
      var id :| Newest(id, remaining, rows);
      SelectionStep(rows, remaining, ids, id);
      ids := ids + [id];
      remaining := remaining - {id};
    }
  }

  class SqliteStore {
    var emails: EmailTable
    var facts: FactsTable
    var config: ConfigTable

    ghost predicate Valid()
      reads this
    {
      emails.Valid()
    }

    constructor()
      ensures Valid()
      ensures emails == EmptyEmails && facts == map[] && config == map[]
    {
      emails := EmptyEmails;
      facts := map[];
      config := map[];
    }

    method SaveEmail(e: Email, fault: Option<string>) returns (r: Result<int>)
      requires Valid()
      modifies this
      ensures Valid()
      ensures fault.Some? ==> r == Err(Storage(fault.value)) && emails == old(emails)
      ensures fault.None? ==> r == Ok(SaveEmailTable(old(emails), e).id) && emails == SaveEmailTable(old(emails), e).table
      ensures facts == old(facts) && config == old(config)
    {
      if fault.Some? {
        return Err(Storage(fault.value));
      }
      var saved := SaveEmailTable(emails, e);
      emails := saved.table;
      r := Ok(saved.id);
    }

    method SaveFacts(f: EmailFact, fault: Option<string>) returns (r: Result<()>)
      requires Valid()
      modifies this
      ensures Valid()
      ensures fault.Some? ==> r == Err(Storage(fault.value)) && facts == old(facts)
      ensures fault.None? ==> r == Ok(()) && facts == SaveFactsTable(old(facts), f)
      ensures emails == old(emails) && config == old(config)
    {
      if fault.Some? {
        return Err(Storage(fault.value));
      }
      facts := SaveFactsTable(facts, f);
      r := Ok(());
    }

    method SetConfig(key: string, value: string, now: int, fault: Option<string>) returns (r: Result<()>)
      requires Valid()
      modifies this
      ensures Valid()
      ensures fault.Some? ==> r == Err(Storage(fault.value)) && config == old(config)
      ensures fault.None? ==> r == Ok(()) && config == SetConfigTable(old(config), key, value, now)
      ensures emails == old(emails) && facts == old(facts)
    {
      if fault.Some? {
        return Err(Storage(fault.value));
      }
      config := SetConfigTable(config, key, value, now);
      r := Ok(());
    }

    method GetConfig(key: string, fault: Option<string>) returns (r: Result<Option<string>>)
      ensures fault.Some? ==> r == Err(Storage(fault.value))
      ensures fault.None? ==> r == Ok(GetConfigTable(config, key))
    {
      if fault.Some? {
        return Err(Storage(fault.value));
      }
      r := Ok(GetConfigTable(config, key));
    }

    /**
     * `get_recent_emails(limit)`: the newest `limit` emails by received_at,
     * newest first, each joined with its facts if any. Rows with equal
     * received_at may come in any order; `ids` are the chosen row ids.
     */
    method GetRecentEmails(limit: int, fault: Option<string>) returns (r: Result<seq<Value>>, ids: seq<int>)
      ensures fault.Some? ==> r == Err(Storage(fault.value))
      ensures fault.None? ==> r.Ok?
      ensures |ids| == Limited(limit, |emails.rows|)
      ensures NewestFirst(emails.rows, ids)
      ensures forall j, k :: j in emails.rows && j !in ids && 0 <= k < |ids| ==>
        emails.rows[j].receivedAt <= emails.rows[ids[k]].receivedAt
      ensures r.Ok? ==> r.value == RowsJson(emails.rows, facts, ids)
    {
      var rows := emails.rows;
      ids := SelectNewest(rows, Limited(limit, |rows|));
      if fault.Some? {
        return Err(Storage(fault.value)), ids;
      }
      r := Ok(RowsJson(rows, facts, ids));
    }

    /** `get_emails_by_ids`: one query per id, in order; the first failing query fails the call. */
    method GetEmailsByIds(ids: seq<int>, fault: nat -> Option<string>) returns (r: Result<seq<Value>>)
      ensures r.Ok? <==> forall k :: 0 <= k < |ids| ==> fault(k).None?
      ensures r.Ok? ==> r.value == ByIds(emails.rows, facts, ids)
      ensures r.Err? ==> r.error.Storage?
    {
      var results := [];
      var i := 0;
      while i < |ids|
        invariant 0 <= i <= |ids|
        invariant forall k :: 0 <= k < i ==> fault(k).None?
        invariant results == ByIds(emails.rows, facts, ids[..i])
      {
        if fault(i).Some? {
          return Err(Storage(fault(i).value));
        }
        var id := ids[i];
        assert ids[..i + 1][..i] == ids[..i];
        results := results + Found(emails.rows, facts, id);
        i := i + 1;
      }
      assert ids[..i] == ids;
      r := Ok(results);
    }
  }
}
