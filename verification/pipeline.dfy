/**
 * crates/agent/src/pipeline/mod.rs: `process_email`, the ordered chain
 * save email -> extract facts -> save facts -> embed body -> upsert vector,
 * and `extract_facts`, the total mapping from the model's JSON to a facts
 * record with a default for every field.
 *
 * The pipeline's own facts record (with `email_type`, `project`, action items,
 * decisions, deadlines and labels) is modelled as `extract_facts` builds it; it
 * is not the `EmailFact` of crates/core/src/types/mod.rs.
 */
module Pipeline {
  import opened Errors
  import opened JsonValue
  import opened Provider
  import Types

  /** The pipeline's email classification, with the names its prompt offers. */
  datatype EmailType =
    | StatusUpdate | Scheduling | Question | Request | Approval | Invoice
    | Legal | Sales | Support | Personal | Other
  {
    function Name(): string {
      match this
      case StatusUpdate => "status_update"
      case Scheduling => "scheduling"
      case Question => "question"
      case Request => "request"
      case Approval => "approval"
      case Invoice => "invoice"
      case Legal => "legal"
      case Sales => "sales"
      case Support => "support"
      case Personal => "personal"
      case Other => "other"
    }
  }

  function EmailTypeFromName(s: string): Option<EmailType> {
    if s == "status_update" then Some(StatusUpdate)
    else if s == "scheduling" then Some(Scheduling)
    else if s == "question" then Some(Question)
    else if s == "request" then Some(Request)
    else if s == "approval" then Some(Approval)
    else if s == "invoice" then Some(Invoice)
    else if s == "legal" then Some(Legal)
    else if s == "sales" then Some(Sales)
    else if s == "support" then Some(Support)
    else if s == "personal" then Some(Personal)
    else if s == "other" then Some(EmailType.Other)
    else None
  }

  function EmailTypeFromJson(v: Value): Option<EmailType> {
    match UnitVariantName(v)
    case Some(s) => EmailTypeFromName(s)
    case None => None
  }

  datatype ActionItem = ActionItem(owner: Option<string>, task: string, dueDate: Option<int>, confidence: real)

  /** The record `extract_facts` returns. */
  datatype ExtractedFacts = ExtractedFacts(
    emailId: int,
    emailType: EmailType,
    project: Types.ProjectInfo,
    sentiment: Types.Sentiment,
    urgency: Types.Urgency,
    summary: string,
    keyPoints: seq<string>,
    actionItems: seq<ActionItem>,
    decisions: seq<string>,
    risks: seq<string>,
    deadlines: seq<string>,
    needsResponse: bool,
    suggestedLabels: seq<string>,
    confidence: real,
    provenance: Types.Provenance,
    createdAt: int)

  const DefaultProject: Types.ProjectInfo := Types.ProjectInfo("Default", 1.0)

  // ---------------------------------------------------------------------
  // Field mappings

  /** `filter_map(|v| v.as_str())`: the strings of a JSON array, in order. */
  function StringsOf(items: seq<Value>): seq<string> {
    if items == [] then []
    else match AsStr(items[0])
      case Some(s) => [s] + StringsOf(items[1..])
      case None => StringsOf(items[1..])
  }

  /** `as_array().map(..).unwrap_or_default()` */
  function StringList(v: Value): seq<string> {
    match AsArray(v)
    case Some(items) => StringsOf(items)
    case None => []
  }

  function ActionItemsOf(items: seq<Value>): seq<ActionItem> {
    if items == [] then []
    else match AsStr(items[0])
      case Some(s) => [ActionItem(None, s, None, 1.0)] + ActionItemsOf(items[1..])
      case None => ActionItemsOf(items[1..])
  }

  function ActionItemList(v: Value): seq<ActionItem> {
    match AsArray(v)
    case Some(items) => ActionItemsOf(items)
    case None => []
  }

  /** `serde_json::from_value::<ProjectInfo>`: a map with a string `name` and a
      numeric `confidence` (other members ignored), or a two-element array. */
  function ProjectFromJson(v: Value): Option<Types.ProjectInfo> {
    match v
    case Object(m) =>
      if "name" in m && m["name"].String? && "confidence" in m && AsF64(m["confidence"]).Some? then
        Some(Types.ProjectInfo(m["name"].s, AsF64(m["confidence"]).value))
      else None
    case Array(items) =>
      if |items| == 2 && items[0].String? && AsF64(items[1]).Some? then
        Some(Types.ProjectInfo(items[0].s, AsF64(items[1]).value))
      else None
    case _ => None
  }

  /** The mapping at the end of `extract_facts`, with its default for every field. */
  function MapFacts(emailId: int, data: Value, promptId: string, provenanceTime: int, createdAt: int): ExtractedFacts {
    ExtractedFacts(
      emailId,
      EmailTypeFromJson(Get(data, "email_type")).UnwrapOr(EmailType.Other),
      ProjectFromJson(Get(data, "project")).UnwrapOr(DefaultProject),
      Types.SentimentFromJson(Get(data, "sentiment")).UnwrapOr(Types.Neutral),
      Types.UrgencyFromJson(Get(data, "urgency")).UnwrapOr(Types.UrgencyMedium),
      AsStr(Get(data, "summary")).UnwrapOr(""),
      StringList(Get(data, "key_points")),
      ActionItemList(Get(data, "action_items")),
      StringList(Get(data, "decisions")),
      StringList(Get(data, "risks")),
      StringList(Get(data, "deadlines")),
      AsBool(Get(data, "needs_response")).UnwrapOr(false),
      StringList(Get(data, "suggested_labels")),
      AsF64(Get(data, "confidence")).UnwrapOr(0.0),
      Types.Provenance("local", "local", promptId, provenanceTime),
      createdAt)
  }

  function DefaultFacts(emailId: int, promptId: string, provenanceTime: int, createdAt: int): ExtractedFacts {
    ExtractedFacts(emailId, EmailType.Other, DefaultProject, Types.Neutral, Types.UrgencyMedium, "",
      [], [], [], [], [], false, [], 0.0,
      Types.Provenance("local", "local", promptId, provenanceTime), createdAt)
  }

  // ---------------------------------------------------------------------
  // Properties of the mapping

  /** The kept strings are exactly the string elements, in their original order. */
  lemma {:induction false} StringsOfAppend(xs: seq<Value>, ys: seq<Value>)
    ensures StringsOf(xs + ys) == StringsOf(xs) + StringsOf(ys)
  {
    if xs == [] {
      assert xs + ys == ys;
    } else {
      assert (xs + ys)[1..] == xs[1..] + ys;
      StringsOfAppend(xs[1..], ys);
    }
  }

  lemma {:induction false} StringsOfBounds(items: seq<Value>)
    ensures |StringsOf(items)| <= |items|
    ensures forall s :: s in StringsOf(items) ==> String(s) in items
    ensures (forall i :: 0 <= i < |items| ==> items[i].String?) ==>
      StringsOf(items) == seq(|items|, i requires 0 <= i < |items| => items[i].s)
  {
    if items != [] {
      StringsOfBounds(items[1..]);
      forall s | s in StringsOf(items) ensures String(s) in items {
        if s !in StringsOf(items[1..]) {
          assert items[0] == String(s);
        } else {
          assert String(s) in items[1..];
        }
      }
    }
  }

  /** Non-strings are dropped: a non-string element contributes nothing. */
  lemma DropsNonStrings(xs: seq<Value>, v: Value, ys: seq<Value>)
    requires !v.String?
    ensures StringsOf(xs + [v] + ys) == StringsOf(xs) + StringsOf(ys)
  {
    StringsOfAppend(xs + [v], ys);
    StringsOfAppend(xs, [v]);
    assert StringsOf([v]) == StringsOf([v][1..]);
  }

  /** Each kept action-item string s becomes `{owner: None, task: s, due_date: None, confidence: 1.0}`. */
  lemma {:induction false} ActionItemsFollowStrings(items: seq<Value>)
    ensures |ActionItemsOf(items)| == |StringsOf(items)|
    ensures forall i :: 0 <= i < |StringsOf(items)| ==>
      ActionItemsOf(items)[i] == ActionItem(None, StringsOf(items)[i], None, 1.0)
  {
    if items != [] {
      ActionItemsFollowStrings(items[1..]);
    }
  }

  /** A value with none of the keys (any non-object, say) maps to the default record. */
  lemma {:induction false} MapFactsDefaults(emailId: int, data: Value, promptId: string, t1: int, t2: int)
    requires !data.Object? || data.fields.Keys == {}
    ensures MapFacts(emailId, data, promptId, t1, t2) == DefaultFacts(emailId, promptId, t1, t2)
  {
    forall k ensures Get(data, k) == Null {}
  }

  /**
   * Field by field, for any answer: a field serde cannot read (missing, of the
   * wrong JSON type, or naming no variant) takes its default, and a readable one
   * is kept.
   */
  lemma MapFactsFieldDefaults(emailId: int, data: Value, promptId: string, t1: int, t2: int)
    ensures var f := MapFacts(emailId, data, promptId, t1, t2);
      && (EmailTypeFromJson(Get(data, "email_type")).None? ==> f.emailType == EmailType.Other)
      && (EmailTypeFromJson(Get(data, "email_type")).Some? ==> f.emailType == EmailTypeFromJson(Get(data, "email_type")).value)
      && (ProjectFromJson(Get(data, "project")).None? ==> f.project == Types.ProjectInfo("Default", 1.0))
      && (ProjectFromJson(Get(data, "project")).Some? ==> f.project == ProjectFromJson(Get(data, "project")).value)
      && (Types.SentimentFromJson(Get(data, "sentiment")).None? ==> f.sentiment == Types.Neutral)
      && (Types.SentimentFromJson(Get(data, "sentiment")).Some? ==> f.sentiment == Types.SentimentFromJson(Get(data, "sentiment")).value)
      && (Types.UrgencyFromJson(Get(data, "urgency")).None? ==> f.urgency == Types.UrgencyMedium)
      && (Types.UrgencyFromJson(Get(data, "urgency")).Some? ==> f.urgency == Types.UrgencyFromJson(Get(data, "urgency")).value)
    ensures var f := MapFacts(emailId, data, promptId, t1, t2);
      && (!Get(data, "summary").String? ==> f.summary == "")
      && (Get(data, "summary").String? ==> f.summary == Get(data, "summary").s)
      && (!Get(data, "needs_response").Bool? ==> !f.needsResponse)
      && (Get(data, "needs_response").Bool? ==> f.needsResponse == Get(data, "needs_response").b)
      && (!Get(data, "confidence").Number? ==> f.confidence == 0.0)
    ensures var f := MapFacts(emailId, data, promptId, t1, t2);
      && (!Get(data, "key_points").Array? ==> f.keyPoints == [])
      && (Get(data, "key_points").Array? ==> f.keyPoints == StringsOf(Get(data, "key_points").items))
      && (!Get(data, "action_items").Array? ==> f.actionItems == [])
      && (!Get(data, "decisions").Array? ==> f.decisions == [])
      && (!Get(data, "risks").Array? ==> f.risks == [])
      && (!Get(data, "deadlines").Array? ==> f.deadlines == [])
      && (!Get(data, "suggested_labels").Array? ==> f.suggestedLabels == [])
  {
  }

  /** The prompt's own values that no variant names, whatever the rest of the answer holds, take the default. */
  lemma UnknownNamesDefault(emailId: int, data: Value, promptId: string, t1: int, t2: int, name: string)
    requires Get(data, "sentiment") == String(name) || Get(data, "sentiment") == UnitObject(name)
    requires name in {"very_negative", "negative", "very_positive"}
    ensures MapFacts(emailId, data, promptId, t1, t2).sentiment == Types.Neutral
  {
    MapFactsFieldDefaults(emailId, data, promptId, t1, t2);
    var m := map[name := Null];
    assert name in m;
    assert Types.SentimentFromName(name) == None;
  }

  /** Prompt values the closed enums do not have take the default. */
  lemma UnknownEnumValuesDefault(emailId: int, data: Value, promptId: string, t1: int, t2: int)
    requires data.Object?
    requires "sentiment" in data.fields && data.fields["sentiment"] == String("very_negative")
    requires "urgency" in data.fields && data.fields["urgency"] == String("critical")
    requires "email_type" in data.fields && data.fields["email_type"] == Number(PosInt(3))
    ensures MapFacts(emailId, data, promptId, t1, t2).sentiment == Types.Neutral
    ensures MapFacts(emailId, data, promptId, t1, t2).urgency == Types.UrgencyMedium
    ensures MapFacts(emailId, data, promptId, t1, t2).emailType == EmailType.Other
  {
  }

  /** A present numeric confidence is copied as it is, even outside [0, 1]. */
  lemma ConfidenceNotClamped(emailId: int, data: Value, promptId: string, t1: int, t2: int, x: real)
    requires data.Object? && "confidence" in data.fields && data.fields["confidence"] == Number(Float(x))
    ensures MapFacts(emailId, data, promptId, t1, t2).confidence == x
    ensures x > 1.0 ==> MapFacts(emailId, data, promptId, t1, t2).confidence > 1.0
  {
  }

  /** A recognised name, or its `{name: null}` form, is read as that variant. */
  lemma KnownEnumValuesKept(emailId: int, data: Value, promptId: string, t1: int, t2: int,
                            s: Types.Sentiment, u: Types.Urgency, e: EmailType)
    requires data.Object?
    requires "sentiment" in data.fields && data.fields["sentiment"] == String(s.Name())
    requires "urgency" in data.fields && data.fields["urgency"] == UnitObject(u.Name())
    requires "email_type" in data.fields && data.fields["email_type"] == String(e.Name())
    ensures MapFacts(emailId, data, promptId, t1, t2).sentiment == s
    ensures MapFacts(emailId, data, promptId, t1, t2).urgency == u
    ensures MapFacts(emailId, data, promptId, t1, t2).emailType == e
  {
    Types.SentimentNames(s, "");
    Types.UrgencyNames(u, "");
    var m := map[u.Name() := Null];
    assert u.Name() in m;
  }

  // ---------------------------------------------------------------------
  // extract_facts and process_email

  const PromptHead: string :=
    "Analyze the following email and extract key points, action items, sentiment, and urgency.\n"
    + "Respond ONLY with a JSON object matching this schema:\n"
    + "{\n"
    + "  \"email_type\": \"status_update|scheduling|question|request|approval|invoice|legal|sales|support|personal|other\",\n"
    + "  \"project\": { \"name\": \"string\", \"confidence\": 0.0-1.0 },\n"
    + "  \"sentiment\": \"very_negative|negative|neutral|positive|very_positive\",\n"
    + "  \"urgency\": \"low|medium|high|critical\",\n"
    + "  \"summary\": \"string\",\n"
    + "  \"key_points\": [\"string\"],\n"
    + "  \"action_items\": [\"string\"],\n"
    + "  \"decisions\": [\"string\"],\n"
    + "  \"risks\": [\"string\"],\n"
    + "  \"deadlines\": [\"string\"],\n"
    + "  \"needs_response\": true|false,\n"
    + "  \"suggested_labels\": [\"string\"],\n"
    + "  \"confidence\": 0.0-1.0\n"
    + "}\n"
    + "\n"
    + "Subject: "

  function FactsPrompt(email: Types.Email): string {
    PromptHead + email.subject + "\nFrom: " + email.sender + "\nBody: " + email.bodyText
  }

  /** The one request `extract_facts` sends: a single user message, temperature 0, JSON mode. */
  function FactsRequest(email: Types.Email): ChatRequest {
    ChatRequest([Message("user", FactsPrompt(email))], 0.0, Some(Json), None)
  }

  /** `extract_facts` after the provider answered `reply`; `parse` is `serde_json::from_str`. */
  function ExtractFacts(email: Types.Email, reply: Result<ChatResponse>, parse: string -> Parsed,
                        promptId: string, provenanceTime: int, createdAt: int): (r: Result<ExtractedFacts>)
    ensures reply.Err? ==> r == Err(reply.error)
    ensures reply.Ok? && parse(reply.value.content).Malformed? ==>
      r == Err(AI(parse(reply.value.content).message))
    ensures r.Ok? ==> r.value.emailId == email.id && r.value.provenance.promptId == promptId
  {
    match reply
    case Err(e) => Err(e)
    case Ok(res) =>
      match parse(res.content)
      case Malformed(msg) => Err(AI(msg))
      case Parsed(data) => Ok(MapFacts(email.id, data, promptId, provenanceTime, createdAt))
  }

  /** The answers of the collaborators `process_email` calls, one per step. */
  datatype Replies = Replies(
    saveEmail: Result<int>,
    chat: Result<ChatResponse>,
    saveFacts: Result<()>,
    embedding: Result<Embedding>,
    upsert: Result<()>)

  /** What each step hands to a collaborator. Nothing is ever deleted or undone. */
  datatype Effect =
    | EmailSaved(email: Types.Email)
    | ExtractionRequested(request: ChatRequest)
    | FactsSaved(facts: ExtractedFacts)
    | EmbeddingRequested(text: string)
    | VectorUpserted(storeId: string, entryId: string, vector: Embedding, payload: map<string, Value>)
  {
    /** The position of the step in `process_email`. */
    function Step(): nat {
      match this
      case EmailSaved(_) => 0
      case ExtractionRequested(_) => 1
      case FactsSaved(_) => 2
      case EmbeddingRequested(_) => 3
      case VectorUpserted(_, _, _, _) => 4
    }
  }

  /**
   * `process_email`. `effects` lists what reached the stores and the provider,
   * in order; `email'` is the email after its id was overwritten. The stored
   * hash is the incoming one: nothing here computes it.
   */
  method ProcessEmail(email: Types.Email, replies: Replies, parse: string -> Parsed,
                      promptId: string, provenanceTime: int, createdAt: int)
    returns (r: Result<()>, email': Types.Email, effects: seq<Effect>)
    ensures 1 <= |effects| <= 5
    ensures forall i :: 0 <= i < |effects| ==> effects[i].Step() == i
    ensures effects[0] == EmailSaved(email)
    // Each step runs only when every earlier step succeeded.
    ensures |effects| >= 2 <==> replies.saveEmail.Ok?
    ensures |effects| >= 3 <==>
      (replies.saveEmail.Ok? && ExtractFacts(email', replies.chat, parse, promptId, provenanceTime, createdAt).Ok?)
    ensures |effects| >= 4 <==> |effects| >= 3 && replies.saveFacts.Ok?
    ensures |effects| == 5 <==> |effects| >= 4 && replies.embedding.Ok?
    ensures r.Ok? <==> |effects| == 5 && replies.upsert.Ok?
    // The first failure is the one returned.
    ensures |effects| == 1 ==> r == Err(replies.saveEmail.error)
    ensures |effects| == 2 ==>
      r == Err(ExtractFacts(email', replies.chat, parse, promptId, provenanceTime, createdAt).error)
    ensures |effects| == 3 ==> r == Err(replies.saveFacts.error)
    ensures |effects| == 4 ==> r == Err(replies.embedding.error)
    ensures |effects| == 5 && r.Err? ==> r == Err(replies.upsert.error)
    // What each step is given.
    ensures replies.saveEmail.Ok? ==> email' == email.(id := replies.saveEmail.value)
    ensures |effects| >= 2 ==> effects[1] == ExtractionRequested(FactsRequest(email))
    ensures |effects| >= 3 ==>
      effects[2] == FactsSaved(ExtractFacts(email', replies.chat, parse, promptId, provenanceTime, createdAt).value)
    ensures |effects| >= 3 ==> effects[2].FactsSaved? && effects[2].facts.emailId == replies.saveEmail.value
    ensures |effects| >= 4 ==> effects[3] == EmbeddingRequested(email.bodyText)
    ensures |effects| == 5 ==>
      effects[4] == VectorUpserted(email.storeId, email.entryId, replies.embedding.value, map[])
  {
    email' := email;
    effects := [EmailSaved(email)];
    if replies.saveEmail.Err? {
      return Err(replies.saveEmail.error), email', effects;
    }
    var id := replies.saveEmail.value;
    email' := email'.(id := id);

    effects := effects + [ExtractionRequested(FactsRequest(email'))];
    var extracted := ExtractFacts(email', replies.chat, parse, promptId, provenanceTime, createdAt);
    if extracted.Err? {
      return Err(extracted.error), email', effects;
    }
    var facts := extracted.value;
    facts := facts.(emailId := id);

    effects := effects + [FactsSaved(facts)];
    if replies.saveFacts.Err? {
      return Err(replies.saveFacts.error), email', effects;
    }

    effects := effects + [EmbeddingRequested(email'.bodyText)];
    if replies.embedding.Err? {
      return Err(replies.embedding.error), email', effects;
    }
    var embedding := replies.embedding.value;

    var payload: map<string, Value> := map[];
    effects := effects + [VectorUpserted(email'.storeId, email'.entryId, embedding, payload)];
    if replies.upsert.Err? {
      return Err(replies.upsert.error), email', effects;
    }
    r := Ok(());
  }
}
