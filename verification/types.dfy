/**
 * The records and closed classifications of crates/core/src/types/mod.rs.
 * Each classification is stored and displayed under its snake_case name; serde
 * (`rename_all = "snake_case"`) and strum (`serialize_all = "snake_case"`)
 * agree on that name, so one `Name` function serves both.
 * Timestamps are seconds since the epoch; `f32` confidences are reals.
 */
module Types {
  import opened Errors
  import opened JsonValue

  datatype PrimaryType = Update | Request | Decision | Fyi {
    function Name(): string {
      match this
      case Update => "update"
      case Request => "request"
      case Decision => "decision"
      case Fyi => "fyi"
    }
  }

  function PrimaryTypeFromName(s: string): Option<PrimaryType> {
    if s == "update" then Some(Update)
    else if s == "request" then Some(Request)
    else if s == "decision" then Some(Decision)
    else if s == "fyi" then Some(Fyi)
    else None
  }

  datatype Intent = Inform | Ask | Escalate | Commit | Clarify | Resolve {
    function Name(): string {
      match this
      case Inform => "inform"
      case Ask => "ask"
      case Escalate => "escalate"
      case Commit => "commit"
      case Clarify => "clarify"
      case Resolve => "resolve"
    }
  }

  function IntentFromName(s: string): Option<Intent> {
    if s == "inform" then Some(Inform)
    else if s == "ask" then Some(Ask)
    else if s == "escalate" then Some(Escalate)
    else if s == "commit" then Some(Commit)
    else if s == "clarify" then Some(Clarify)
    else if s == "resolve" then Some(Resolve)
    else None
  }

  datatype Sentiment = Neutral | Positive | Concerned | Hostile {
    function Name(): string {
      match this
      case Neutral => "neutral"
      case Positive => "positive"
      case Concerned => "concerned"
      case Hostile => "hostile"
    }
  }

  function SentimentFromName(s: string): Option<Sentiment> {
    if s == "neutral" then Some(Neutral)
    else if s == "positive" then Some(Positive)
    else if s == "concerned" then Some(Concerned)
    else if s == "hostile" then Some(Hostile)
    else None
  }

  datatype Urgency = UrgencyLow | UrgencyMedium | UrgencyHigh {
    function Name(): string {
      match this
      case UrgencyLow => "low"
      case UrgencyMedium => "medium"
      case UrgencyHigh => "high"
    }
  }

  function UrgencyFromName(s: string): Option<Urgency> {
    if s == "low" then Some(UrgencyLow)
    else if s == "medium" then Some(UrgencyMedium)
    else if s == "high" then Some(UrgencyHigh)
    else None
  }

  /** `WaitingOn::None` is called `NoOne` here, so as not to clash with `Option.None`. */
  datatype WaitingOn = Me | Them | ThirdParty | NoOne {
    function Name(): string {
      match this
      case Me => "me"
      case Them => "them"
      case ThirdParty => "third_party"
      case NoOne => "none"
    }
  }

  function WaitingOnFromName(s: string): Option<WaitingOn> {
    if s == "me" then Some(Me)
    else if s == "them" then Some(Them)
    else if s == "third_party" then Some(ThirdParty)
    else if s == "none" then Some(NoOne)
    else None
  }

  datatype Severity = SeverityLow | SeverityMedium | SeverityHigh {
    function Name(): string {
      match this
      case SeverityLow => "low"
      case SeverityMedium => "medium"
      case SeverityHigh => "high"
    }
  }

  function SeverityFromName(s: string): Option<Severity> {
    if s == "low" then Some(SeverityLow)
    else if s == "medium" then Some(SeverityMedium)
    else if s == "high" then Some(SeverityHigh)
    else None
  }

  /** `EntityRole` derives serde's snake_case names only; it has no `Display`. */
  datatype EntityRole = Sender | Recipient | Cc | Internal | External | Client | Vendor | Opposing | Unknown {
    function SerdeName(): string {
      match this
      case Sender => "sender"
      case Recipient => "recipient"
      case Cc => "cc"
      case Internal => "internal"
      case External => "external"
      case Client => "client"
      case Vendor => "vendor"
      case Opposing => "opposing"
      case Unknown => "unknown"
    }
  }

  function EntityRoleFromName(s: string): Option<EntityRole> {
    if s == "sender" then Some(Sender)
    else if s == "recipient" then Some(Recipient)
    else if s == "cc" then Some(Cc)
    else if s == "internal" then Some(EntityRole.Internal)
    else if s == "external" then Some(External)
    else if s == "client" then Some(Client)
    else if s == "vendor" then Some(Vendor)
    else if s == "opposing" then Some(Opposing)
    else if s == "unknown" then Some(Unknown)
    else None
  }

  /** `serde_json::from_value::<E>` for the unit-only enums above. */
  function SentimentFromJson(v: Value): Option<Sentiment> {
    match UnitVariantName(v)
    case Some(s) => SentimentFromName(s)
    case None => None
  }

  function UrgencyFromJson(v: Value): Option<Urgency> {
    match UnitVariantName(v)
    case Some(s) => UrgencyFromName(s)
    case None => None
  }

  // ---------------------------------------------------------------------
  // Round trips of the stored names

  lemma PrimaryTypeNames(p: PrimaryType, s: string)
    ensures PrimaryTypeFromName(p.Name()) == Some(p)
    ensures PrimaryTypeFromName(s) == Some(p) ==> p.Name() == s
  {
  }

  lemma IntentNames(i: Intent, s: string)
    ensures IntentFromName(i.Name()) == Some(i)
    ensures IntentFromName(s) == Some(i) ==> i.Name() == s
  {
  }

  lemma SentimentNames(x: Sentiment, s: string)
    ensures SentimentFromName(x.Name()) == Some(x)
    ensures SentimentFromName(s) == Some(x) ==> x.Name() == s
  {
  }

  lemma UrgencyNames(u: Urgency, s: string)
    ensures UrgencyFromName(u.Name()) == Some(u)
    ensures UrgencyFromName(s) == Some(u) ==> u.Name() == s
  {
  }

  lemma WaitingOnNames(w: WaitingOn, s: string)
    ensures WaitingOnFromName(w.Name()) == Some(w)
    ensures WaitingOnFromName(s) == Some(w) ==> w.Name() == s
  {
  }

  lemma SeverityNames(x: Severity, s: string)
    ensures SeverityFromName(x.Name()) == Some(x)
    ensures SeverityFromName(s) == Some(x) ==> x.Name() == s
  {
  }

  lemma EntityRoleNames(r: EntityRole, s: string)
    ensures EntityRoleFromName(r.SerdeName()) == Some(r)
    ensures EntityRoleFromName(s) == Some(r) ==> r.SerdeName() == s
  {
  }

  /** Distinct variants are stored under distinct strings. */
  lemma NamesInjective(p1: PrimaryType, p2: PrimaryType, i1: Intent, i2: Intent,
                       s1: Sentiment, s2: Sentiment, u1: Urgency, u2: Urgency,
                       w1: WaitingOn, w2: WaitingOn, v1: Severity, v2: Severity)
    ensures p1.Name() == p2.Name() ==> p1 == p2
    ensures i1.Name() == i2.Name() ==> i1 == i2
    ensures s1.Name() == s2.Name() ==> s1 == s2
    ensures u1.Name() == u2.Name() ==> u1 == u2
    ensures w1.Name() == w2.Name() ==> w1 == w2
    ensures v1.Name() == v2.Name() ==> v1 == v2
  {
    PrimaryTypeNames(p1, ""); PrimaryTypeNames(p2, "");
    IntentNames(i1, ""); IntentNames(i2, "");
    SentimentNames(s1, ""); SentimentNames(s2, "");
    UrgencyNames(u1, ""); UrgencyNames(u2, "");
    WaitingOnNames(w1, ""); WaitingOnNames(w2, "");
    SeverityNames(v1, ""); SeverityNames(v2, "");
  }

  /** serde reads a variant back both from its name and from `{name: null}`. */
  lemma SentimentFromJsonForms(x: Sentiment)
    ensures SentimentFromJson(String(x.Name())) == Some(x)
    ensures SentimentFromJson(UnitObject(x.Name())) == Some(x)
  {
    SentimentNames(x, "");
    var m := map[x.Name() := Null];
    assert x.Name() in m;
  }

  // ---------------------------------------------------------------------
  // Records

  datatype Email = Email(
    id: int,
    storeId: string,
    entryId: string,
    conversationId: Option<string>,
    folder: string,
    subject: string,
    sender: string,
    to: string,
    cc: Option<string>,
    bcc: Option<string>,
    sentAt: int,
    receivedAt: int,
    bodyText: string,
    bodyHtml: Option<string>,
    importance: int,
    categories: Option<string>,
    flags: Option<int>,
    internetMessageId: Option<string>,
    lastIndexedAt: int,
    hash: string,
    excludedReason: Option<string>)

  datatype ProjectInfo = ProjectInfo(name: string, confidence: real)

  datatype Risk = Risk(title: string, details: string, owner: Option<string>, severity: Severity, confidence: real)
  datatype Issue = Issue(title: string, details: string, owner: Option<string>, severity: Severity, confidence: real)
  datatype Blocker = Blocker(title: string, details: string, owner: Option<string>, severity: Severity, confidence: real)
  datatype OpenQuestion = OpenQuestion(question: string, askedBy: Option<string>, owner: Option<string>, dueBy: Option<int>, confidence: real)
  datatype AnsweredQuestion = AnsweredQuestion(question: string, answerSummary: string, confidence: real)

  /** `prompt_id` is a UUID, kept as its text. */
  datatype Provenance = Provenance(model: string, provider: string, promptId: string, createdAt: int)

  datatype EmailFact = EmailFact(
    emailId: int,
    primaryType: PrimaryType,
    intent: Intent,
    clientOrProject: ProjectInfo,
    sentiment: Sentiment,
    urgency: Urgency,
    dueBy: Option<int>,
    needsResponse: bool,
    waitingOn: WaitingOn,
    summary: string,
    keyPoints: seq<string>,
    risks: seq<Risk>,
    issues: seq<Issue>,
    blockers: seq<Blocker>,
    openQuestions: seq<OpenQuestion>,
    answeredQuestions: seq<AnsweredQuestion>,
    confidence: real,
    provenance: Provenance,
    createdAt: int)
}
