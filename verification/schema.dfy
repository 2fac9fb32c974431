/**
 * crates/ai/src/schema/mod.rs: the fixed extraction schema, its validator, and
 * the bounded repair driver (one extraction call, at most one repair call).
 *
 * The schema is written as data over the JSON Schema draft-07 keywords it uses
 * (`type` of section 6.1.1, `maximum`/`minimum` of sections 6.2.2 and 6.2.4,
 * `maxLength` of section 6.3.1, `required` of section 6.5.3), with one
 * interpreter for those keywords.
 */
module Schema {
  import opened Errors
  import opened JsonValue
  import opened Provider

  datatype TypeName = StringType | NumberType | BooleanType

  /** The keywords a property schema may carry; absent ones are `None`. */
  datatype PropertySchema = PropertySchema(
    typ: TypeName,
    maxLength: Option<nat>,
    minimum: Option<real>,
    maximum: Option<real>)

  /** An object schema: `"type": "object"`, `properties` and `required`. */
  datatype ObjectSchema = ObjectSchema(properties: map<string, PropertySchema>, required: seq<string>)

  /** Section 6.1.1: a JSON number, integers included, is of type "number". */
  predicate HasType(v: Value, t: TypeName) {
    match t
    case StringType => v.String?
    case NumberType => v.Number?
    case BooleanType => v.Bool?
  }

  /** `maxLength` counts characters and constrains only strings; `minimum` and
      `maximum` are inclusive and constrain only numbers. */
  predicate PropertyValid(v: Value, p: PropertySchema) {
    && HasType(v, p.typ)
    && (p.maxLength.Some? && v.String? ==> |v.s| <= p.maxLength.value)
    && (p.minimum.Some? && v.Number? ==> p.minimum.value <= AsF64(v).value)
    && (p.maximum.Some? && v.Number? ==> AsF64(v).value <= p.maximum.value)
  }

  predicate ObjectValid(v: Value, sch: ObjectSchema) {
    && v.Object?
    && (forall k :: k in sch.properties && k in v.fields ==> PropertyValid(v.fields[k], sch.properties[k]))
    && (forall i :: 0 <= i < |sch.required| ==> sch.required[i] in v.fields)
  }

  const SummaryMaxLength: nat := 500

  /** The schema `ExtractionValidator::new` compiles. */
  const ExtractionSchema: ObjectSchema := ObjectSchema(
    map[
      "email_type" := PropertySchema(StringType, None, None, None),
      "summary" := PropertySchema(StringType, Some(SummaryMaxLength), None, None),
      "confidence" := PropertySchema(NumberType, None, Some(0.0), Some(1.0)),
      "needs_response" := PropertySchema(BooleanType, None, None, None)],
    ["email_type", "summary", "confidence", "needs_response"])

  /** `ExtractionValidator::validate` */
  predicate Validate(v: Value) {
    ObjectValid(v, ExtractionSchema)
  }

  /**
   * What the schema accepts, written out: an object with the four required
   * members, of the right kinds, a summary of at most 500 characters and a
   * confidence in [0, 1]. Other members are unconstrained.
   */
  lemma ValidateCharacterization(v: Value)
    ensures Validate(v) <==>
      && v.Object?
      && "email_type" in v.fields && v.fields["email_type"].String?
      && "summary" in v.fields && v.fields["summary"].String?
      && |v.fields["summary"].s| <= 500
      && "confidence" in v.fields && v.fields["confidence"].Number?
      && 0.0 <= AsF64(v.fields["confidence"]).value <= 1.0
      && "needs_response" in v.fields && v.fields["needs_response"].Bool?
  {
    var sch := ExtractionSchema;
    if Validate(v) {
      assert sch.required[0] == "email_type" && sch.required[1] == "summary";
      assert sch.required[2] == "confidence" && sch.required[3] == "needs_response";
      assert PropertyValid(v.fields["email_type"], sch.properties["email_type"]);
      assert PropertyValid(v.fields["summary"], sch.properties["summary"]);
      assert PropertyValid(v.fields["confidence"], sch.properties["confidence"]);
      assert PropertyValid(v.fields["needs_response"], sch.properties["needs_response"]);
    }
  }

  /** An integer confidence of 0 or 1 is accepted; 2 and a string are not. */
  lemma IntegerConfidence(v: Value, c: Value)
    requires v.Object?
    requires v.fields.Keys == {"email_type", "summary", "confidence", "needs_response"}
    requires v.fields["email_type"] == String("fyi") && v.fields["summary"] == String("")
    requires v.fields["needs_response"] == Bool(false)
    requires v.fields["confidence"] == c
    ensures c == Number(PosInt(1)) ==> Validate(v)
    ensures c == Number(PosInt(0)) ==> Validate(v)
    ensures c == Number(PosInt(2)) ==> !Validate(v)
    ensures c == String("1") ==> !Validate(v)
  {
    ValidateCharacterization(v);
  }

  // ---------------------------------------------------------------------
  // Requests

  const AnalystPrompt: string := "You are an expert email analyst. Output valid JSON only."
  const RepairSpecialistPrompt: string := "You are a JSON repair specialist. Output corrected JSON only."
  const RepairPreamble: string := "The previous JSON output was invalid according to the schema. Fix it.\n\nText: "
  const InvalidJsonLabel: string := "\n\nInvalid JSON: "
  const RepairFailedMessage: string := "Self-repair failed to produce valid JSON"

  /** The request `run_extraction` sends: system prompt, then the text, at temperature 0 in JSON mode. */
  function ExtractionRequest(text: string, systemPrompt: Option<string>): ChatRequest {
    ChatRequest(
      [Message("system", systemPrompt.UnwrapOr(AnalystPrompt)), Message("user", text)],
      0.0, Some(Json), None)
  }

  predicate WellShaped(req: ChatRequest) {
    && |req.messages| == 2
    && req.messages[0].role == "system"
    && req.messages[1].role == "user"
    && req.temperature == 0.0
    && req.responseFormat == Some(Json)
    && req.model == None
  }

  /** The user text of the repair call: the original text, then the rendering of the rejected value. */
  function RepairPrompt(text: string, invalidJson: string): string {
    RepairPreamble + text + InvalidJsonLabel + invalidJson
  }

  predicate OccursAt(s: string, part: string, i: int) {
    0 <= i <= |s| - |part| && s[i..i + |part|] == part
  }

  ghost predicate Contains(s: string, part: string) {
    exists i :: OccursAt(s, part, i)
  }

  /** The repair prompt carries both the original text and the invalid JSON, whole. */
  lemma RepairPromptCarriesBoth(text: string, invalidJson: string)
    ensures Contains(RepairPrompt(text, invalidJson), text)
    ensures Contains(RepairPrompt(text, invalidJson), invalidJson)
  {
    var p := RepairPrompt(text, invalidJson);
    var i := |RepairPreamble|;
    assert OccursAt(p, text, i);
    var j := |RepairPreamble| + |text| + |InvalidJsonLabel|;
    assert OccursAt(p, invalidJson, j);
  }

  /** `run_extraction` after the call: propagate a provider error, else parse the content. */
  function DecodeReply(reply: Result<ChatResponse>, parse: string -> Parsed): Result<Value> {
    match reply
    case Err(e) => Err(e)
    case Ok(res) =>
      match parse(res.content)
      case Parsed(v) => Ok(v)
      case Malformed(msg) => Err(AI(msg))
  }

  /**
   * `extract_with_repair`. The provider is an oracle: its i-th `chat_completion`
   * call answers `replies(i)`. `parse` is `serde_json::from_str` and `render`
   * the `Display` of a value. `sent` lists the requests made, in order.
   */
  method ExtractWithRepair(
    text: string,
    replies: nat -> Result<ChatResponse>,
    parse: string -> Parsed,
    render: Value -> string)
    returns (r: Result<Value>, sent: seq<ChatRequest>)
    ensures 1 <= |sent| <= 2
    ensures forall i :: 0 <= i < |sent| ==> WellShaped(sent[i])
    ensures sent[0] == ExtractionRequest(text, None)
    ensures sent[0].messages[0].content == AnalystPrompt && sent[0].messages[1].content == text
    // Whatever comes back as Ok satisfies the schema.
    ensures r.Ok? ==> Validate(r.value)
    // A failing first call, or content that is not JSON, ends it with no repair.
    ensures DecodeReply(replies(0), parse).Err? ==>
      |sent| == 1 && r == DecodeReply(replies(0), parse)
    ensures DecodeReply(replies(0), parse).Err? && replies(0).Ok? ==> r.Err? && r.error.AI?
    // A valid first answer is returned unchanged after one call.
    ensures DecodeReply(replies(0), parse).Ok? && Validate(DecodeReply(replies(0), parse).value) ==>
      |sent| == 1 && r == DecodeReply(replies(0), parse)
    // An invalid first answer triggers exactly one repair call, and its outcome is final.
    ensures DecodeReply(replies(0), parse).Ok? && !Validate(DecodeReply(replies(0), parse).value) ==>
      var first := DecodeReply(replies(0), parse).value;
      var second := DecodeReply(replies(1), parse);
      && |sent| == 2
      && sent[1] == ExtractionRequest(RepairPrompt(text, render(first)), Some(RepairSpecialistPrompt))
      && (second.Err? ==> r == second)
      && (second.Ok? && Validate(second.value) ==> r == second)
      && (second.Ok? && !Validate(second.value) ==> r == Err(AI(RepairFailedMessage)))
  {
    var calls := 0;
    sent := [ExtractionRequest(text, None)];
    var first := DecodeReply(replies(calls), parse);
    calls := calls + 1;
    if first.Err? {
      return first, sent;
    }
    var response := first.value;

    if !Validate(response) {
      var repair := ExtractionRequest(RepairPrompt(text, render(response)), Some(RepairSpecialistPrompt));
      sent := sent + [repair];
      var second := DecodeReply(replies(calls), parse);
      calls := calls + 1;
      if second.Err? {
        return second, sent;
      }
      response := second.value;
    }

    if !Validate(response) {
      return Err(AI(RepairFailedMessage)), sent;
    }
    r := Ok(response);
  }
}
