/**
 * The deterministic parts of the chat router (backend/app/routers/chat.py):
 * the per-ticket summary the assistant is grounded on, the conversion of
 * chat messages to the model's message format, the extraction of the reply
 * text from the model's response, and the environment lookups that choose
 * region, profile and model. The model call itself is a parameter: its
 * response arrives as a value.
 */
module Chat {
  import opened Wrappers
  import opened Models
  import opened MockData

  // ---------------------------------------------------------------------
  // Ticket context
  // ---------------------------------------------------------------------

  /** What the assistant is told about one ticket. */
  datatype TicketSummary = TicketSummary(
    id: string,
    number: string,
    shortDescription: string,
    assignedTo: string,
    requestedBy: string,
    priority: Priority,
    status: Status,
    complianceStatus: Compliance,
    scheduledStartDate: string,
    failedValidations: seq<string>,
    hasApprovalChain: bool,
    hasTestingEvidence: bool,
    hasRollbackPlan: bool,
    hasChangeWindow: bool)

  /** The names of the rules that did not pass, in result order. */
  function FailedRules(rs: seq<ValidationResult>): (names: seq<string>)
    ensures |names| == FailedCount(rs)
    ensures forall i :: 0 <= i < |rs| && !rs[i].passed ==> rs[i].rule in names
    ensures forall n :: n in names ==> exists i :: 0 <= i < |rs| && !rs[i].passed && rs[i].rule == n
  {
    if rs == [] then []
    else
      var tail := FailedRules(rs[1..]);
      assert forall i :: 1 <= i < |rs| ==> rs[i] == rs[1..][i - 1];
      assert forall n :: n in tail ==> exists i :: 1 <= i < |rs| && !rs[i].passed && rs[i].rule == n by {
        forall n | n in tail ensures exists i :: 1 <= i < |rs| && !rs[i].passed && rs[i].rule == n {
          var j :| 0 <= j < |rs[1..]| && !rs[1..][j].passed && rs[1..][j].rule == n;
          assert rs[j + 1] == rs[1..][j];
        }
      }
      (if rs[0].passed then [] else [rs[0].rule]) + tail
  }

  /** Failed-rule lists keep the order of the results: they distribute over concatenation. */
  lemma {:induction false} FailedRulesAppend(a: seq<ValidationResult>, b: seq<ValidationResult>)
    ensures FailedRules(a + b) == FailedRules(a) + FailedRules(b)
  {
    if a == [] {
      assert a + b == b;
    } else {
      assert (a + b)[0] == a[0] && (a + b)[1..] == a[1..] + b;
      FailedRulesAppend(a[1..], b);
    }
  }

  /** The summary of one ticket: identifying fields, the failed rules and four presence flags. */
  function Summarize(t: ChangeTicket): (s: TicketSummary)
    ensures s.id == t.id && s.number == t.number
    ensures s.shortDescription == t.shortDescription
    ensures s.assignedTo == t.assignedTo && s.requestedBy == t.requestedBy
    ensures s.priority == t.priority && s.status == t.status && s.complianceStatus == t.complianceStatus
    ensures s.scheduledStartDate == t.scheduledStartDate
    ensures s.failedValidations == FailedRules(t.validationResults)
    ensures s.hasApprovalChain <==> t.approvalChain.Some? && |t.approvalChain.value| > 0
    ensures s.hasTestingEvidence <==> t.testingEvidence.Some?
    ensures s.hasRollbackPlan <==> t.rollbackPlan.Some?
    ensures s.hasChangeWindow <==> t.changeWindow.Some?
  {
    TicketSummary(
      t.id, t.number, t.shortDescription, t.assignedTo, t.requestedBy,
      t.priority, t.status, t.complianceStatus, t.scheduledStartDate,
      FailedRules(t.validationResults),
      t.approvalChain.Some? && |t.approvalChain.value| > 0,
      t.testingEvidence.Some?,
      t.rollbackPlan.Some?,
      t.changeWindow.Some?)
  }

  /** The context: one summary per ticket of the store, in store order. */
  method GetTicketsContext(store: seq<ChangeTicket>) returns (summaries: seq<TicketSummary>)
    ensures |summaries| == |store|
    ensures forall i :: 0 <= i < |store| ==> summaries[i] == Summarize(store[i])
  {
    summaries := [];
    var i := 0;
    while i < |store|
      invariant 0 <= i <= |store|
      invariant |summaries| == i
      invariant forall j :: 0 <= j < i ==> summaries[j] == Summarize(store[j])
    {
      summaries := summaries + [Summarize(store[i])];
      i := i + 1;
    }
  }

  /** The five rule names of the catalog are distinct. */
  lemma CatalogRulesDistinct()
    ensures forall i, j :: 0 <= i < j < |CatalogRules| ==> CatalogRules[i] != CatalogRules[j]
  {
  }

  /**
   * For a ticket of the store, a catalog rule is listed as failed exactly
   * when its own result did not pass, and the failed list has one entry per
   * failure.
   */
  lemma FailedValidationsOfStoredTicket(raw: RawTicket, t: ChangeTicket, i: int)
    requires BuiltFrom(raw, t) && 0 <= i < |CatalogRules|
    ensures CatalogRules[i] in Summarize(t).failedValidations <==> !Evaluate(raw)[i].passed
    ensures |Summarize(t).failedValidations| == FailedCount(Evaluate(raw))
  {
    BuiltIsWellFormed(raw, t);
    var rs := Evaluate(raw);
    CatalogRulesDistinct();
    if CatalogRules[i] in FailedRules(rs) {
      var j :| 0 <= j < |rs| && !rs[j].passed && rs[j].rule == CatalogRules[i];
      assert j == i;
    }
  }

  /** The approval flag says the same as the Approval Chain rule. */
  lemma ApprovalFlagAgreesWithRule(raw: RawTicket, t: ChangeTicket)
    requires BuiltFrom(raw, t)
    ensures Summarize(t).hasApprovalChain <==> ApprovalChainRule !in Summarize(t).failedValidations
  {
    FailedValidationsOfStoredTicket(raw, t, 1);
  }

  /**
   * The other three flags only ask whether the field is present: they differ
   * from their rule's outcome exactly when the field is present but empty.
   */
  lemma PresenceFlagsVersusRules(raw: RawTicket, t: ChangeTicket)
    requires BuiltFrom(raw, t)
    ensures Summarize(t).hasTestingEvidence <==>
      TestingEvidenceRule !in Summarize(t).failedValidations || raw.testingEvidence == Some("")
    ensures Summarize(t).hasChangeWindow <==>
      ChangeWindowRule !in Summarize(t).failedValidations || raw.changeWindow == Some("")
    ensures Summarize(t).hasRollbackPlan <==>
      RollbackPlanRule !in Summarize(t).failedValidations || raw.rollbackPlan == Some("")
  {
    FailedValidationsOfStoredTicket(raw, t, 2);
    FailedValidationsOfStoredTicket(raw, t, 3);
    FailedValidationsOfStoredTicket(raw, t, 4);
  }

  /**
   * An empty rollback plan: the summary reports a rollback plan while the
   * rule fails and the ticket is non-compliant.
   */
  lemma EmptyRollbackPlanIsReportedPresent(raw: RawTicket, t: ChangeTicket)
    requires BuiltFrom(raw, t) && raw.rollbackPlan == Some("")
    ensures Summarize(t).hasRollbackPlan
    ensures RollbackPlanRule in Summarize(t).failedValidations
    ensures t.complianceStatus == NonCompliant
  {
    FailedValidationsOfStoredTicket(raw, t, 4);
    CatalogVerdict(raw);
    BuiltIsWellFormed(raw, t);
  }

  // ---------------------------------------------------------------------
  // Message conversion
  // ---------------------------------------------------------------------

  /** A chat message as the client sends it. */
  datatype ChatMessage = ChatMessage(role: string, content: string)

  /** A content block of the model's message format; `text` is absent for non-text blocks. */
  datatype ContentBlock = ContentBlock(text: Option<string>)

  /** A message in the model's format: a role and a list of content blocks. */
  datatype ModelMessage = ModelMessage(role: string, content: seq<ContentBlock>)

  /** Each chat message becomes a model message with one text block holding its content. */
  function ConvertMessages(msgs: seq<ChatMessage>): (r: seq<ModelMessage>)
    ensures |r| == |msgs|
    ensures forall i :: 0 <= i < |r| ==> r[i].role == msgs[i].role && |r[i].content| == 1
    ensures forall i :: 0 <= i < |r| ==> r[i].content == [ContentBlock(Some(msgs[i].content))]
  {
    seq(|msgs|, i requires 0 <= i < |msgs| => ModelMessage(msgs[i].role, [ContentBlock(Some(msgs[i].content))]))
  }

  // ---------------------------------------------------------------------
  // Reply extraction
  // ---------------------------------------------------------------------

  const FallbackReply: string := "I couldn't generate a response. Please try again."

  /** What one block adds to the reply: its text, or nothing when it has none. */
  function BlockText(b: ContentBlock): string
  {
    if b.text.Some? then b.text.value else ""
  }

  /** The texts of the blocks, concatenated in order. */
  function ConcatTexts(blocks: seq<ContentBlock>): string
  {
    if blocks == [] then ""
    else ConcatTexts(blocks[..|blocks| - 1]) + BlockText(blocks[|blocks| - 1])
  }

  lemma {:induction false} ConcatTextsAppend(a: seq<ContentBlock>, b: seq<ContentBlock>)
    ensures ConcatTexts(a + b) == ConcatTexts(a) + ConcatTexts(b)
    decreases |b|
  {
    if b == [] {
      assert a + b == a;
    } else {
      var b' := b[..|b| - 1];
      assert (a + b)[..|a + b| - 1] == a + b';
      assert ConcatTexts(a + b) == ConcatTexts(a + b') + BlockText(b[|b| - 1]);
      ConcatTextsAppend(a, b');
    }
  }

  /** The reply is empty exactly when no block has a non-empty text. */
  lemma {:induction false} ConcatTextsEmpty(blocks: seq<ContentBlock>)
    ensures ConcatTexts(blocks) == "" <==> forall i :: 0 <= i < |blocks| ==> BlockText(blocks[i]) == ""
  {
    if blocks != [] {
      var init := blocks[..|blocks| - 1];
      ConcatTextsEmpty(init);
      assert forall i :: 0 <= i < |init| ==> init[i] == blocks[i];
    }
  }

  lemma ConcatTextsSingle(b: ContentBlock)
    ensures ConcatTexts([b]) == BlockText(b)
  {
    assert [b][..0] == [];
  }

  /** A block without text contributes nothing, wherever it stands. */
  lemma TextlessBlockSkipped(a: seq<ContentBlock>, b: seq<ContentBlock>)
    ensures ConcatTexts(a + [ContentBlock(None)] + b) == ConcatTexts(a + b)
  {
    var none := [ContentBlock(None)];
    ConcatTextsSingle(ContentBlock(None));
    ConcatTextsAppend(a + none, b);
    ConcatTextsAppend(a, none);
    ConcatTextsAppend(a, b);
    assert ConcatTexts(a + none) == ConcatTexts(a) + "";
    assert ConcatTexts(a) + "" == ConcatTexts(a);
  }

  /** The reply: the concatenated texts, or the fallback sentence when they are empty. */
  function ReplyText(blocks: seq<ContentBlock>): (r: string)
    ensures r != ""
    ensures ConcatTexts(blocks) != "" ==> r == ConcatTexts(blocks)
    ensures ConcatTexts(blocks) == "" ==> r == FallbackReply
  {
    var text := ConcatTexts(blocks);
    if text == "" then FallbackReply else text
  }

  /** Reading the text back from a converted message gives its content. */
  lemma ReplyOfConvertedMessage(msgs: seq<ChatMessage>, i: int)
    requires 0 <= i < |msgs|
    ensures ConcatTexts(ConvertMessages(msgs)[i].content) == msgs[i].content
    ensures msgs[i].content != "" ==> ReplyText(ConvertMessages(msgs)[i].content) == msgs[i].content
  {
    var blocks := ConvertMessages(msgs)[i].content;
    assert blocks == [ContentBlock(Some(msgs[i].content))];
    assert blocks[..0] == [];
  }

  /** Converting and reading the texts back gives the chat messages again. */
  lemma ConvertMessagesRoundTrip(msgs: seq<ChatMessage>)
    ensures forall i :: 0 <= i < |msgs| ==>
      ChatMessage(ConvertMessages(msgs)[i].role, ConcatTexts(ConvertMessages(msgs)[i].content)) == msgs[i]
  {
    forall i | 0 <= i < |msgs|
      ensures ChatMessage(ConvertMessages(msgs)[i].role, ConcatTexts(ConvertMessages(msgs)[i].content)) == msgs[i]
    {
      ReplyOfConvertedMessage(msgs, i);
    }
  }

  /** The parts of the model's response the reply is read from; each level may be missing. */
  datatype ModelResponse = ModelResponse(output: Option<ModelOutput>)
  datatype ModelOutput = ModelOutput(message: Option<ResponseMessage>)
  datatype ResponseMessage = ResponseMessage(content: Option<seq<ContentBlock>>)

  /** Whether every level down to the content list is present. */
  predicate HasContent(resp: ModelResponse)
  {
    resp.output.Some? && resp.output.value.message.Some? && resp.output.value.message.value.content.Some?
  }

  /** The content blocks of a response; a missing level counts as no blocks. */
  function ContentOf(resp: ModelResponse): (blocks: seq<ContentBlock>)
    ensures !HasContent(resp) ==> blocks == []
    ensures HasContent(resp) ==> blocks == resp.output.value.message.value.content.value
  {
    match resp.output
    case None => []
    case Some(output) =>
      match output.message
      case None => []
      case Some(message) =>
        match message.content
        case None => []
        case Some(content) => content
  }

  /** Reads the reply out of a response, block by block. */
  method ExtractReply(resp: ModelResponse) returns (responseText: string)
    ensures responseText == ReplyText(ContentOf(resp))
    ensures responseText != ""
  {
    var content := ContentOf(resp);
    responseText := "";
    var i := 0;
    while i < |content|
      invariant 0 <= i <= |content|
      invariant responseText == ConcatTexts(content[..i])
    {
      var block := content[i];
      if block.text.Some? {
        responseText := responseText + block.text.value;
      }
      assert content[..i + 1][..i] == content[..i];
      i := i + 1;
    }
    assert content[..i] == content;
    if responseText == "" {
      responseText := FallbackReply;
    }
  }

  // ---------------------------------------------------------------------
  // Environment
  // ---------------------------------------------------------------------

  /** The process environment: variable names to values. */
  type Environment = map<string, string>

  const DefaultRegion: string := "us-east-1"
  const DefaultModel: string := "us.amazon.nova-pro-v1:0"

  function Getenv(env: Environment, name: string): (v: Option<string>)
    ensures v.Some? <==> name in env
    ensures v.Some? ==> v.value == env[name]
  {
    if name in env then Some(env[name]) else None
  }

  /** Python's `a or b` on optional strings: `a` when it is non-empty, else `b`. */
  function Or(a: Option<string>, b: Option<string>): Option<string>
  {
    if Truthy(a) then a else b
  }

  /** Reference definition: the first candidate that is present and non-empty. */
  function FirstNonEmpty(candidates: seq<Option<string>>): (r: Option<string>)
    ensures r.Some? <==> exists i :: 0 <= i < |candidates| && Truthy(candidates[i])
    ensures r.Some? ==> exists i :: (0 <= i < |candidates| && Truthy(candidates[i]) && r == candidates[i]
      && forall j :: 0 <= j < i ==> !Truthy(candidates[j]))
  {
    if candidates == [] then None
    else if Truthy(candidates[0]) then candidates[0]
    else
      var r := FirstNonEmpty(candidates[1..]);
      assert forall i :: 1 <= i < |candidates| ==> candidates[i] == candidates[1..][i - 1];
      if r.Some? then
        var i :| 0 <= i < |candidates[1..]| && Truthy(candidates[1..][i]) && r == candidates[1..][i]
          && forall j :: 0 <= j < i ==> !Truthy(candidates[1..][j]);
        assert forall j :: 0 <= j < i + 1 ==> !Truthy(candidates[j]) by {
          forall j | 0 <= j < i + 1 ensures !Truthy(candidates[j]) {
            if j > 0 { assert candidates[j] == candidates[1..][j - 1]; }
          }
        }
        r
      else r
  }

  /** The region: AWS_DEFAULT_REGION or AWS_REGION, whichever is first set and non-empty, else the default. */
  function GetBedrockRegion(env: Environment): (region: string)
    ensures region != ""
    ensures Some(region) == FirstNonEmpty([Getenv(env, "AWS_DEFAULT_REGION"), Getenv(env, "AWS_REGION"), Some(DefaultRegion)])
  {
    var cs := [Getenv(env, "AWS_DEFAULT_REGION"), Getenv(env, "AWS_REGION"), Some(DefaultRegion)];
    assert Truthy(cs[2]);
    Or(Or(Getenv(env, "AWS_DEFAULT_REGION"), Getenv(env, "AWS_REGION")), Some(DefaultRegion)).value
  }

  /**
   * The profile: AWS_PROFILE or BEDROCK_PROFILE. Python's `or` hands back
   * the second operand when the first is empty, so the result may be an
   * empty string; it names a profile exactly when one of the two does.
   */
  function GetBedrockProfile(env: Environment): (profile: Option<string>)
    ensures Truthy(profile) <==> FirstNonEmpty([Getenv(env, "AWS_PROFILE"), Getenv(env, "BEDROCK_PROFILE")]).Some?
    ensures Truthy(profile) ==> profile == FirstNonEmpty([Getenv(env, "AWS_PROFILE"), Getenv(env, "BEDROCK_PROFILE")])
    ensures !Truthy(profile) ==> profile == Getenv(env, "BEDROCK_PROFILE")
  {
    var cs := [Getenv(env, "AWS_PROFILE"), Getenv(env, "BEDROCK_PROFILE")];
    assert cs[0] == Getenv(env, "AWS_PROFILE") && cs[1] == Getenv(env, "BEDROCK_PROFILE");
    Or(Getenv(env, "AWS_PROFILE"), Getenv(env, "BEDROCK_PROFILE"))
  }

  /** The model: BEDROCK_MODEL_ID when it is set, even to the empty string, else the default. */
  function GetBedrockModel(env: Environment): (modelId: string)
    ensures "BEDROCK_MODEL_ID" in env ==> modelId == env["BEDROCK_MODEL_ID"]
    ensures "BEDROCK_MODEL_ID" !in env ==> modelId == DefaultModel
  {
    var v := Getenv(env, "BEDROCK_MODEL_ID");
    if v.Some? then v.value else DefaultModel
  }

  /**
   * An empty variable is skipped by the region chain but kept as the model:
   * the region lookup is first-non-empty, the model lookup first-present.
   */
  lemma EmptyVariableHandling(env: Environment)
    requires env == map["AWS_DEFAULT_REGION" := "", "BEDROCK_MODEL_ID" := ""]
    ensures GetBedrockRegion(env) == DefaultRegion
    ensures GetBedrockModel(env) == ""
  {
    assert "AWS_REGION" !in env;
  }
}
