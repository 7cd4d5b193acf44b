/**
 * The compliance rule engine of backend/app/mock_data.py: the five-rule
 * catalog, the reduction of its results to a compliance verdict, and the
 * construction of the ticket store from raw records.
 */
module MockData {
  import opened Wrappers
  import opened Models

  /**
   * A raw ticket record. The fields the rules read through `.get` are
   * optional: `None` stands both for a missing key and for an explicit None.
   */
  datatype RawTicket = RawTicket(
    id: string,
    number: string,
    shortDescription: Option<string>,
    description: Option<string>,
    requestedBy: Option<string>,
    assignedTo: Option<string>,
    priority: string,
    status: string,
    createdAt: string,
    scheduledStartDate: Option<string>,
    scheduledEndDate: Option<string>,
    approvalChain: Option<seq<string>>,
    testingEvidence: Option<string>,
    rollbackPlan: Option<string>,
    changeWindow: Option<string>)

  const RequiredFieldsRule: string := "Required Fields"
  const ApprovalChainRule: string := "Approval Chain"
  const TestingEvidenceRule: string := "Testing Evidence"
  const ChangeWindowRule: string := "Change Window"
  const RollbackPlanRule: string := "Rollback Plan"

  /** The rule catalog, in evaluation order, and the severity of each rule. */
  const CatalogRules: seq<string> :=
    [RequiredFieldsRule, ApprovalChainRule, TestingEvidenceRule, ChangeWindowRule, RollbackPlanRule]
  const CatalogSeverities: seq<Severity> :=
    [ErrorLevel, ErrorLevel, WarningLevel, WarningLevel, ErrorLevel]

  /** Messages and suggestions reported by the rules. */
  const RequiredFieldsPassMessage: string := "All mandatory fields are filled"
  const RequiredFieldsFailMessage: string := "Missing required fields"
  const RequiredFieldsSuggestion: string := "Fill in all mandatory fields: description, requestedBy, assignedTo, scheduled dates"
  const ApprovalChainPassMessage: string := "Approval chain is configured"
  const ApprovalChainFailMessage: string := "No approvers assigned"
  const ApprovalChainSuggestion: string := "Add at least one approver to the approval chain"
  const TestingEvidencePassMessage: string := "Testing evidence attached"
  const TestingEvidenceFailMessage: string := "No testing evidence found"
  const TestingEvidenceSuggestion: string := "Attach test results, screenshots, or documentation proving the change was tested"
  const ChangeWindowPassMessage: string := "Change window specified"
  const ChangeWindowFailMessage: string := "No change window defined"
  const ChangeWindowSuggestion: string := "Specify an approved change window (e.g., 'Saturday 2:00 AM - 6:00 AM EST')"
  const RollbackPlanPassMessage: string := "Rollback plan documented"
  const RollbackPlanFailMessage: string := "No rollback plan provided"
  const RollbackPlanSuggestion: string := "Document a step-by-step rollback procedure in case the change fails"

  // ---------------------------------------------------------------------
  // Pass conditions of the five rules
  // ---------------------------------------------------------------------

  predicate RequiredFieldsFilled(raw: RawTicket)
  {
    && Truthy(raw.shortDescription)
    && Truthy(raw.description)
    && Truthy(raw.requestedBy)
    && Truthy(raw.assignedTo)
    && Truthy(raw.scheduledStartDate)
    && Truthy(raw.scheduledEndDate)
  }

  predicate HasApprovers(raw: RawTicket)
  {
    raw.approvalChain.Some? && |raw.approvalChain.value| > 0
  }

  predicate HasTestingEvidence(raw: RawTicket) { Truthy(raw.testingEvidence) }

  predicate HasChangeWindow(raw: RawTicket) { Truthy(raw.changeWindow) }

  predicate HasRollbackPlan(raw: RawTicket) { Truthy(raw.rollbackPlan) }

  // ---------------------------------------------------------------------
  // The rules
  // ---------------------------------------------------------------------

  /** A rule's result: the suggestion is left empty exactly when the rule passes. */
  function RuleResult(rule: string, severity: Severity, passed: bool,
                      passMessage: string, failMessage: string, failSuggestion: string): (r: ValidationResult)
    requires failSuggestion != ""
    ensures r.rule == rule && r.severity == severity && r.passed == passed
    ensures r.suggestion == "" <==> passed
  {
    ValidationResult(rule, passed, severity,
      if passed then passMessage else failMessage,
      if passed then "" else failSuggestion)
  }

  function CheckRequiredFields(raw: RawTicket): (r: ValidationResult)
    ensures r.rule == RequiredFieldsRule && r.severity == ErrorLevel && r.passed == RequiredFieldsFilled(raw)
    ensures r.suggestion == "" <==> r.passed
  {
    RuleResult(RequiredFieldsRule, ErrorLevel, RequiredFieldsFilled(raw),
      RequiredFieldsPassMessage, RequiredFieldsFailMessage,
      RequiredFieldsSuggestion)
  }

  function CheckApprovalChain(raw: RawTicket): (r: ValidationResult)
    ensures r.rule == ApprovalChainRule && r.severity == ErrorLevel && r.passed == HasApprovers(raw)
    ensures r.suggestion == "" <==> r.passed
  {
    RuleResult(ApprovalChainRule, ErrorLevel, HasApprovers(raw),
      ApprovalChainPassMessage, ApprovalChainFailMessage,
      ApprovalChainSuggestion)
  }

  function CheckTestingEvidence(raw: RawTicket): (r: ValidationResult)
    ensures r.rule == TestingEvidenceRule && r.severity == WarningLevel && r.passed == HasTestingEvidence(raw)
    ensures r.suggestion == "" <==> r.passed
  {
    RuleResult(TestingEvidenceRule, WarningLevel, HasTestingEvidence(raw),
      TestingEvidencePassMessage, TestingEvidenceFailMessage,
      TestingEvidenceSuggestion)
  }

  function CheckChangeWindow(raw: RawTicket): (r: ValidationResult)
    ensures r.rule == ChangeWindowRule && r.severity == WarningLevel && r.passed == HasChangeWindow(raw)
    ensures r.suggestion == "" <==> r.passed
  {
    RuleResult(ChangeWindowRule, WarningLevel, HasChangeWindow(raw),
      ChangeWindowPassMessage, ChangeWindowFailMessage,
      ChangeWindowSuggestion)
  }

  function CheckRollbackPlan(raw: RawTicket): (r: ValidationResult)
    ensures r.rule == RollbackPlanRule && r.severity == ErrorLevel && r.passed == HasRollbackPlan(raw)
    ensures r.suggestion == "" <==> r.passed
  {
    RuleResult(RollbackPlanRule, ErrorLevel, HasRollbackPlan(raw),
      RollbackPlanPassMessage, RollbackPlanFailMessage,
      RollbackPlanSuggestion)
  }

  /**
   * The full catalog evaluated against one raw ticket: every rule reports,
   * in catalog order, whatever the others found.
   */
  function Evaluate(raw: RawTicket): (rs: seq<ValidationResult>)
    ensures |rs| == |CatalogRules| == 5
    ensures forall i :: 0 <= i < |rs| ==> rs[i].rule == CatalogRules[i] && rs[i].severity == CatalogSeverities[i]
    ensures forall i :: 0 <= i < |rs| ==> (rs[i].suggestion == "" <==> rs[i].passed)
    ensures rs[0].passed == RequiredFieldsFilled(raw)
    ensures rs[1].passed == HasApprovers(raw)
    ensures rs[2].passed == HasTestingEvidence(raw)
    ensures rs[3].passed == HasChangeWindow(raw)
    ensures rs[4].passed == HasRollbackPlan(raw)
  {
    var rs := [CheckRequiredFields(raw), CheckApprovalChain(raw), CheckTestingEvidence(raw),
               CheckChangeWindow(raw), CheckRollbackPlan(raw)];
    rs
  }

  // ---------------------------------------------------------------------
  // Compliance verdict
  // ---------------------------------------------------------------------

  /** Number of results that failed. */
  function FailedCount(rs: seq<ValidationResult>): nat
  {
    if rs == [] then 0 else (if rs[0].passed then 0 else 1) + FailedCount(rs[1..])
  }

  /** Number of results that failed with severity error. */
  function ErrorCount(rs: seq<ValidationResult>): nat
  {
    if rs == [] then 0
    else (if !rs[0].passed && rs[0].severity == ErrorLevel then 1 else 0) + ErrorCount(rs[1..])
  }

  /** Number of results with severity warning, passed or not. */
  function WarningRuleCount(rs: seq<ValidationResult>): nat
  {
    if rs == [] then 0 else (if rs[0].severity == WarningLevel then 1 else 0) + WarningRuleCount(rs[1..])
  }

  lemma {:induction false} FailedCountZero(rs: seq<ValidationResult>)
    ensures FailedCount(rs) == 0 <==> forall i :: 0 <= i < |rs| ==> rs[i].passed
  {
    if rs != [] {
      FailedCountZero(rs[1..]);
      assert forall i :: 1 <= i < |rs| ==> rs[i] == rs[1..][i - 1];
    }
  }

  lemma {:induction false} ErrorCountPositive(rs: seq<ValidationResult>)
    ensures ErrorCount(rs) > 0 <==> exists i :: 0 <= i < |rs| && !rs[i].passed && rs[i].severity == ErrorLevel
  {
    if rs != [] {
      ErrorCountPositive(rs[1..]);
      if exists i :: 1 <= i < |rs| && !rs[i].passed && rs[i].severity == ErrorLevel {
        var i :| 1 <= i < |rs| && !rs[i].passed && rs[i].severity == ErrorLevel;
        assert rs[1..][i - 1] == rs[i];
      }
      if exists i :: 0 <= i < |rs[1..]| && !rs[1..][i].passed && rs[1..][i].severity == ErrorLevel {
        var i :| 0 <= i < |rs[1..]| && !rs[1..][i].passed && rs[1..][i].severity == ErrorLevel;
        assert rs[i + 1] == rs[1..][i];
      }
    }
  }

  /** Every failure is either an error-severity failure or a warning-severity rule. */
  lemma {:induction false} FailedCountBound(rs: seq<ValidationResult>)
    ensures FailedCount(rs) <= ErrorCount(rs) + WarningRuleCount(rs)
  {
    if rs != [] {
      FailedCountBound(rs[1..]);
    }
  }

  /**
   * The compliance reduction: compliant when nothing failed, non-compliant
   * when an error-severity rule failed or at least three rules failed,
   * warning otherwise.
   */
  function Verdict(rs: seq<ValidationResult>): (c: Compliance)
    ensures c == Compliant <==> forall i :: 0 <= i < |rs| ==> rs[i].passed
    ensures c == NonCompliant <==>
      (FailedCount(rs) >= 3 || exists i :: 0 <= i < |rs| && !rs[i].passed && rs[i].severity == ErrorLevel)
  {
    FailedCountZero(rs);
    ErrorCountPositive(rs);
    if FailedCount(rs) == 0 then Compliant
    else if ErrorCount(rs) > 0 || FailedCount(rs) >= 3 then NonCompliant
    else Warning
  }

  /**
   * The catalog holds only two warning-severity rules, so three failures
   * always include an error-severity one: the "at least three failures"
   * branch of the verdict never decides anything on its own.
   */
  lemma ThreeFailuresIncludeAnError(raw: RawTicket)
    ensures FailedCount(Evaluate(raw)) >= 3 ==> ErrorCount(Evaluate(raw)) > 0
  {
    var rs := Evaluate(raw);
    FailedCountBound(rs);
    assert WarningRuleCount(rs[4..]) == 0;
    assert WarningRuleCount(rs[3..]) == 1;
    assert WarningRuleCount(rs[2..]) == 2;
    assert WarningRuleCount(rs[1..]) == 2;
  }

  /** The verdict of the catalog, in terms of the ticket's fields only. */
  lemma CatalogVerdict(raw: RawTicket)
    ensures Verdict(Evaluate(raw)) == NonCompliant <==>
      !RequiredFieldsFilled(raw) || !HasApprovers(raw) || !HasRollbackPlan(raw)
    ensures Verdict(Evaluate(raw)) == Warning <==>
      RequiredFieldsFilled(raw) && HasApprovers(raw) && HasRollbackPlan(raw)
      && (!HasTestingEvidence(raw) || !HasChangeWindow(raw))
    ensures Verdict(Evaluate(raw)) == Compliant <==>
      RequiredFieldsFilled(raw) && HasApprovers(raw) && HasRollbackPlan(raw)
      && HasTestingEvidence(raw) && HasChangeWindow(raw)
  {
    var rs := Evaluate(raw);
    ThreeFailuresIncludeAnError(raw);
    ErrorCountPositive(rs);
    var errorFailed := !RequiredFieldsFilled(raw) || !HasApprovers(raw) || !HasRollbackPlan(raw);
    if errorFailed {
      if !RequiredFieldsFilled(raw) { assert !rs[0].passed && rs[0].severity == ErrorLevel; }
      else if !HasApprovers(raw) { assert !rs[1].passed && rs[1].severity == ErrorLevel; }
      else { assert !rs[4].passed && rs[4].severity == ErrorLevel; }
    } else {
      assert forall i :: 0 <= i < |rs| && rs[i].severity == ErrorLevel ==> i == 0 || i == 1 || i == 4;
    }
  }

  /** The imperative form of the rule engine: the results are appended rule by rule. */
  method ValidateTicket(raw: RawTicket) returns (complianceStatus: Compliance, results: seq<ValidationResult>)
    ensures results == Evaluate(raw)
    ensures complianceStatus == Verdict(results)
  {
    results := [];
    results := results + [CheckRequiredFields(raw)];
    results := results + [CheckApprovalChain(raw)];
    results := results + [CheckTestingEvidence(raw)];
    results := results + [CheckChangeWindow(raw)];
    results := results + [CheckRollbackPlan(raw)];

    var failedCount := FailedCount(results);
    var errorCount := ErrorCount(results);
    if failedCount == 0 {
      complianceStatus := Compliant;
    } else if errorCount > 0 || failedCount >= 3 {
      complianceStatus := NonCompliant;
    } else {
      complianceStatus := Warning;
    }
  }

  // ---------------------------------------------------------------------
  // Building the ticket store
  // ---------------------------------------------------------------------

  /** Whether record validation accepts the raw ticket: required strings present, literals valid. */
  predicate Constructible(raw: RawTicket)
  {
    && raw.shortDescription.Some?
    && raw.description.Some?
    && raw.requestedBy.Some?
    && raw.assignedTo.Some?
    && raw.scheduledStartDate.Some?
    && raw.scheduledEndDate.Some?
    && ParsePriority(raw.priority).Some?
    && ParseStatus(raw.status).Some?
  }

  /** The ticket record built from a raw ticket and its evaluation; fails when validation rejects the raw fields. */
  function FromRaw(raw: RawTicket, complianceStatus: Compliance, results: seq<ValidationResult>): (r: Result<ChangeTicket, string>)
    ensures r.Success? <==> Constructible(raw)
    ensures r.Success? ==>
      && r.value.id == raw.id && r.value.number == raw.number
      && Some(r.value.shortDescription) == raw.shortDescription
      && Some(r.value.description) == raw.description
      && Some(r.value.requestedBy) == raw.requestedBy
      && Some(r.value.assignedTo) == raw.assignedTo
      && PriorityName(r.value.priority) == raw.priority
      && StatusName(r.value.status) == raw.status
      && r.value.createdAt == raw.createdAt
      && Some(r.value.scheduledStartDate) == raw.scheduledStartDate
      && Some(r.value.scheduledEndDate) == raw.scheduledEndDate
      && r.value.approvalChain == raw.approvalChain
      && r.value.testingEvidence == raw.testingEvidence
      && r.value.rollbackPlan == raw.rollbackPlan
      && r.value.changeWindow == raw.changeWindow
      && r.value.complianceStatus == complianceStatus
      && r.value.validationResults == results
  {
    if !Constructible(raw) then Failure("validation error for ChangeTicket")
    else
      Success(ChangeTicket(
        raw.id, raw.number,
        raw.shortDescription.value, raw.description.value,
        raw.requestedBy.value, raw.assignedTo.value,
        ParsePriority(raw.priority).value, ParseStatus(raw.status).value,
        raw.createdAt, raw.scheduledStartDate.value, raw.scheduledEndDate.value,
        raw.approvalChain, raw.testingEvidence, raw.rollbackPlan, raw.changeWindow,
        complianceStatus, results))
  }

  /** `t` is the ticket the store holds for `raw`: its fields plus its evaluation. */
  predicate BuiltFrom(raw: RawTicket, t: ChangeTicket)
  {
    FromRaw(raw, Verdict(Evaluate(raw)), Evaluate(raw)) == Success(t)
  }

  /** A served ticket whose derived fields are the evaluation of its own catalog results. */
  predicate WellFormed(t: ChangeTicket)
  {
    && |t.validationResults| == |CatalogRules|
    && (forall i :: 0 <= i < |t.validationResults| ==>
          t.validationResults[i].rule == CatalogRules[i]
          && t.validationResults[i].severity == CatalogSeverities[i])
    && t.complianceStatus == Verdict(t.validationResults)
  }

  lemma BuiltIsWellFormed(raw: RawTicket, t: ChangeTicket)
    requires BuiltFrom(raw, t)
    ensures WellFormed(t)
    ensures t.validationResults == Evaluate(raw)
    ensures t.complianceStatus == Verdict(Evaluate(raw))
  {
  }

  /**
   * The store: one ticket per raw record, in the same order, each carrying
   * its own evaluation. The first record that validation rejects aborts the
   * whole construction.
   */
  method GetMockTickets(raws: seq<RawTicket>) returns (r: Result<seq<ChangeTicket>, string>)
    ensures r.Success? <==> forall i :: 0 <= i < |raws| ==> Constructible(raws[i])
    ensures r.Success? ==> |r.value| == |raws|
    ensures r.Success? ==> forall i :: 0 <= i < |raws| ==> BuiltFrom(raws[i], r.value[i])
  {
    var tickets: seq<ChangeTicket> := [];
    var i := 0;
    while i < |raws|
      invariant 0 <= i <= |raws|
      invariant |tickets| == i
      invariant forall j :: 0 <= j < i ==> Constructible(raws[j]) && BuiltFrom(raws[j], tickets[j])
    {
      var complianceStatus, validationResults := ValidateTicket(raws[i]);
      var ticket := FromRaw(raws[i], complianceStatus, validationResults);
      if ticket.Failure? {
        return Failure(ticket.error);
      }
      tickets := tickets + [ticket.value];
      i := i + 1;
    }
    return Success(tickets);
  }

  // ---------------------------------------------------------------------
  // Test vectors: entries of the raw ticket list
  // ---------------------------------------------------------------------

  /** CHG0012345 (id 1): every artifact present. */
  const RawSchemaMigration: RawTicket := RawTicket(
    "1", "CHG0012345",
    Some("Database schema migration for user service"),
    Some("Migrate user database schema to support new authentication fields. This includes adding columns for MFA settings, session tokens, and audit logging."),
    Some("Sarah Chen"), Some("Mike Johnson"), "High", "Pending Approval",
    "2025-01-28T09:00:00Z", Some("2025-02-01T02:00:00Z"), Some("2025-02-01T06:00:00Z"),
    Some(["David Kim", "Lisa Wang"]),
    Some("Unit tests passed, integration tests completed in staging environment. See attached test report."),
    Some("1. Stop application servers\n2. Restore database from pre-migration backup\n3. Restart application servers\n4. Verify user authentication works"),
    Some("Saturday 2:00 AM - 6:00 AM EST"))

  /** CHG0012346 (id 2): no testing evidence. */
  const RawGatewayUpgrade: RawTicket := RawTicket(
    "2", "CHG0012346",
    Some("API gateway version upgrade"),
    Some("Upgrade API gateway from v2.3 to v3.0 to support new rate limiting features and improved logging."),
    Some("Alex Rivera"), Some("Jennifer Lee"), "Critical", "Pending Approval",
    "2025-01-27T14:30:00Z", Some("2025-02-02T03:00:00Z"), Some("2025-02-02T05:00:00Z"),
    Some(["David Kim"]),
    None,
    Some("Revert to previous gateway version using blue-green deployment switch"),
    Some("Sunday 3:00 AM - 5:00 AM EST"))

  /** CHG0012348 (id 4): no approval chain and no rollback plan. */
  const RawCacheExpansion: RawTicket := RawTicket(
    "4", "CHG0012348",
    Some("Redis cache cluster expansion"),
    Some("Add two additional Redis nodes to the production cache cluster to handle increased traffic from the holiday promotion."),
    Some("Tom Bradley"), Some("Emily Zhang"), "Medium", "Pending Approval",
    "2025-01-26T11:00:00Z", Some("2025-02-03T04:00:00Z"), Some("2025-02-03T06:00:00Z"),
    None,
    Some("Load tested with 2x expected traffic. Performance metrics attached."),
    None,
    Some("Monday 4:00 AM - 6:00 AM EST"))

  /** CHG0012349 (id 5): no change window. */
  const RawCertificateRenewal: RawTicket := RawTicket(
    "5", "CHG0012349",
    Some("SSL certificate renewal"),
    Some("Renew and deploy SSL certificates for *.example.com before expiration on Feb 15."),
    Some("Jennifer Lee"), Some("Alex Rivera"), "High", "Pending Approval",
    "2025-01-25T16:00:00Z", Some("2025-02-05T01:00:00Z"), Some("2025-02-05T02:00:00Z"),
    Some(["David Kim"]),
    Some("Certificate validated in staging. Browser compatibility verified."),
    Some("Keep old certificates as backup. Switch back if issues detected."),
    None)

  /** CHG0012352 (id 8): none of the four artifacts. */
  const RawFirewallUpdate: RawTicket := RawTicket(
    "8", "CHG0012352",
    Some("Network firewall rule update"),
    Some("Update firewall rules to allow traffic from new partner integration IP ranges."),
    Some("Partnership Team"), Some("Jennifer Lee"), "High", "Pending Approval",
    "2025-01-28T13:00:00Z", Some("2025-02-01T14:00:00Z"), Some("2025-02-01T15:00:00Z"),
    None, None, None, None)

  lemma SchemaMigrationIsCompliant()
    ensures Verdict(Evaluate(RawSchemaMigration)) == Compliant
  {
    assert RequiredFieldsFilled(RawSchemaMigration) && HasApprovers(RawSchemaMigration);
    assert HasRollbackPlan(RawSchemaMigration) && HasTestingEvidence(RawSchemaMigration);
    assert HasChangeWindow(RawSchemaMigration);
    CatalogVerdict(RawSchemaMigration);
  }

  lemma MissingTestingEvidenceIsWarning()
    ensures Verdict(Evaluate(RawGatewayUpgrade)) == Warning
    ensures FailedCount(Evaluate(RawGatewayUpgrade)) == 1
  {
    CatalogVerdict(RawGatewayUpgrade);
  }

  lemma MissingChangeWindowIsWarning()
    ensures Verdict(Evaluate(RawCertificateRenewal)) == Warning
  {
    CatalogVerdict(RawCertificateRenewal);
  }

  /**
   * CHG0012348 fails exactly Approval Chain and Rollback Plan, both of
   * severity error, each with a suggestion, and is therefore non-compliant.
   */
  lemma CacheExpansionIsNonCompliant()
    ensures var rs := Evaluate(RawCacheExpansion);
      && rs[0].passed && !rs[1].passed && rs[2].passed && rs[3].passed && !rs[4].passed
      && rs[1].suggestion != "" && rs[4].suggestion != ""
      && FailedCount(rs) == 2
      && Verdict(rs) == NonCompliant
  {
    CatalogVerdict(RawCacheExpansion);
  }

  /** CHG0012352 fails four rules and is non-compliant. */
  lemma FirewallUpdateIsNonCompliant()
    ensures FailedCount(Evaluate(RawFirewallUpdate)) == 4
    ensures Verdict(Evaluate(RawFirewallUpdate)) == NonCompliant
  {
    CatalogVerdict(RawFirewallUpdate);
  }
}
