/** The AI usage contract stated twice: as a Python validator that raises, and as the CHECK
    constraints of a table, evaluated in SQL's three-valued logic. */
module UsageAccounting {
  import opened Results
  import opened ThreeValuedLogic

  datatype Usage = Usage(
    contractVersion: string,
    digests: seq<string>,
    adapterId: string,
    authorizedModelId: string,
    providerId: string,
    modelId: string,
    pricingMode: string,
    usageStatus: string,
    billingStatus: string,
    inputTokens: Option<int>,
    cachedInputTokens: Option<int>,
    cacheWriteTokens: Option<int>,
    outputTokens: Option<int>,
    reasoningTokens: Option<int>,
    totalTokens: Option<int>,
    pricingVersion: Option<string>,
    estimatedCost: Option<int>)

  const MEASURED := "measured"
  const UNAVAILABLE := "unavailable"
  const NOT_APPLICABLE := "not_applicable"
  const PRICED := "priced"
  const UNKNOWN := "unknown"
  const LOCAL := "local"

  // ---------------------------------------------------------------- the Python validator

  /** `str.strip` */
  type Strip = string -> string

  predicate Trimmed(strip: Strip, s: string) { s != "" && s == strip(s) }

  predicate IsHexDigest(strip: Strip, s: string) {
    Trimmed(strip, s) && |s| == 64 && forall i | 0 <= i < |s| :: '0' <= s[i] <= '9' || 'a' <= s[i] <= 'f'
  }

  predicate AllMissing(u: Usage) {
    u.inputTokens.None? && u.cachedInputTokens.None? && u.cacheWriteTokens.None?
    && u.outputTokens.None? && u.reasoningTokens.None? && u.totalTokens.None?
  }

  predicate AllPresent(u: Usage) {
    u.inputTokens.Some? && u.cachedInputTokens.Some? && u.cacheWriteTokens.Some?
    && u.outputTokens.Some? && u.reasoningTokens.Some? && u.totalTokens.Some?
  }

  /** The constructor of a measurement; its counters are all present. */
  function MeasurementError(u: Usage): string
    requires AllPresent(u)
  {
    if u.inputTokens.value < 0 then "input_tokens"
    else if u.cachedInputTokens.value < 0 then "cached_input_tokens"
    else if u.cacheWriteTokens.value < 0 then "cache_write_tokens"
    else if u.outputTokens.value < 0 then "output_tokens"
    else if u.reasoningTokens.value < 0 then "reasoning_tokens"
    else if u.totalTokens.value < 0 then "total_tokens"
    else if u.cachedInputTokens.value + u.cacheWriteTokens.value > u.inputTokens.value then "cached_exceeds_input"
    else if u.reasoningTokens.value > u.outputTokens.value then "reasoning_exceeds_output"
    else if u.totalTokens.value != u.inputTokens.value + u.outputTokens.value then "total_mismatch"
    else ""
  }

  function TextError(strip: Strip, u: Usage): string {
    if u.contractVersion != "1" then "contract_version"
    else if exists d | d in u.digests :: !IsHexDigest(strip, d) then "digest"
    else if !Trimmed(strip, u.adapterId) || !Trimmed(strip, u.authorizedModelId) || !Trimmed(strip, u.providerId)
            || !Trimmed(strip, u.modelId) || !Trimmed(strip, u.pricingMode)
    then "trimmed"
    else if u.usageStatus != MEASURED && u.usageStatus != UNAVAILABLE &&
        u.usageStatus != NOT_APPLICABLE then "usage_status"
    else if u.billingStatus != PRICED && u.billingStatus != UNKNOWN &&
        u.billingStatus != NOT_APPLICABLE then "billing_status"
    else ""
  }

  function TokenError(u: Usage): string {
    if u.usageStatus == MEASURED then
      if !AllPresent(u) then "counter_missing" else MeasurementError(u)
    else if !AllMissing(u) then "counter_present"
    else ""
  }

  function BillingError(strip: Strip, u: Usage): string {
    if u.billingStatus == PRICED then
      if u.usageStatus != MEASURED then "priced_unmeasured"
      else if u.pricingVersion.None? || u.estimatedCost.None? then "pricing_missing"
      else if !Trimmed(strip, u.pricingVersion.value) then "pricing_version"
      else if u.estimatedCost.value < 0 then "estimated_cost"
      else ""
    else if u.billingStatus == NOT_APPLICABLE then
      if u.usageStatus != NOT_APPLICABLE then "billing_mismatch"
      else if u.pricingVersion.Some? || u.estimatedCost.Some? then "pricing_present"
      else ""
    else
      if u.usageStatus == NOT_APPLICABLE then "usage_mismatch"
      else if u.estimatedCost.Some? then "cost_present"
      else if u.pricingVersion.Some? && !Trimmed(strip, u.pricingVersion.value) then "pricing_version"
      else ""
  }

  function LocalError(u: Usage): string {
    if u.providerId == LOCAL
       && (u.usageStatus != NOT_APPLICABLE || u.billingStatus != NOT_APPLICABLE || u.pricingMode != NOT_APPLICABLE)
    then "local_billable" else ""
  }

  /** The constructor: the first check that fails, or the empty string. */
  function ObservationError(strip: Strip, u: Usage): string {
    if TextError(strip, u) != "" then TextError(strip, u)
    else if TokenError(u) != "" then TokenError(u)
    else if BillingError(strip, u) != "" then BillingError(strip, u)
    else LocalError(u)
  }

  // ---------------------------------------------------------------- the CHECK constraints

  function VersionCheck(u: Usage): Truth { Is(u.contractVersion, "1") }

  function DigestCheck(u: Usage): Truth { Known(forall d | d in u.digests :: |d| == 64) }

  function UsageStatusCheck(u: Usage): Truth {
    Or(Is(u.usageStatus, MEASURED), Or(Is(u.usageStatus, UNAVAILABLE), Is(u.usageStatus, NOT_APPLICABLE)))
  }

  function BillingStatusCheck(u: Usage): Truth {
    Or(Is(u.billingStatus, PRICED), Or(Is(u.billingStatus, UNKNOWN), Is(u.billingStatus, NOT_APPLICABLE)))
  }

  function NotNegative(n: Option<int>): Truth { Or(IsNull(n), Leq(Some(0), n)) }

  function NonNegativeCheck(u: Usage): Truth {
    And(NotNegative(u.inputTokens), And(NotNegative(u.cachedInputTokens), And(NotNegative(u.cacheWriteTokens),
    And(NotNegative(u.outputTokens), And(NotNegative(u.reasoningTokens), And(NotNegative(u.totalTokens),
    NotNegative(u.estimatedCost)))))))
  }

  function ShapeCheck(u: Usage): Truth {
    Or(And(Is(u.usageStatus, MEASURED),
           And(IsNotNull(u.inputTokens), And(IsNotNull(u.cachedInputTokens), And(IsNotNull(u.cacheWriteTokens),
           And(IsNotNull(u.outputTokens), And(IsNotNull(u.reasoningTokens), IsNotNull(u.totalTokens))))))),
       And(Or(Is(u.usageStatus, UNAVAILABLE), Is(u.usageStatus, NOT_APPLICABLE)),
           And(IsNull(u.inputTokens), And(IsNull(u.cachedInputTokens), And(IsNull(u.cacheWriteTokens),
           And(IsNull(u.outputTokens), And(IsNull(u.reasoningTokens), IsNull(u.totalTokens))))))))
  }

  function TokenCheck(u: Usage): Truth {
    Or(Known(u.usageStatus != MEASURED),
       And(Leq(Plus(u.cachedInputTokens, u.cacheWriteTokens), u.inputTokens),
           And(Leq(u.reasoningTokens, u.outputTokens),
               Equal(u.totalTokens, Plus(u.inputTokens, u.outputTokens)))))
  }

  function BillingCheck(u: Usage): Truth {
    Or(And(Is(u.billingStatus, PRICED),
        And(Is(u.usageStatus, MEASURED), And(IsNotNull(u.pricingVersion), IsNotNull(u.estimatedCost)))),
    Or(And(Is(u.billingStatus, UNKNOWN),
        And(Or(Is(u.usageStatus, MEASURED), Is(u.usageStatus, UNAVAILABLE)), IsNull(u.estimatedCost))),
       And(Is(u.billingStatus, NOT_APPLICABLE), And(Is(u.usageStatus, NOT_APPLICABLE),
           And(IsNull(u.pricingVersion), IsNull(u.estimatedCost))))))
  }

  function LocalCheck(u: Usage): Truth {
    Or(Known(u.providerId != LOCAL),
       And(Is(u.usageStatus, NOT_APPLICABLE),
           And(Is(u.billingStatus, NOT_APPLICABLE), Is(u.pricingMode, NOT_APPLICABLE))))
  }

  predicate TableAdmits(u: Usage) {
    && Admits(VersionCheck(u)) && Admits(DigestCheck(u))
    && Admits(UsageStatusCheck(u)) && Admits(BillingStatusCheck(u))
    && Admits(NonNegativeCheck(u)) && Admits(ShapeCheck(u)) && Admits(TokenCheck(u))
    && Admits(BillingCheck(u)) && Admits(LocalCheck(u))
  }

  // ---------------------------------------------------------------- agreement

  /** What the validator asks of the text columns beyond the table. */
  predicate TextFormats(strip: Strip, u: Usage) {
    && (forall d | d in u.digests :: IsHexDigest(strip, d))
    && Trimmed(strip, u.adapterId) && Trimmed(strip, u.authorizedModelId) && Trimmed(strip, u.providerId)
    && Trimmed(strip, u.modelId) && Trimmed(strip, u.pricingMode)
    && (u.pricingVersion.Some? ==> Trimmed(strip, u.pricingVersion.value))
  }

  lemma {:induction false} StatusesDiffer()
    ensures MEASURED != UNAVAILABLE && MEASURED != NOT_APPLICABLE && UNAVAILABLE != NOT_APPLICABLE
    ensures PRICED != UNKNOWN && PRICED != NOT_APPLICABLE && UNKNOWN != NOT_APPLICABLE
  {
    assert |MEASURED| == 8 && |UNAVAILABLE| == 11 && |NOT_APPLICABLE| == 14 && |PRICED| == 6 && |UNKNOWN| == 7;
  }

  lemma {:induction false} TextAgrees(strip: Strip, u: Usage)
    ensures TextError(strip, u) == "" && (u.pricingVersion.Some? ==> Trimmed(strip, u.pricingVersion.value)) <==>
      TextFormats(strip, u) && Admits(VersionCheck(u)) && Admits(DigestCheck(u))
      && Admits(UsageStatusCheck(u)) && Admits(BillingStatusCheck(u))
  {}

  /** The token rules, for every status, integer and NULL. */
  lemma {:induction false} TokensAgree(u: Usage)
    requires Admits(UsageStatusCheck(u))
    ensures TokenError(u) == "" && (u.estimatedCost.Some? ==> u.estimatedCost.value >= 0) <==>
      Admits(NonNegativeCheck(u)) && Admits(ShapeCheck(u)) && Admits(TokenCheck(u))
  {
    StatusesDiffer();
  }

  lemma {:induction false} BillingAgrees(strip: Strip, u: Usage)
    requires Admits(UsageStatusCheck(u)) && Admits(BillingStatusCheck(u))
    ensures BillingError(strip, u) == "" <==>
      Admits(BillingCheck(u)) && (u.estimatedCost.Some? ==> u.estimatedCost.value >= 0)
      && (u.pricingVersion.Some? ==> Trimmed(strip, u.pricingVersion.value))
  {
    StatusesDiffer();
  }

  /** The validator accepts exactly the rows the table admits whose text columns have the
      validator's formats; over statuses, counters, cost and NULLs the two contracts agree. */
  lemma {:induction false} ValidatorMatchesTable(strip: Strip, u: Usage)
    ensures ObservationError(strip, u) == "" <==> TableAdmits(u) && TextFormats(strip, u)
  {
    hide TextError, TokenError, BillingError, NonNegativeCheck, ShapeCheck, TokenCheck, BillingCheck, VersionCheck,
        DigestCheck,
         UsageStatusCheck, BillingStatusCheck, Trimmed;
    TextAgrees(strip, u);
    if Admits(UsageStatusCheck(u)) && Admits(BillingStatusCheck(u)) {
      TokensAgree(u);
      BillingAgrees(strip, u);
    }
    CostImplied(strip, u);
  }

  /** An accepted billing shape has no negative cost and no untrimmed pricing version. */
  lemma {:induction false} CostImplied(strip: Strip, u: Usage)
    ensures BillingError(strip, u) == "" ==>
      (u.estimatedCost.Some? ==> u.estimatedCost.value >= 0) &&
          (u.pricingVersion.Some? ==> Trimmed(strip, u.pricingVersion.value))
  {
    hide Trimmed;
  }

  /** One CHECK may not decide: with a NULL counter and no comparison of the others false, the
      token CHECK is unknown and admits the row, which the shape CHECK then rejects. */
  lemma {:induction false} UnknownCheckIsCaught(u: Usage)
    requires u.usageStatus == MEASURED && !AllPresent(u)
    requires !(u.cachedInputTokens.Some? && u.cacheWriteTokens.Some? && u.inputTokens.Some?
               && u.cachedInputTokens.value + u.cacheWriteTokens.value > u.inputTokens.value)
    requires !(u.reasoningTokens.Some? && u.outputTokens.Some? && u.reasoningTokens.value > u.outputTokens.value)
    requires !(u.totalTokens.Some? && u.inputTokens.Some? && u.outputTokens.Some?
               && u.totalTokens.value != u.inputTokens.value + u.outputTokens.value)
    ensures TokenCheck(u) == Unknown && Admits(TokenCheck(u)) && ShapeCheck(u) == False && !TableAdmits(u)
  {
    StatusesDiffer();
  }

  // ---------------------------------------------------------------- accepted rows

  ghost predicate Clean(strip: Strip, s: string) { s != "" && strip(s) == s }

  ghost predicate CleanTexts(strip: Strip, u: Usage) {
    && Clean(strip, u.adapterId) && Clean(strip, u.authorizedModelId) && Clean(strip, u.providerId)
    && Clean(strip, u.modelId) && Clean(strip, u.pricingMode)
    && (u.pricingVersion.Some? ==> Clean(strip, u.pricingVersion.value))
    && (forall d | d in u.digests ::
          Clean(strip, d) && |d| == 64 && forall c | c in d :: '0' <= c <= '9' || 'a' <= c <= 'f')
  }

  ghost predicate NoCounters(u: Usage) {
    && u.inputTokens == None && u.cachedInputTokens == None && u.cacheWriteTokens == None
    && u.outputTokens == None && u.reasoningTokens == None && u.totalTokens == None
  }

  ghost predicate CountersAre(u: Usage, input: int, cached: int, written: int, output: int, reasoning: int) {
    && u.inputTokens == Some(input) && u.cachedInputTokens == Some(cached) && u.cacheWriteTokens == Some(written)
    && u.outputTokens == Some(output) && u.reasoningTokens == Some(reasoning) && u.totalTokens == Some(input + output)
    && cached >= 0 && written >= 0 && cached + written <= input && 0 <= reasoning <= output
  }

  /** What an accepted row says, status by status. */
  ghost predicate Accountable(u: Usage) {
    || (&& u.usageStatus == "measured" && u.providerId != "local"
        && (exists input, cached, written, output, reasoning ::
              CountersAre(u, input, cached, written, output, reasoning))
        && (|| (u.billingStatus == "priced" && u.pricingVersion.Some? && u.estimatedCost.GetOr(-1) >= 0)
            || (u.billingStatus == "unknown" && u.estimatedCost == None)))
    || (&& u.usageStatus == "unavailable" && u.providerId != "local" && NoCounters(u)
        && u.billingStatus == "unknown" && u.estimatedCost == None)
    || (&& u.usageStatus == "not_applicable" && NoCounters(u)
        && u.billingStatus == "not_applicable" && u.pricingVersion == None && u.estimatedCost == None
        && (u.providerId == "local" ==> u.pricingMode == "not_applicable"))
  }

  lemma {:induction false} TextsAccepted(strip: Strip, u: Usage)
    ensures TextError(strip, u) == "" && (u.pricingVersion.Some? ==> Clean(strip, u.pricingVersion.value)) <==>
      && u.contractVersion == "1" && CleanTexts(strip, u)
      && u.usageStatus in {"measured", "unavailable", "not_applicable"}
      && u.billingStatus in {"priced", "unknown", "not_applicable"}
  {
    hide IsHexDigest;
    forall d | d in u.digests { HexDigestSpelled(strip, d); }
    StatusesDiffer();
  }

  lemma {:induction false} HexDigestSpelled(strip: Strip, d: string)
    ensures IsHexDigest(strip, d) <==>
      Clean(strip, d) && |d| == 64 && forall c | c in d :: '0' <= c <= '9' || 'a' <= c <= 'f'
  {
    if IsHexDigest(strip, d) {
      forall c | c in d ensures '0' <= c <= '9' || 'a' <= c <= 'f' { var i :| 0 <= i < |d| && d[i] == c; }
    }
    assert forall i | 0 <= i < |d| :: d[i] in d;
  }

  lemma {:induction false} CountersAccepted(u: Usage)
    ensures AllPresent(u) && MeasurementError(u) == "" <==>
      exists input, cached, written, output, reasoning :: CountersAre(u, input, cached, written, output, reasoning)
  {
    if AllPresent(u) && MeasurementError(u) == "" {
      assert CountersAre(u, u.inputTokens.value, u.cachedInputTokens.value, u.cacheWriteTokens.value,
                         u.outputTokens.value, u.reasoningTokens.value);
    }
  }

  lemma {:induction false} StatusesAccepted(strip: Strip, u: Usage)
    requires u.usageStatus in {"measured", "unavailable", "not_applicable"}
    requires u.billingStatus in {"priced", "unknown", "not_applicable"}
    requires u.pricingVersion.Some? ==> Clean(strip, u.pricingVersion.value)
    ensures TokenError(u) == "" && BillingError(strip, u) == "" && LocalError(u) == "" <==> Accountable(u)
  {
    hide MeasurementError, CountersAre;
    CountersAccepted(u);
    StatusesDiffer();
  }

  /** Both contracts accept exactly these rows. */
  lemma {:induction false} AcceptedRows(strip: Strip, u: Usage)
    ensures ObservationError(strip, u) == "" <==> u.contractVersion == "1" && CleanTexts(strip, u) && Accountable(u)
    ensures TableAdmits(u) && TextFormats(strip, u) <==>
      u.contractVersion == "1" && CleanTexts(strip, u) && Accountable(u)
  {
    hide TextError, TokenError, BillingError, LocalError, CleanTexts, TableAdmits, TextFormats, CountersAre, NoCounters;
    ValidatorMatchesTable(strip, u);
    TextsAccepted(strip, u);
    BillingTexts(strip, u);
    if u.usageStatus in {"measured", "unavailable", "not_applicable"} &&
       u.billingStatus in {"priced", "unknown", "not_applicable"} &&
       (u.pricingVersion.Some? ==> Clean(strip, u.pricingVersion.value))
    {
      StatusesAccepted(strip, u);
    }
  }

  lemma {:induction false} BillingTexts(strip: Strip, u: Usage)
    ensures BillingError(strip, u) == "" && u.pricingVersion.Some? ==> Clean(strip, u.pricingVersion.value)
    ensures CleanTexts(strip, u) && u.pricingVersion.Some? ==> Clean(strip, u.pricingVersion.value)
  {
    CostImplied(strip, u);
  }
}
