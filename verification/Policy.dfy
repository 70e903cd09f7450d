// The policy pipeline (daemon/internal/policy/policy.go): a pure function of the configuration,
// the cumulative spend and one intent. Every figure is an int64 of micro-USDC.
module Policy {
  import opened Wrappers
  import opened Intents

  const MAX_INT64: int := 0x7fff_ffff_ffff_ffff
  const MAX_INTENT: int := 100_000_000_000_000

  datatype Outcome = Deny | AutoApprove | HumanApprovalRequired

  datatype Config = Config(
    jobBudget: int,
    perTxLimit: int,
    dailyCap: int,
    approvalAbove: int,
    allowlist: seq<string>,
    categories: map<string, string>,
    blocked: seq<string>)

  datatype Spend = Spend(jobCommitted: int, daily: int)

  datatype Code =
    | UnmodelledKind
    | InvalidAmount
    | InvalidSpendState
    | JobBudgetNotConfigured
    | JobBudgetExceeded
    | PerTxNotConfigured
    | PerTxLimitExceeded
    | DailyCapNotConfigured
    | DailyCapExceeded
    | MerchantNotAllowlisted
    | CategoryBlocked
    | ApprovalNotConfigured
    | AboveApprovalThreshold

  datatype Decision = Decision(outcome: Outcome, reason: Option<Code>)

  function Refuse(code: Code): Decision {
    Decision(Deny, Some(code))
  }

  // Headroom is compared by subtraction, so a figure near the top of the range denies.
  function Evaluate(cfg: Config, spend: Spend, i: Intent): Decision {
    if i.kind != "" && i.kind != PAYMENT then Refuse(UnmodelledKind)
    else if i.amountMicros <= 0 || i.amountMicros > MAX_INTENT then Refuse(InvalidAmount)
    else if spend.jobCommitted < 0 || spend.daily < 0 then Refuse(InvalidSpendState)
    else if cfg.jobBudget <= 0 then Refuse(JobBudgetNotConfigured)
    else if i.amountMicros > cfg.jobBudget - spend.jobCommitted then Refuse(JobBudgetExceeded)
    else if cfg.perTxLimit <= 0 then Refuse(PerTxNotConfigured)
    else if i.amountMicros > cfg.perTxLimit then Refuse(PerTxLimitExceeded)
    else if cfg.dailyCap <= 0 then Refuse(DailyCapNotConfigured)
    else if i.amountMicros > cfg.dailyCap - spend.daily then Refuse(DailyCapExceeded)
    else if i.merchant !in cfg.allowlist then Refuse(MerchantNotAllowlisted)
    else if i.merchant in cfg.categories && cfg.categories[i.merchant] in cfg.blocked then Refuse(CategoryBlocked)
    else if cfg.approvalAbove <= 0 then Decision(HumanApprovalRequired, Some(ApprovalNotConfigured))
    else if i.amountMicros > cfg.approvalAbove then Decision(HumanApprovalRequired, Some(AboveApprovalThreshold))
    else Decision(AutoApprove, None)
  }

  // The reason given is the rule the intent breaks, or what sends it to its owner.
  predicate Explains(code: Code, cfg: Config, spend: Spend, i: Intent) {
    match code
    case UnmodelledKind => i.kind != "" && i.kind != PAYMENT
    case InvalidAmount => i.amountMicros <= 0 || i.amountMicros > MAX_INTENT
    case InvalidSpendState => spend.jobCommitted < 0 || spend.daily < 0
    case JobBudgetNotConfigured => cfg.jobBudget <= 0
    case JobBudgetExceeded => cfg.jobBudget > 0 && spend.jobCommitted + i.amountMicros > cfg.jobBudget
    case PerTxNotConfigured => cfg.perTxLimit <= 0
    case PerTxLimitExceeded => cfg.perTxLimit > 0 && i.amountMicros > cfg.perTxLimit
    case DailyCapNotConfigured => cfg.dailyCap <= 0
    case DailyCapExceeded => cfg.dailyCap > 0 && spend.daily + i.amountMicros > cfg.dailyCap
    case MerchantNotAllowlisted => forall k :: 0 <= k < |cfg.allowlist| ==> cfg.allowlist[k] != i.merchant
    case CategoryBlocked => i.merchant in cfg.categories && cfg.categories[i.merchant] in cfg.blocked
    case ApprovalNotConfigured => cfg.approvalAbove <= 0
    case AboveApprovalThreshold => cfg.approvalAbove > 0 && i.amountMicros > cfg.approvalAbove
  }

  lemma ReasonsExplain(cfg: Config, spend: Spend, i: Intent)
    ensures var d := Evaluate(cfg, spend, i);
            && (d.reason.Some? ==> Explains(d.reason.value, cfg, spend, i))
            && (d.outcome == HumanApprovalRequired <==>
                  d.reason == Some(ApprovalNotConfigured) || d.reason == Some(AboveApprovalThreshold))
  {
  }

  // The whole policy, rule by rule: an intent is let through exactly when it is a payment of a
  // bounded positive amount that fits every configured limit, at a listed merchant outside every
  // blocked category; and without an owner exactly when it is also within a configured threshold.
  lemma VerdictExact(cfg: Config, spend: Spend, i: Intent)
    ensures var d := Evaluate(cfg, spend, i);
            && (d.outcome != Deny <==>
                && (i.kind == "" || i.kind == PAYMENT) && 0 < i.amountMicros <= MAX_INTENT
                && 0 <= spend.jobCommitted && 0 <= spend.daily
                && cfg.jobBudget > 0 && cfg.perTxLimit > 0 && cfg.dailyCap > 0
                && spend.jobCommitted + i.amountMicros <= cfg.jobBudget
                && i.amountMicros <= cfg.perTxLimit
                && spend.daily + i.amountMicros <= cfg.dailyCap
                && (exists k :: 0 <= k < |cfg.allowlist| && cfg.allowlist[k] == i.merchant)
                && !(i.merchant in cfg.categories && cfg.categories[i.merchant] in cfg.blocked))
            && (d.outcome == AutoApprove <==>
                d.outcome != Deny && cfg.approvalAbove > 0 && i.amountMicros <= cfg.approvalAbove)
            && (d.reason.None? <==> d.outcome == AutoApprove)
  {
  }
}
