/** What a proxied attempt leaves behind: one metrics record and perhaps a traffic log entry. */
module Outcomes {
  import opened Common
  import opened RuleTypes
  import opened Evaluate

  datatype Outcome =
    | CapturedOnly | Mocked | Faulted | Modified | Delayed | UpstreamFailed | RuleFailed | ClientAborted

  datatype Reason = CaptureRule | MatchedRuleReason | UpstreamErrorReason | RuleErrorReason | ClientAbortedReason

  datatype Label = Passthrough | Labelled(outcome: Outcome)

  datatype LogRecord = LogRecord(outcome: Outcome, reason: Reason)

  datatype Flags =
    Flags(mock: bool, fault: bool, modified: bool, delayed: bool, upstreamError: bool, clientAborted: bool)

  const NO_FLAGS := Flags(false, false, false, false, false, false)

  function DecideOutcome(flags: Flags, hasRuleErrors: bool): Outcome {
    if flags.clientAborted then ClientAborted
    else if flags.upstreamError then UpstreamFailed
    else if flags.mock then Mocked
    else if flags.fault then Faulted
    else if flags.modified then Modified
    else if flags.delayed then Delayed
    else if hasRuleErrors then RuleFailed
    else CapturedOnly
  }

  function DecideReason(outcome: Outcome, ruleErrors: nat, evaluation: RequestEvaluation): Reason {
    if outcome == ClientAborted then ClientAbortedReason
    else if outcome == UpstreamFailed && evaluation.matched == [] then UpstreamErrorReason
    else if evaluation.interceptRule.Some? then MatchedRuleReason
    else if ruleErrors > 0 && evaluation.captureRules == [] then RuleErrorReason
    else CaptureRule
  }

  predicate ShouldLog(flags: Flags, ruleErrors: nat, evaluation: RequestEvaluation) {
    evaluation.interceptRule.Some? || evaluation.captureRules != [] || ruleErrors > 0 || flags.upstreamError
  }

  /** The metrics label of a request whose body never became usable. */
  function AbortLabel(evaluation: RequestEvaluation): Label {
    if ShouldLog(NO_FLAGS, |evaluation.errors|, evaluation) then Labelled(ClientAborted) else Passthrough
  }

  function EntryOf(flags: Flags, ruleErrors: nat, evaluation: RequestEvaluation): LogRecord {
    var outcome := DecideOutcome(flags, ruleErrors > 0);
    LogRecord(outcome, DecideReason(outcome, ruleErrors, evaluation))
  }

  /** One metrics record, and an entry iff something engaged. */
  predicate Booked(
    requests: seq<Label>, entries: seq<LogRecord>, flags: Flags, ruleErrors: nat, evaluation: RequestEvaluation)
  {
    && requests == [if entries == [] then Passthrough else Labelled(entries[0].outcome)]
    && entries == (if ShouldLog(flags, ruleErrors, evaluation) then [EntryOf(flags, ruleErrors, evaluation)] else [])
  }

  /** The flags but for the one that says that the client is gone. */
  function Deed(flags: Flags): Flags {
    flags.(clientAborted := false)
  }

  // ---- what the intercept rule asks for

  predicate HasRequestAction(evaluation: RequestEvaluation, action: RequestAction) {
    evaluation.interceptRule.Some? &&
    var rule := evaluation.interceptRule.value;
    rule.request.Some? && rule.request.value.action == Some(action)
  }

  predicate HasResponseAction(evaluation: RequestEvaluation, action: ResponseAction) {
    evaluation.interceptRule.Some? &&
    var rule := evaluation.interceptRule.value;
    rule.response.Some? && rule.response.value.action == Some(action)
  }

  ghost predicate RuleFaults(evaluation: RequestEvaluation) {
    || (exists fault :: HasRequestAction(evaluation, RequestFault(fault)))
    || (exists fault :: HasResponseAction(evaluation, ResponseFault(fault)))
  }

  predicate RuleDelays(evaluation: RequestEvaluation) {
    evaluation.interceptRule.Some? &&
    var rule := evaluation.interceptRule.value;
    (rule.request.Some? && rule.request.value.delay.Some?) || (rule.response.Some? && rule.response.value.delay.Some?)
  }
}
