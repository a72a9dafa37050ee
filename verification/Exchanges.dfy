/** What validation contributes to the HTTP pipeline: no exchange goes unrecorded. */
module Exchanges {
  import opened Common
  import opened RuleTypes
  import opened Validate
  import opened NormalRules
  import opened HttpWorld
  import Pipeline

  /** An accepted HTTP rule never faults with a gRPC status. */
  lemma AcceptedFaults(rule: Rule, opts: Options)
    requires Normal(rule, opts) && rule.protocol == Http
    ensures Pipeline.FaultsAllowed(rule)
  {
  }

  /**
   * With rules that validation accepted, every exchange that is not answered
   * 413 makes exactly one metrics record and at most one log entry, and what
   * they say is exactly what was done.
   */
  method HandleAccepted(w: World, opts: Options) returns (a: Pipeline.Attempt, rethrown: bool)
    requires w.Plausible() && w.protocol == Http
    requires forall rule <- w.rules :: Normal(rule, opts)
    ensures |a.requests| == (if a.answered413 then 0 else 1) && |a.entries| <= |a.requests| && !a.grpcFault
    ensures a.answered413 <==> TooLarge(w) && Needed(w) && !BrokenOff(w)
    ensures if BrokenOff(w) then Pipeline.AbortRecorded(a, w)
            else !a.answered413 ==> Pipeline.Recorded(a, w) && Pipeline.Sent(a, w)
  {
    if w.evaluation.interceptRule.Some? {
      AcceptedFaults(w.evaluation.interceptRule.value, opts);
    }
    Pipeline.NoGrpcFault(w);
    a, rethrown := Pipeline.HandleHttpExchange(w);
  }
}
