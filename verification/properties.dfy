/** Properties of the decision table that relate several calls. */
module Properties {
  import opened Decisions
  import opened Engine

  /** A probability exactly at the threshold is healthy, whatever the amount. */
  lemma ThresholdIsHealthy(threshold: real, amount: real)
    ensures Decide(threshold, amount, threshold) == HealthyDecision(threshold)
    ensures Execute(Decide(threshold, amount, threshold)) == [MonitoringActive]
  {
  }

  /** Lowering the probability never withdraws a required action. */
  lemma LowerProbabilityKeepsAction(p1: real, p2: real, amount: real, threshold: real)
    requires p1 <= p2
    requires Decide(p2, amount, threshold).actionRequired
    ensures Decide(p1, amount, threshold).actionRequired
    ensures Decide(p1, amount, threshold).actionType == Decide(p2, amount, threshold).actionType
  {
  }

  /** Raising the amount of an at-risk deal never turns a discount into an escalation. */
  lemma HigherAmountKeepsDiscount(p: real, a1: real, a2: real, threshold: real)
    requires a1 <= a2
    requires Decide(p, a1, threshold).actionType == AutonomousDiscountTrigger
    ensures Decide(p, a2, threshold).actionType == AutonomousDiscountTrigger
  {
  }

  /** The four worked scenarios of the default agent. */
  lemma DefaultAgentScenarios()
    ensures Decide(0.75, 80000.0, NewAgent().threshold).actionType == NoAction
    ensures Decide(0.45, 80000.0, NewAgent().threshold).actionType == AutonomousDiscountTrigger
    ensures Decide(0.45, 20000.0, NewAgent().threshold).actionType == ManagerAlertTask
    ensures !Decide(0.60, 100000.0, NewAgent().threshold).actionRequired
  {
  }
}
