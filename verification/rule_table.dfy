/** The agent's decision table written as data: an ordered list of rules,
    each a condition on the probability and the amount together with the
    action it selects; the first rule whose condition holds decides. This
    is a second, independent statement of the if/else chain in `Engine.Decide`. */
module RuleTable {
  import opened Wrappers
  import opened Decisions
  import Engine

  /** A condition a rule tests. */
  datatype Condition =
    | Always
    | ProbabilityBelowThreshold
    | AmountAbove(cutoff: real)
    | Both(left: Condition, right: Condition)

  predicate Holds(c: Condition, p: real, amount: real, threshold: real)
  {
    match c
    case Always => true
    case ProbabilityBelowThreshold => p < threshold
    case AmountAbove(cutoff) => amount > cutoff
    case Both(l, r) => Holds(l, p, amount, threshold) && Holds(r, p, amount, threshold)
  }

  datatype Rule = Rule(condition: Condition, action: ActionType)

  /** The position of the first rule whose condition holds, if any. */
  function FirstMatch(rules: seq<Rule>, p: real, amount: real, threshold: real): (r: Option<nat>)
    ensures r.Some? ==>
              && r.value < |rules|
              && Holds(rules[r.value].condition, p, amount, threshold)
              && forall j :: 0 <= j < r.value ==> !Holds(rules[j].condition, p, amount, threshold)
    ensures r.None? ==> forall j :: 0 <= j < |rules| ==> !Holds(rules[j].condition, p, amount, threshold)
  {
    if |rules| == 0 then None
    else if Holds(rules[0].condition, p, amount, threshold) then Some(0)
    else
      match FirstMatch(rules[1..], p, amount, threshold)
      case None => None
      case Some(i) => Some(i + 1)
  }

  /** The justification that goes with an action. */
  function JustificationFor(a: ActionType, p: real): (j: Justification)
    ensures Decision(p, a != NoAction, a, j).WellFormed()
  {
    match a
    case NoAction => HealthOptimal
    case AutonomousDiscountTrigger => HighValueDiscount(p)
    case ManagerAlertTask => ManagerEscalation
  }

  /** The decision a rule list reaches, or none when no rule applies. */
  function Evaluate(rules: seq<Rule>, p: real, amount: real, threshold: real): (r: Option<Decision>)
    ensures r.Some? ==> r.value.WellFormed() && r.value.probability == p
    ensures r.Some? ==>
              exists i :: 0 <= i < |rules|
                && Holds(rules[i].condition, p, amount, threshold)
                && (forall j :: 0 <= j < i ==> !Holds(rules[j].condition, p, amount, threshold))
                && r.value.actionType == rules[i].action
    ensures r.None? <==> forall j :: 0 <= j < |rules| ==> !Holds(rules[j].condition, p, amount, threshold)
  {
    match FirstMatch(rules, p, amount, threshold)
    case None => None
    case Some(i) =>
      var a := rules[i].action;
      Some(Decision(p, a != NoAction, a, JustificationFor(a, p)))
  }

  /** The agent's table: high-value at-risk deals get the discount, other
      at-risk deals go to the manager, everything else needs nothing. */
  const AgentTable: seq<Rule> := [
    Rule(Both(ProbabilityBelowThreshold, AmountAbove(Engine.HighValueCutoff)), AutonomousDiscountTrigger),
    Rule(ProbabilityBelowThreshold, ManagerAlertTask),
    Rule(Always, NoAction)
  ]

  /** A table whose last rule always holds decides every input. */
  lemma CatchAllMakesTotal(rules: seq<Rule>, p: real, amount: real, threshold: real)
    requires |rules| > 0 && rules[|rules| - 1].condition == Always
    ensures Evaluate(rules, p, amount, threshold).Some?
  {
  }

  /** The if/else chain and the rule table agree on every input. */
  lemma {:induction false} DecideAgreesWithTable(p: real, amount: real, threshold: real)
    ensures Evaluate(AgentTable, p, amount, threshold) == Some(Engine.Decide(p, amount, threshold))
  {
    var t := AgentTable;
    var m := FirstMatch(t, p, amount, threshold);
    if p < threshold && amount > Engine.HighValueCutoff {
      assert Holds(AmountAbove(Engine.HighValueCutoff), p, amount, threshold);
      assert Holds(t[0].condition, p, amount, threshold);
      assert m == Some(0);
    } else if p < threshold {
      assert !Holds(t[0].condition, p, amount, threshold);
      assert Holds(t[1].condition, p, amount, threshold);
      assert m == Some(1);
    } else {
      assert !Holds(t[0].condition, p, amount, threshold);
      assert !Holds(t[1].condition, p, amount, threshold);
      assert Holds(t[2].condition, p, amount, threshold);
      assert m == Some(2);
    }
  }
}
