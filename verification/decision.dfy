/** The decision record produced by the agent's reasoning step and the
    messages emitted when that record is acted upon. */
module Decisions {
  import opened Wrappers

  /** The three values the record's `action_type` field can hold. */
  datatype ActionType = NoAction | AutonomousDiscountTrigger | ManagerAlertTask
  {
    /** The exact text stored in the record for this action type. */
    function Name(): string
    {
      match this
      case NoAction => "NONE"
      case AutonomousDiscountTrigger => "AUTONOMOUS_DISCOUNT_TRIGGER"
      case ManagerAlertTask => "MANAGER_ALERT_TASK"
    }
  }

  /** Reads an action type back from its stored text; any other text is not an action type. */
  function ParseActionType(s: string): (r: Option<ActionType>)
    ensures r.Some? ==> r.value.Name() == s
    ensures forall a: ActionType :: a.Name() == s ==> r == Some(a)
  {
    if s == "NONE" then Some(NoAction)
    else if s == "AUTONOMOUS_DISCOUNT_TRIGGER" then Some(AutonomousDiscountTrigger)
    else if s == "MANAGER_ALERT_TASK" then Some(ManagerAlertTask)
    else None
  }

  /** The justification text of a record, as a tag.
      `Unset` is the empty text the record starts with; `HighValueDiscount`
      carries the probability its text quotes; the two others are fixed texts. */
  datatype Justification =
    | Unset
    | HealthOptimal
    | HighValueDiscount(probability: real)
    | ManagerEscalation

  /** One decision log, without its wall-clock timestamp. */
  datatype Decision = Decision(
    probability: real,
    actionRequired: bool,
    actionType: ActionType,
    justification: Justification)
  {
    /** The shape every record leaving the reasoning step has: no action
        exactly when none is required, and the justification that belongs
        to the chosen action. */
    ghost predicate WellFormed()
    {
      && (actionType == NoAction <==> !actionRequired)
      && (actionType == NoAction ==> justification == HealthOptimal)
      && (actionType == AutonomousDiscountTrigger ==> justification == HighValueDiscount(probability))
      && (actionType == ManagerAlertTask ==> justification == ManagerEscalation)
    }
  }

  /** One line the action step emits. */
  datatype Message =
    | ActionExecuted(action: string)   // "[Action Executed] <action_type>"
    | Justified(text: Justification)   // "[Justification] <justification>"
    | MonitoringActive                 // "[Status] Monitoring active. No intervention needed."
}
