/** The reasoning and action layer of the CRM agent: a win probability and
    the raw deal record become a decision log, and the decision log becomes
    the lines the agent emits. The timestamp, the console and the neural
    network are outside the model; the preprocessor and the predictor are
    parameters. */
module Engine {
  import opened Wrappers
  import opened Decisions

  /** The agent's default intervention threshold. */
  const DefaultThreshold: real := 0.60

  /** Deals worth more than this (in USD) get the autonomous discount. */
  const HighValueCutoff: real := 50000.0

  /** The column the deal amount is read from. */
  const AmountColumn: string := "Opportunity Amount USD"

  /** The agent's static configuration. */
  datatype Agent = Agent(threshold: real)

  /** A freshly constructed agent uses the default threshold. */
  function NewAgent(): (a: Agent)
    ensures a.threshold == 0.60
  {
    Agent(DefaultThreshold)
  }

  /** One cell of the raw deal record: a number, a missing value (NaN), or text. */
  datatype Cell = Number(value: real) | NaN | Text(text: string)

  /** The single row of the raw deal record, by column name. */
  type Row = map<string, Cell>

  /** The exceptions that escape a cycle: the amount column is absent, its
      value cannot be compared with a number, or the preprocessor raised. */
  datatype EngineError = KeyError(column: string) | TypeError | TransformError

  /** A deal is at risk when its probability is strictly below the threshold;
      a probability equal to the threshold is healthy. */
  predicate AtRisk(p: real, threshold: real)
  {
    p < threshold
  }

  /** The record before any rule has fired. */
  function InitialDecision(p: real): Decision
  {
    Decision(p, false, NoAction, Unset)
  }

  /** The record for a healthy deal. */
  function HealthyDecision(p: real): Decision
  {
    InitialDecision(p).(justification := HealthOptimal)
  }

  /** The record for an at-risk deal, given whether it is high-value. */
  function AtRiskDecision(p: real, highValue: bool): Decision
  {
    var flagged := InitialDecision(p).(actionRequired := true);
    if highValue then
      flagged.(actionType := AutonomousDiscountTrigger, justification := HighValueDiscount(p))
    else
      flagged.(actionType := ManagerAlertTask, justification := ManagerEscalation)
  }

  /** The decision table for a numeric deal amount. */
  function Decide(p: real, amount: real, threshold: real): (d: Decision)
    ensures d.probability == p
    ensures d.WellFormed()
    ensures d.actionRequired <==> p < threshold
    ensures d.actionType == NoAction <==> threshold <= p
    ensures d.actionType == AutonomousDiscountTrigger <==> p < threshold && amount > 50000.0
    ensures d.actionType == ManagerAlertTask <==> p < threshold && amount <= 50000.0
    ensures threshold <= p ==> d.justification == HealthOptimal
  {
    if AtRisk(p, threshold) then AtRiskDecision(p, amount > HighValueCutoff)
    else HealthyDecision(p)
  }

  /** `deal_value > 50000` on one cell: a NaN compares false, text raises. */
  function ExceedsCutoff(c: Cell): (r: Result<bool, EngineError>)
    ensures r.Failure? <==> c.Text?
    ensures c.Text? ==> r == Failure(TypeError)
    ensures r == Success(true) <==> c.Number? && c.value > 50000.0
  {
    match c
    case Number(v) => Success(v > HighValueCutoff)
    case NaN => Success(false)
    case Text(_) => Failure(TypeError)
  }

  /** The reasoning step on the raw record: the amount column is looked up
      only once the deal is known to be at risk. */
  function ReasoningLogic(p: real, row: Row, threshold: real): (r: Result<Decision, EngineError>)
    ensures r.Failure? <==> p < threshold && (AmountColumn !in row || row[AmountColumn].Text?)
    ensures p < threshold && AmountColumn !in row ==> r == Failure(KeyError(AmountColumn))
    ensures p < threshold && AmountColumn in row && row[AmountColumn].Text? ==> r == Failure(TypeError)
    ensures threshold <= p ==> r.Success? && !r.value.actionRequired && r.value.actionType == NoAction
    ensures AmountColumn in row && row[AmountColumn].Number? ==>
              r == Success(Decide(p, row[AmountColumn].value, threshold))
    ensures p < threshold && AmountColumn in row && row[AmountColumn].NaN? ==>
              r.Success? && r.value.actionType == ManagerAlertTask
    ensures r.Success? ==> r.value.probability == p && r.value.WellFormed()
  {
    if AtRisk(p, threshold) then
      if AmountColumn !in row then Failure(KeyError(AmountColumn))
      else
        match ExceedsCutoff(row[AmountColumn])
        case Success(highValue) => Success(AtRiskDecision(p, highValue))
        case Failure(e) => Failure(e)
    else
      Success(HealthyDecision(p))
  }

  /** When the deal is healthy the record is never read: any two rows give the same result. */
  lemma AmountNotReadWhenHealthy(p: real, row1: Row, row2: Row, threshold: real)
    requires threshold <= p
    ensures ReasoningLogic(p, row1, threshold) == ReasoningLogic(p, row2, threshold)
    ensures ReasoningLogic(p, row1, threshold).Success?
  {
  }

  /** The lines emitted for a decision: the action and its justification when
      action is required, the monitoring status otherwise. */
  function Execute(d: Decision): (out: seq<Message>)
    ensures MonitoringActive in out <==> !d.actionRequired
    ensures !d.actionRequired ==> out == [MonitoringActive]
    ensures d.actionRequired ==> out == [ActionExecuted(d.actionType.Name()), Justified(d.justification)]
  {
    if d.actionRequired then
      [ActionExecuted(d.actionType.Name()), Justified(d.justification)]
    else
      [MonitoringActive]
  }

  /** Recovers the decision behind a sequence of emitted lines, given the
      probability (which the lines do not mention). */
  function Interpret(out: seq<Message>, p: real): (d: Option<Decision>)
    ensures d.Some? ==> d.value.probability == p && Execute(d.value) == out
  {
    if out == [MonitoringActive] then Some(HealthyDecision(p))
    else if |out| == 2 && out[0].ActionExecuted? && out[1].Justified? then
      match ParseActionType(out[0].action)
      case Some(a) => if a != NoAction then Some(Decision(p, true, a, out[1].text)) else None
      case None => None
    else None
  }

  /** Nothing of a well-formed decision is lost when it is emitted. */
  lemma ExecuteRoundTrip(d: Decision)
    requires d.WellFormed()
    ensures Interpret(Execute(d), d.probability) == Some(d)
  {
  }

  /** What one observe-reason-act cycle leaves behind. */
  datatype Outcome = Outcome(decision: Decision, emitted: seq<Message>)

  /** One observe-reason-act cycle: transform the record, predict the win
      probability, reason, act. The fitted preprocessor may raise (it reads
      the amount column itself), so its result is a `Result`; its error
      propagates unchanged and nothing is emitted. */
  function AnalyzeAndAct<F>(agent: Agent, transform: Row -> Result<F, EngineError>,
                            predict: F -> real, raw: Row)
    : (r: Result<Outcome, EngineError>)
    ensures transform(raw).Failure? ==> r == Failure(transform(raw).error)
    ensures transform(raw).Success? ==>
              (r.Failure? <==>
                 AtRisk(predict(transform(raw).value), agent.threshold)
                 && (AmountColumn !in raw || raw[AmountColumn].Text?))
    ensures transform(raw).Success? ==>
              var rl := ReasoningLogic(predict(transform(raw).value), raw, agent.threshold);
              && (r.Failure? ==> rl.Failure? && r.error == rl.error)
              && (r.Success? ==> rl.Success? && r.value.decision == rl.value)
    ensures r.Success? ==>
              && transform(raw).Success?
              && r.value.decision.probability == predict(transform(raw).value)
              && r.value.decision.WellFormed()
              && r.value.emitted == Execute(r.value.decision)
              && (r.value.decision.actionRequired <==> predict(transform(raw).value) < agent.threshold)
  {
    match transform(raw)
    case Failure(e) => Failure(e)
    case Success(features) =>
      var winProb := predict(features);
      match ReasoningLogic(winProb, raw, agent.threshold)
      case Success(d) => Success(Outcome(d, Execute(d)))
      case Failure(e) => Failure(e)
  }
}
